/**
  The configuration presets: validation, and the layered merge that produces a provider payload
  (apps/rooms/configuration.py).
 */
module Configuration {
  import opened Wrappers

  /** A decoded JSON value. */
  datatype Json =
    | JNull
    | JBool(flag: bool)
    | JInt(number: int)
    | JFloat(amount: real)
    | JStr(text: string)
    | JArr(items: seq<Json>)
    | JObj(fields: Dict)

  type Dict = map<string, Json>

  const BOOLEAN_CONFIG_FIELDS: set<string> := {
    "MIC_OFF", "CAMERA_OFF", "PASSWORD", "AUTH_USER", "ALLOW_COUNTRY", "HOST_SCR_SHR",
    "HOST_RECORD_STARTUP", "PRTCPNTS_CHAT_CTRL", "HIDE_REQ_TO_TALK", "PRTCPNTS_RCTN_ENABLED",
    "PRTCPNTS_POLL_ENABLED", "WAITING_ROOM", "PRTCPNTS_SETTINGS_ENABLED", "PRTCPNTS_AUD_ENABLED",
    "PRTCPNTS_VDO_ENABLED", "DIS_CHAT_WBNR", "DIS_WANT_TO_TALK_WBNR"
  }

  const ENUM_CONFIG_FIELDS: map<string, set<string>> := map[
    "PRTCPNTS_LIST" := {"host", "all"},
    "REJOIN_POPUP" := {"host", "all", "none"},
    "SHR_OVERLAY" := {"host", "all", "none"}
  ]

  const BOOLEAN_TOP_LEVEL_FIELDS: set<string> := {"preDefineHostEnabled", "uniqueParticipantJoin", "bigMeeting"}

  const MEETING_TYPES: set<string> := {"instant", "scheduled"}

  predicate ValidEnum(value: Json, allowed: set<string>) {
    value.JStr? && value.text in allowed
  }

  predicate ValidFlag(field: string, setting: Json) {
    if field in BOOLEAN_CONFIG_FIELDS then setting.JBool?
    else field in ENUM_CONFIG_FIELDS && ValidEnum(setting, ENUM_CONFIG_FIELDS[field])
  }

  predicate ValidFlags(flags: Dict) {
    forall field <- flags :: ValidFlag(field, flags[field])
  }

  predicate ValidEntry(key: string, value: Json) {
    if key == "meetingType" then ValidEnum(value, MEETING_TYPES)
    else if key in BOOLEAN_TOP_LEVEL_FIELDS then value.JBool?
    else key == "config" && value.JObj? && ValidFlags(value.fields)
  }

  /** What `validate_config` accepts. */
  predicate ValidConfig(value: Json) {
    value.JObj? && forall key <- value.fields :: ValidEntry(key, value.fields[key])
  }

  /** The nested flags of a configuration; empty when it has none. */
  function Flags(config: Dict): Dict {
    if "config" in config && config["config"].JObj? then config["config"].fields else map[]
  }

  /** One turn of the merge loop: the nested flags are merged, every other key is replaced. */
  function MergeLayer(result: Dict, layer: Dict): Dict {
    var flags := Flags(result) + Flags(layer);
    if flags == map[] then result + layer else (result + layer)["config" := JObj(flags)]
  }

  function MergeAll(result: Dict, layers: seq<Dict>): Dict
    decreases |layers|
  {
    if layers == [] then result else MergeAll(MergeLayer(result, layers[0]), layers[1..])
  }

  /** Python's `or {}`: every falsy JSON value counts as the empty configuration. */
  function OrEmpty(value: Json): Json {
    match value
    case JNull => JObj(map[])
    case JBool(flag) => if flag then value else JObj(map[])
    case JInt(number) => if number == 0 then JObj(map[]) else value
    case JFloat(amount) => if amount == 0.0 then JObj(map[]) else value
    case JStr(text) => if text == "" then JObj(map[]) else value
    case JArr(items) => if items == [] then JObj(map[]) else value
    case JObj(_) => value
  }

  predicate AllValid(layers: seq<Json>)
    ensures AllValid(layers) ==> forall i | 0 <= i < |layers| :: layers[i].JObj?
  {
    forall i | 0 <= i < |layers| :: ValidConfig(layers[i])
  }

  function Fields(layers: seq<Json>): seq<Dict>
    requires AllValid(layers)
  {
    seq(|layers|, i requires 0 <= i < |layers| => layers[i].fields)
  }

  /** `resolve_config`: None is the ValidationError of a bad layer or a bad result. */
  function Resolve(defaultType: Json, layers: seq<Json>): Option<Dict> {
    if AllValid(layers) then
      var result := MergeAll(map["meetingType" := defaultType], Fields(layers));
      if ValidConfig(JObj(result)) then Some(result) else None
    else
      None
  }

  // ---------------------------------------------------------------------------------------------
  // The independent reading of the merge: the last layer that defines a setting decides it.
  // ---------------------------------------------------------------------------------------------

  /** The value the last layer defining `key` gives it. */
  function LastTopLevel(layers: seq<Dict>, key: string): Option<Json> {
    if layers == [] then None
    else
      var last := layers[|layers| - 1];
      if key in last then Some(last[key]) else LastTopLevel(layers[..|layers| - 1], key)
  }

  /** The value the last layer defining the nested flag gives it. */
  function LastFlag(layers: seq<Dict>, flag: string): Option<Json> {
    if layers == [] then None
    else
      var last := Flags(layers[|layers| - 1]);
      if flag in last then Some(last[flag]) else LastFlag(layers[..|layers| - 1], flag)
  }

  function Lookup(config: Dict, key: string): Option<Json> {
    if key in config then Some(config[key]) else None
  }

  /** Merging one more layer at the end is one more turn of the loop. */
  lemma {:induction false} MergeAllSnoc(result: Dict, layers: seq<Dict>, layer: Dict)
    ensures MergeAll(result, layers + [layer]) == MergeLayer(MergeAll(result, layers), layer)
    decreases |layers|
  {
    if layers == [] {
      assert layers + [layer] == [layer];
      assert [layer][1..] == [];
    } else {
      assert (layers + [layer])[1..] == layers[1..] + [layer];
      MergeAllSnoc(MergeLayer(result, layers[0]), layers[1..], layer);
    }
  }

  /** Every key and every nested flag of `merged` is the one of the last layer defining it. */
  ghost predicate LastDefinerDecides(merged: Dict, layers: seq<Dict>) {
    && (forall key | key != "config" :: Lookup(merged, key) == LastTopLevel(layers, key))
    && (forall flag :: Lookup(Flags(merged), flag) == LastFlag(layers, flag))
    && ("config" in merged <==> exists i | 0 <= i < |layers| :: "config" in layers[i])
    && ConfigIsObject(merged)
  }

  predicate ConfigIsObject(config: Dict) {
    "config" in config ==> config["config"].JObj?
  }

  predicate ConfigsAreObjects(layers: seq<Dict>) {
    forall i | 0 <= i < |layers| :: ConfigIsObject(layers[i])
  }

  lemma {:induction false} MergeIsLastDefiner(result: Dict, layers: seq<Dict>)
    requires ConfigIsObject(result) && ConfigsAreObjects(layers)
    ensures LastDefinerDecides(MergeAll(result, layers), [result] + layers)
  {
    var all := [result] + layers;
    if layers == [] {
      assert all[..|all| - 1] == [];
      assert all[0] == result;
    } else {
      var front, last := layers[..|layers| - 1], layers[|layers| - 1];
      assert layers == front + [last];
      MergeIsLastDefiner(result, front);
      MergeAllSnoc(result, front, last);
      OneMoreLayerDecides(MergeAll(result, front), [result] + front, last);
      assert [result] + front + [last] == all;
    }
  }

  /** One more turn of the loop lets the new layer decide. */
  lemma {:induction false} OneMoreLayerDecides(before: Dict, layers: seq<Dict>, last: Dict)
    requires LastDefinerDecides(before, layers) && ConfigIsObject(last)
    ensures LastDefinerDecides(MergeLayer(before, last), layers + [last])
  {
    var all := layers + [last];
    assert all[..|all| - 1] == layers && all[|all| - 1] == last;
    assert forall i | 0 <= i < |layers| :: layers[i] == all[i];
  }

  lemma MergeLayerKeepsValid(result: Dict, layer: Dict)
    requires ValidConfig(JObj(result)) && ValidConfig(JObj(layer))
    ensures ValidConfig(JObj(MergeLayer(result, layer)))
  {
    assert "config" in result ==> ValidEntry("config", result["config"]);
    assert "config" in layer ==> ValidEntry("config", layer["config"]);
    var flags := Flags(result) + Flags(layer);
    assert ValidFlags(flags);
    assert ValidEntry("config", JObj(flags));
  }

  lemma {:induction false} MergeAllKeepsValid(result: Dict, layers: seq<Dict>)
    requires ValidConfig(JObj(result))
    requires forall i | 0 <= i < |layers| :: ValidConfig(JObj(layers[i]))
    ensures ValidConfig(JObj(MergeAll(result, layers)))
    decreases |layers|
  {
    if layers != [] {
      MergeLayerKeepsValid(result, layers[0]);
      MergeAllKeepsValid(MergeLayer(result, layers[0]), layers[1..]);
    }
  }

  /** The final `validate_config` of `resolve_config` never fails when the default type is valid. */
  lemma {:induction false} ResolveFailsOnlyOnABadLayer(defaultType: Json, layers: seq<Json>)
    requires ValidEnum(defaultType, MEETING_TYPES)
    ensures Resolve(defaultType, layers).Some? <==> AllValid(layers)
  {
    if AllValid(layers) {
      MergeAllKeepsValid(map["meetingType" := defaultType], Fields(layers));
    }
  }

  /** Everything but the meeting type is valid. */
  predicate ValidButType(config: Dict) {
    forall key <- config :: key != "meetingType" ==> ValidEntry(key, config[key])
  }

  lemma MergeLayerKeepsValidButType(result: Dict, layer: Dict)
    requires ValidButType(result) && ValidConfig(JObj(layer))
    ensures ValidButType(MergeLayer(result, layer))
  {
    assert "config" in result ==> ValidEntry("config", result["config"]);
    assert "config" in layer ==> ValidEntry("config", layer["config"]);
    var flags := Flags(result) + Flags(layer);
    assert ValidFlags(flags);
    assert ValidEntry("config", JObj(flags));
  }

  lemma {:induction false} MergeAllKeepsValidButType(result: Dict, layers: seq<Dict>)
    requires ValidButType(result)
    requires forall i | 0 <= i < |layers| :: ValidConfig(JObj(layers[i]))
    ensures ValidButType(MergeAll(result, layers))
    decreases |layers|
  {
    if layers != [] {
      MergeLayerKeepsValidButType(result, layers[0]);
      MergeAllKeepsValidButType(MergeLayer(result, layers[0]), layers[1..]);
    }
  }

  /** For any default type: resolution fails exactly on a bad layer or a bad meeting type in the end. */
  lemma ResolvesIffLayersAndTypeAreValid(defaultType: Json, layers: seq<Json>)
    ensures Resolve(defaultType, layers).Some?
       <==> AllValid(layers)
            && var merged := MergeAll(map["meetingType" := defaultType], Fields(layers));
               "meetingType" in merged && merged["meetingType"] in {JStr("instant"), JStr("scheduled")}
  {
    if AllValid(layers) {
      var base: Dict := map["meetingType" := defaultType];
      MergeAllKeepsValidButType(base, Fields(layers));
      MergeAllGrows(base, Fields(layers));
      var merged := MergeAll(base, Fields(layers));
      assert ValidConfig(JObj(merged)) <==> ValidEntry("meetingType", merged["meetingType"]);
    }
  }

  /** Resolution as last-definer lookup, for every list of layers that resolves. */
  lemma {:induction false} ResolveIsLastDefiner(defaultType: Json, layers: seq<Json>)
    requires Resolve(defaultType, layers).Some?
    ensures AllValid(layers)
    ensures ValidConfig(JObj(Resolve(defaultType, layers).value))
    ensures LastDefinerDecides(Resolve(defaultType, layers).value, [map["meetingType" := defaultType]] + Fields(layers))
  {
    ValidLayersHaveObjects(layers);
    MergeIsLastDefiner(map["meetingType" := defaultType], Fields(layers));
  }

  lemma {:induction false} ValidLayersHaveObjects(layers: seq<Json>)
    requires AllValid(layers)
    ensures ConfigsAreObjects(Fields(layers))
  {
    forall i | 0 <= i < |layers| && "config" in layers[i].fields
      ensures layers[i].fields["config"].JObj?
    {
      assert ValidEntry("config", layers[i].fields["config"]);
    }
  }

  /** A resolved configuration always names a meeting type. */
  lemma ResolveNamesAType(defaultType: Json, layers: seq<Json>)
    requires Resolve(defaultType, layers).Some?
    ensures "meetingType" in Resolve(defaultType, layers).value
  {
    MergeAllGrows(map["meetingType" := defaultType], Fields(layers));
  }

  lemma {:induction false} MergeAllGrows(result: Dict, layers: seq<Dict>)
    ensures result.Keys <= MergeAll(result, layers).Keys
    decreases |layers|
  {
    if layers != [] {
      MergeAllGrows(MergeLayer(result, layers[0]), layers[1..]);
    }
  }
}
