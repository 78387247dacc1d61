/**
  Which rooms are open for a client, and with which payload, spelled out over the stored rows: the
  room overrides the client's preset, which overrides the system preset.
 */
module Eligibility {
  import opened Wrappers
  import opened Configuration
  import opened Models
  import opened Text
  import opened Rooms
  import opened Invariants

  /** Python's falsy JSON values. */
  predicate Falsy(value: Json) {
    match value
    case JNull => true
    case JBool(flag) => !flag
    case JInt(number) => number == 0
    case JFloat(amount) => amount == 0.0
    case JStr(text) => text == ""
    case JArr(items) => items == []
    case JObj(fields) => fields == map[]
  }

  predicate IsBool(value: Json) {
    value == JBool(true) || value == JBool(false)
  }

  predicate IsOneOf(value: Json, texts: set<string>) {
    exists text :: text in texts && value == JStr(text)
  }

  /** A setting of the nested object: seventeen switches and three choices. */
  predicate AcceptedFlag(flag: string, value: Json) {
    || (flag in {"MIC_OFF", "CAMERA_OFF", "PASSWORD", "AUTH_USER", "ALLOW_COUNTRY", "HOST_SCR_SHR",
                 "HOST_RECORD_STARTUP", "PRTCPNTS_CHAT_CTRL", "HIDE_REQ_TO_TALK", "PRTCPNTS_RCTN_ENABLED",
                 "PRTCPNTS_POLL_ENABLED", "WAITING_ROOM", "PRTCPNTS_SETTINGS_ENABLED", "PRTCPNTS_AUD_ENABLED",
                 "PRTCPNTS_VDO_ENABLED", "DIS_CHAT_WBNR", "DIS_WANT_TO_TALK_WBNR"}
        && IsBool(value))
    || (flag == "PRTCPNTS_LIST" && IsOneOf(value, {"host", "all"}))
    || (flag in {"REJOIN_POPUP", "SHR_OVERLAY"} && IsOneOf(value, {"host", "all", "none"}))
  }

  predicate AcceptedKey(key: string, value: Json) {
    || (key == "meetingType" && IsOneOf(value, {"instant", "scheduled"}))
    || (key in {"preDefineHostEnabled", "uniqueParticipantJoin", "bigMeeting"} && IsBool(value))
    || (key == "config" && value.JObj? && forall flag <- value.fields :: AcceptedFlag(flag, value.fields[flag]))
  }

  lemma FlagIsAccepted(flag: string, value: Json)
    ensures ValidFlag(flag, value) <==> AcceptedFlag(flag, value)
  {
    assert |"PRTCPNTS_LIST"| == 13 && |"REJOIN_POPUP"| == 12 && |"SHR_OVERLAY"| == 11;
  }

  /** Validation accepts exactly these keys and values. */
  lemma AcceptedConfigurations(value: Json)
    ensures ValidConfig(value) <==> value.JObj? && forall key <- value.fields :: AcceptedKey(key, value.fields[key])
  {
    forall flag, setting
      ensures ValidFlag(flag, setting) <==> AcceptedFlag(flag, setting)
    {
      FlagIsAccepted(flag, setting);
    }
    forall key, entry
      ensures ValidEntry(key, entry) <==> AcceptedKey(key, entry)
    {
      EntryIsAccepted(key, entry);
    }
  }

  lemma EntryIsAccepted(key: string, entry: Json)
    ensures ValidEntry(key, entry) <==> AcceptedKey(key, entry)
  {
    forall flag, setting
      ensures ValidFlag(flag, setting) <==> AcceptedFlag(flag, setting)
    {
      FlagIsAccepted(flag, setting);
    }
    assert |"meetingType"| == 11 && |"config"| == 6 && |"preDefineHostEnabled"| == 20;
    assert |"uniqueParticipantJoin"| == 21 && |"bigMeeting"| == 10;
  }

  /** The three layers that count for a client in a room. */
  datatype Presetting = Presetting(room: Dict, client: Dict, system: Dict)

  predicate AppliesTo(db: Db, client: ClientId, room: Room, p: Presetting) {
    && (if Falsy(room.config) then p.room == map[] else room.config == JObj(p.room))
    && (if client in db.presets.clients then db.presets.clients[client] == JObj(p.client) else p.client == map[])
    && (if db.presets.system.Some? then db.presets.system.value == JObj(p.system) else p.system == map[])
  }

  predicate ValidPresetting(p: Presetting) {
    ValidConfig(JObj(p.room)) && ValidConfig(JObj(p.client)) && ValidConfig(JObj(p.system))
  }

  /** The room's value if it defines one, else the client's, else the system's. */
  function Chosen(p: Presetting, key: string): Option<Json> {
    if key in p.room then Some(p.room[key])
    else if key in p.client then Some(p.client[key])
    else if key in p.system then Some(p.system[key])
    else None
  }

  function FlagsOf(config: Dict): Dict {
    if "config" in config then match config["config"] case JObj(flags) => flags case _ => map[] else map[]
  }

  function ChosenFlag(p: Presetting, flag: string): Option<Json> {
    Chosen(Presetting(FlagsOf(p.room), FlagsOf(p.client), FlagsOf(p.system)), flag)
  }

  function ChosenType(cfg: Settings, p: Presetting): Json {
    match Chosen(p, "meetingType")
    case Some(value) => value
    case None => cfg.defaultMeetingType
  }

  /** The payload says exactly what the layers choose. */
  ghost predicate Follows(cfg: Settings, resolved: Dict, p: Presetting) {
    && (forall key | key !in {"config", "meetingType"} :: Lookup(resolved, key) == Chosen(p, key))
    && Lookup(resolved, "meetingType") == Some(ChosenType(cfg, p))
    && (forall flag :: Lookup(FlagsOf(resolved), flag) == ChosenFlag(p, flag))
  }

  function LayersOf(p: Presetting): seq<Json> {
    [JObj(p.system), JObj(p.client), JObj(p.room)]
  }

  lemma ValidLayersApply(cfg: Settings, db: Db, client: ClientId, room: Room)
    ensures AllValid(Layers(db.presets, client, room))
       <==> exists p :: AppliesTo(db, client, room, p) && ValidPresetting(p)
    ensures forall p | AppliesTo(db, client, room, p) :: Layers(db.presets, client, room) == LayersOf(p)
  {
    var layers := Layers(db.presets, client, room);
    forall p | AppliesTo(db, client, room, p)
      ensures layers == LayersOf(p) && (AllValid(layers) <==> ValidPresetting(p))
    {
      assert OrEmpty(room.config) == JObj(p.room);
      assert layers[0] == JObj(p.system) && layers[1] == JObj(p.client) && layers[2] == JObj(p.room);
    }
    if AllValid(layers) {
      assert ValidConfig(layers[0]) && ValidConfig(layers[1]) && ValidConfig(layers[2]);
      assert AppliesTo(db, client, room, Presetting(layers[2].fields, layers[1].fields, layers[0].fields));
    }
  }

  lemma LastOfOneMore(layers: seq<Dict>, last: Dict, key: string)
    ensures LastTopLevel(layers + [last], key) == if key in last then Some(last[key]) else LastTopLevel(layers, key)
    ensures LastFlag(layers + [last], key)
         == if key in Flags(last) then Some(Flags(last)[key]) else LastFlag(layers, key)
  {
    var all := layers + [last];
    assert all[..|all| - 1] == layers && all[|all| - 1] == last;
  }

  /** Four layers deep, the last definer is the one chosen. */
  lemma LastIsChosen(base: Dict, p: Presetting, key: string)
    ensures LastTopLevel([base, p.system, p.client, p.room], key)
         == match Chosen(p, key) case Some(value) => Some(value) case None => Lookup(base, key)
    ensures LastFlag([base, p.system, p.client, p.room], key)
         == match Chosen(Presetting(Flags(p.room), Flags(p.client), Flags(p.system)), key)
            case Some(value) => Some(value)
            case None => Lookup(Flags(base), key)
  {
    LastOfOneMore([], base, key);
    LastOfOneMore([base], p.system, key);
    LastOfOneMore([base, p.system], p.client, key);
    LastOfOneMore([base, p.system, p.client], p.room, key);
    assert [] + [base] == [base] && [base] + [p.system] == [base, p.system];
    assert [base, p.system] + [p.client] == [base, p.system, p.client];
    assert [base, p.system, p.client] + [p.room] == [base, p.system, p.client, p.room];
  }

  function TypeOnly(cfg: Settings): Dict {
    map["meetingType" := cfg.defaultMeetingType]
  }

  lemma KeyFollows(cfg: Settings, p: Presetting, resolved: Dict, key: string)
    requires LastDefinerDecides(resolved, [TypeOnly(cfg), p.system, p.client, p.room]) && key != "config"
    ensures Lookup(resolved, key)
         == if key == "meetingType" then Some(ChosenType(cfg, p)) else Chosen(p, key)
  {
    LastIsChosen(TypeOnly(cfg), p, key);
  }

  lemma FlagFollows(cfg: Settings, p: Presetting, resolved: Dict, flag: string)
    requires LastDefinerDecides(resolved, [TypeOnly(cfg), p.system, p.client, p.room])
    ensures Lookup(FlagsOf(resolved), flag) == ChosenFlag(p, flag)
  {
    LastIsChosen(TypeOnly(cfg), p, flag);
    assert |"config"| != |"meetingType"|;
  }

  /** A resolved configuration says exactly what the layers choose. */
  lemma ResolvedFollows(cfg: Settings, p: Presetting, resolved: Dict)
    requires Resolve(cfg.defaultMeetingType, LayersOf(p)) == Some(resolved)
    ensures Follows(cfg, resolved, p)
  {
    ResolveIsLastDefiner(cfg.defaultMeetingType, LayersOf(p));
    FourLayers(cfg, p);
    DecidedFollows(cfg, p, resolved);
  }

  lemma DecidedFollows(cfg: Settings, p: Presetting, resolved: Dict)
    requires LastDefinerDecides(resolved, [TypeOnly(cfg), p.system, p.client, p.room])
    ensures Follows(cfg, resolved, p)
  {
    forall key | key != "config"
      ensures Lookup(resolved, key) == if key == "meetingType" then Some(ChosenType(cfg, p)) else Chosen(p, key)
    {
      KeyFollows(cfg, p, resolved, key);
    }
    forall flag
      ensures Lookup(FlagsOf(resolved), flag) == ChosenFlag(p, flag)
    {
      FlagFollows(cfg, p, resolved, flag);
    }
    assert |"config"| != |"meetingType"|;
  }

  /** Resolution succeeds exactly for valid layers that choose a known meeting type. */
  lemma ResolvesIffChosen(cfg: Settings, p: Presetting)
    ensures Resolve(cfg.defaultMeetingType, LayersOf(p)).Some?
       <==> ValidPresetting(p) && ChosenType(cfg, p) in {JStr("instant"), JStr("scheduled")}
  {
    var layers := LayersOf(p);
    assert AllValid(layers) <==> ValidPresetting(p) by {
      assert layers[0] == JObj(p.system) && layers[1] == JObj(p.client) && layers[2] == JObj(p.room);
    }
    ResolvesIffLayersAndTypeAreValid(cfg.defaultMeetingType, layers);
    if ValidPresetting(p) { MergedTypeIsChosen(cfg, p); }
  }

  lemma MergedTypeIsChosen(cfg: Settings, p: Presetting)
    requires AllValid(LayersOf(p))
    ensures Lookup(MergeAll(map["meetingType" := cfg.defaultMeetingType], Fields(LayersOf(p))), "meetingType")
         == Some(ChosenType(cfg, p))
  {
    ValidLayersHaveObjects(LayersOf(p));
    MergeIsLastDefiner(TypeOnly(cfg), Fields(LayersOf(p)));
    FourLayers(cfg, p);
    assert |"config"| != |"meetingType"|;
    KeyFollows(cfg, p, MergeAll(TypeOnly(cfg), Fields(LayersOf(p))), "meetingType");
  }

  lemma FourLayers(cfg: Settings, p: Presetting)
    requires AllValid(LayersOf(p))
    ensures [TypeOnly(cfg)] + Fields(LayersOf(p)) == [TypeOnly(cfg), p.system, p.client, p.room]
  {
  }

  // ---------------------------------------------------------------------------------------------
  // Open rooms
  // ---------------------------------------------------------------------------------------------

  /** The room can be used by the client at all. */
  ghost predicate Usable(cfg: Settings, db: Db, client: ClientId, room: Room) {
    && room.isActive && room.maxConcurrentBookings == 1
    && (exists i :: 0 <= i < |room.username| && !IsSpace(room.username[i]))
    && (exists text :: room.password == Readable(text) && text != "")
    && (exists p :: AppliesTo(db, client, room, p) && ValidPresetting(p) && ChosenType(cfg, p) == JStr("instant"))
  }

  /** The rows of meetings that exist or may exist at the provider: the holders but those that wait for a retry. */
  function Unresolved(meetings: Meetings, room: PublicId): set<MeetingId> {
    set id | id in meetings && meetings[id].room == Some(room) && meetings[id].active
             && meetings[id].status != RetryableFailed
  }

  /** The room is usable, nobody holds it during the slot, and its limit is not reached. */
  ghost predicate OpenFor(cfg: Settings, db: Db, client: ClientId, id: PublicId, slot: Range) {
    && id in db.rooms && Usable(cfg, db, client, db.rooms[id])
    && (forall other | other in db.meetings && db.meetings[other].active && db.meetings[other].room == Some(id) ::
          db.meetings[other].reservation.Some? ==>
            || db.meetings[other].reservation.value.upper <= slot.lower
            || slot.upper <= db.meetings[other].reservation.value.lower)
    && (db.rooms[id].activeLimit.Some? ==> |Unresolved(db.meetings, id)| < db.rooms[id].activeLimit.value)
  }

  lemma ConfiguredIffUsable(cfg: Settings, db: Db, client: ClientId, room: Room)
    ensures Configured(cfg, db, client, room) <==> Usable(cfg, db, client, room)
  {
    ValidLayersApply(cfg, db, client, room);
    forall p | AppliesTo(db, client, room, p)
      ensures ResolveFor(cfg, db, client, room).Some? && IsInstant(ResolveFor(cfg, db, client, room).value)
         <==> ValidPresetting(p) && ChosenType(cfg, p) == JStr("instant")
    {
      ResolvesIffChosen(cfg, p);
      if ResolveFor(cfg, db, client, room).Some? {
        ResolvedFollows(cfg, p, ResolveFor(cfg, db, client, room).value);
      }
    }
    if ResolveFor(cfg, db, client, room).Some? {
      ResolvesIffLayersAndTypeAreValid(cfg.defaultMeetingType, Layers(db.presets, client, room));
      assert AllValid(Layers(db.presets, client, room));
    }
  }

  /** In a good store, the counted rows are the holders that do not wait for a retry. */
  lemma CountedAreUnresolved(cfg: Settings, db: Db, room: PublicId)
    requires DbInv(cfg, db)
    ensures CountedIn(db.meetings, room) == Unresolved(db.meetings, room)
  {
    forall id | id in db.meetings
      ensures Counted(db.meetings[id].status) <==> db.meetings[id].active && db.meetings[id].status != RetryableFailed
    {
      assert RowOk(cfg, db.meetings[id]);
    }
  }

  /** Eligibility is exactly being open. */
  lemma EligibleIffOpen(cfg: Settings, db: Db, client: ClientId, id: PublicId, slot: Range)
    requires DbInv(cfg, db)
    ensures Eligible(cfg, db, client, id, slot) <==> OpenFor(cfg, db, client, id, slot)
  {
    if id in db.rooms {
      ConfiguredIffUsable(cfg, db, client, db.rooms[id]);
      CountedAreUnresolved(cfg, db, id);
    }
  }

  /** The buffered interval is valid exactly when it is not empty and within the supported dates. */
  lemma IntervalIsBuffered(cfg: Settings, start: int, end: int)
    ensures Interval(cfg, start, end)
         == if start < end && cfg.earliest <= start - cfg.bufferBefore && end + cfg.bufferAfter <= cfg.latest
            then Ok(Range(start - cfg.bufferBefore, end + cfg.bufferAfter)) else Err(InvalidInterval)
  {
  }
}
