/**
  `validate_config` and `resolve_config` as the loops they are, over dictionaries that live on the heap.
 */
module ConfigResolver {
  import opened Configuration

  /** A mutable JSON object, as Python passes it around. */
  class JsonObject {
    var value: Json

    constructor (value: Json)
      ensures this.value == value
    {
      this.value := value;
    }

    /** `dict.update`. */
    method Update(other: Dict)
      requires value.JObj?
      modifies this
      ensures value == JObj(old(value).fields + other)
    {
      value := JObj(value.fields + other);
    }

    /** `self[key] = item`. */
    method Put(key: string, item: Json)
      requires value.JObj?
      modifies this
      ensures value == JObj(old(value).fields[key := item])
    {
      value := JObj(value.fields[key := item]);
    }
  }

  /** The loop over the nested flags; false is the ValidationError. */
  method ValidateFlags(flags: Dict) returns (valid: bool)
    ensures valid <==> ValidFlags(flags)
  {
    var left := flags.Keys;
    while left != {}
      invariant left <= flags.Keys
      invariant forall field | field in flags && field !in left :: ValidFlag(field, flags[field])
      decreases |left|
    {
      var field :| field in left;
      var setting := flags[field];
      var accepted := false;
      if field in BOOLEAN_CONFIG_FIELDS {
        accepted := setting.JBool?;
      } else if field in ENUM_CONFIG_FIELDS {
        accepted := setting.JStr? && setting.text in ENUM_CONFIG_FIELDS[field];
      }
      if !accepted {
        return false;
      }
      left := left - {field};
    }
    return true;
  }

  /** `validate_config`; false is the ValidationError. */
  method ValidateConfig(value: Json) returns (valid: bool)
    ensures valid <==> ValidConfig(value)
  {
    if !value.JObj? {
      return false;
    }
    var left := value.fields.Keys;
    while left != {}
      invariant left <= value.fields.Keys
      invariant forall key | key in value.fields && key !in left :: ValidEntry(key, value.fields[key])
      decreases |left|
    {
      var key :| key in left;
      var item := value.fields[key];
      var accepted := false;
      if key == "meetingType" {
        accepted := ValidEnum(item, MEETING_TYPES);
      } else if key in BOOLEAN_TOP_LEVEL_FIELDS {
        accepted := item.JBool?;
      } else if key == "config" && item.JObj? {
        accepted := ValidateFlags(item.fields);
      }
      if !accepted {
        return false;
      }
      left := left - {key};
    }
    return true;
  }

  ghost function Values(layers: seq<JsonObject>): seq<Json>
    reads layers
  {
    seq(|layers|, i requires 0 <= i < |layers| reads layers => layers[i].value)
  }

  /** A prefix grows by one layer. */
  lemma {:induction false} MergeOneMore(base: Dict, layers: seq<Json>, i: nat)
    requires i < |layers| && AllValid(layers[..i]) && ValidConfig(layers[i])
    ensures AllValid(layers[..i + 1])
    ensures MergeAll(base, Fields(layers[..i + 1])) == MergeLayer(MergeAll(base, Fields(layers[..i])), layers[i].fields)
  {
    assert layers[..i + 1] == layers[..i] + [layers[i]];
    assert AllValid(layers[..i + 1]);
    assert Fields(layers[..i + 1]) == Fields(layers[..i]) + [layers[i].fields];
    MergeAllSnoc(base, Fields(layers[..i]), layers[i].fields);
  }

  /**
    `resolve_config`: null is the ValidationError. The result is a new dictionary and no layer is
    changed.
   */
  method ResolveConfig(defaultType: Json, layers: seq<JsonObject>) returns (result: JsonObject?)
    ensures result != null ==> fresh(result)
    ensures Values(layers) == old(Values(layers))
    ensures match Resolve(defaultType, Values(layers))
            case Some(config) => result != null && result.value == JObj(config)
            case None => result == null
  {
    ghost var values := Values(layers);
    ghost var base: Dict := map["meetingType" := defaultType];
    result := new JsonObject(JObj(map["meetingType" := defaultType]));
    for i := 0 to |layers|
      invariant result != null && fresh(result) && result !in layers
      invariant Values(layers) == values
      invariant AllValid(values[..i])
      invariant result.value == JObj(MergeAll(base, Fields(values[..i])))
    {
      var layer := layers[i].value;
      assert layer == values[i];
      var valid := ValidateConfig(layer);
      if !valid {
        assert !AllValid(values);
        return null;
      }
      MergeOneMore(base, values, i);
      var flags := Flags(result.value.fields) + Flags(layer.fields);
      result.Update(layer.fields);
      if flags != map[] {
        result.Put("config", JObj(flags));
      }
    }
    assert values[..|layers|] == values;
    var valid := ValidateConfig(result.value);
    if !valid {
      return null;
    }
  }
}
