/**
 * The record of the older package ep (`ep.SessionState`): an attribute map
 * only, and the entry (`Map.Entry<String, ep.SessionState>`) its processor
 * runs against.
 */
module LegacySession {
  import opened Hazelcast
  import opened AttributeMap
  import opened Kinds
  import LegacySpringSessionDataSerializerHook

  class SessionState {
    var attributes: Attributes

    /** `new SessionState()`: an empty map. */
    constructor ()
      ensures attributes == map[]
    {
      attributes := map[];
    }

    /** `new SessionState(map)`: the given map becomes the attribute map. */
    constructor FromMap(attributes: Attributes)
      ensures this.attributes == attributes
    {
      this.attributes := attributes;
    }

    function GetFactoryId(): Namespace {
      LegacySpringSessionDataSerializerHook.F_ID
    }

    function GetId(): int {
      LegacySpringSessionDataSerializerHook.SESSION_STATE
    }

    /** `attributes.get(name)`: the mapped value, null when the name is absent or mapped to null. */
    function GetAttribute(name: string): (r: Option<Data>)
      reads this
      ensures name !in attributes ==> r == None
      ensures name in attributes ==> r == attributes[name]
    {
      if name in attributes then attributes[name] else None
    }

    /** Puts the pair into the map: a null value is stored, not removed. */
    method SetAttribute(name: string, value: Option<Data>)
      modifies this
      ensures attributes == old(attributes)[name := value]
      ensures GetAttribute(name) == value
      ensures forall other :: other != name ==> GetAttribute(other) == old(GetAttribute(other))
    {
      attributes := attributes[name := value];
    }

    method WriteData(out: ObjectDataOutput) returns (ghost order: seq<string>)
      requires |attributes| <= INT32_MAX
      modifies out
      ensures IsEnumeration(order, attributes)
      ensures out.tokens == old(out.tokens) + AttributesWire(attributes, order)
    {
      order := WriteAttributes(out, attributes);
    }

    /** Reads a count and puts that many pairs into the existing map, which is not cleared first. */
    method ReadData(input: ObjectDataInput) returns (error: Option<Error>)
      modifies this, input
      ensures ReadOutcome(attributes, input.pos, error) == ReadAttributes(input.tokens, old(input.pos), old(attributes))
    {
      var count := input.ReadInt();
      if count.Err? {
        error := Some(count.error);
        return;
      }
      attributes, error := ReadPairsFrom(input, count.value, attributes);
    }
  }

  /** The entry the older processor is handed, with a log of its `setValue` calls. */
  class SessionEntry {
    const key: string
    var value: SessionState?
    ghost var setValues: seq<SessionState?>

    constructor (key: string, value: SessionState?)
      ensures this.key == key && this.value == value && setValues == []
    {
      this.key := key;
      this.value := value;
      setValues := [];
    }

    /** The stored attribute map, None when the entry holds null. */
    function Current(): Option<Attributes>
      reads this, value
    {
      if value == null then None else Some(value.attributes)
    }

    method SetValue(v: SessionState?)
      modifies this
      ensures value == v && setValues == old(setValues) + [v]
    {
      value := v;
      setValues := setValues + [v];
    }
  }
}
