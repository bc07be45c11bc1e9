/**
 * The session record of package entryprocessor (`SessionState`) and the map
 * entry (`Map.Entry<String, SessionState>`) the entry processors run against.
 *
 * The record's attribute map is final and only ever added to or removed from;
 * the two timestamps are the accessors the processors and the repository
 * call on it, a null instant meaning "unset".
 */
module Session {
  import opened Hazelcast
  import opened AttributeMap
  import opened Kinds

  /** The value of a SessionState object. */
  datatype Record = Record(
    attributes: Attributes,
    creationTime: Option<Instant>,
    lastAccessedTime: Option<Instant>)

  /** What `new SessionState()` holds. */
  const EmptyRecord := Record(map[], None, None)

  /** The record a writing processor works on: the stored one, or a fresh one when the entry is empty. */
  function Materialize(prior: Option<Record>): Record {
    if prior.Some? then prior.value else EmptyRecord
  }

  class SessionState {
    var attributes: Attributes
    var creationTime: Option<Instant>
    var lastAccessedTime: Option<Instant>

    function Value(): Record
      reads this
    {
      Record(attributes, creationTime, lastAccessedTime)
    }

    constructor ()
      ensures Value() == EmptyRecord
    {
      attributes := map[];
      creationTime := None;
      lastAccessedTime := None;
    }

    function GetFactoryId(): Namespace {
      WebDsFactory
    }

    function GetId(): int {
      6
    }

    /** Puts the pair into the map: a null value is stored, not removed. */
    method SetAttribute(key: string, value: Option<Data>)
      modifies this
      ensures attributes == old(attributes)[key := value]
      ensures creationTime == old(creationTime) && lastAccessedTime == old(lastAccessedTime)
    {
      attributes := attributes[key := value];
    }

    /** Puts every entry of `m`: every key of `m` takes m's value, the others keep theirs. */
    method Set(m: Attributes)
      modifies this
      ensures attributes == old(attributes) + m
      ensures creationTime == old(creationTime) && lastAccessedTime == old(lastAccessedTime)
    {
      attributes := attributes + m;
    }

    method SetCreationTime(t: Option<Instant>)
      modifies this
      ensures Value() == old(Value()).(creationTime := t)
    {
      creationTime := t;
    }

    method SetLastAccessedTime(t: Option<Instant>)
      modifies this
      ensures Value() == old(Value()).(lastAccessedTime := t)
    {
      lastAccessedTime := t;
    }

    /** Writes the attribute count, then one (name, value) pair per attribute; the timestamps are not written. */
    method WriteData(out: ObjectDataOutput) returns (ghost order: seq<string>)
      requires |attributes| <= INT32_MAX
      modifies out
      ensures IsEnumeration(order, attributes)
      ensures out.tokens == old(out.tokens) + AttributesWire(attributes, order)
    {
      order := WriteAttributes(out, attributes);
    }

    /** Reads a count and puts that many pairs into the existing map, which is never cleared. */
    method ReadData(input: ObjectDataInput) returns (error: Option<Error>)
      modifies this, input
      ensures ReadOutcome(attributes, input.pos, error) == ReadAttributes(input.tokens, old(input.pos), old(attributes))
      ensures creationTime == old(creationTime) && lastAccessedTime == old(lastAccessedTime)
    {
      var count := input.ReadInt();
      if count.Err? {
        error := Some(count.error);
        return;
      }
      attributes, error := ReadPairsFrom(input, count.value, attributes);
    }
  }

  /**
   * The entry an entry processor is handed: its key, the record stored under
   * it (null when there is none), and a log of every `setValue` call.
   */
  class SessionEntry {
    const key: string
    var value: SessionState?
    ghost var setValues: seq<SessionState?>

    constructor (key: string, value: SessionState?)
      ensures this.key == key && this.value == value && setValues == []
    {
      this.key := key;
      this.value := value;
      setValues := [];
    }

    /** The stored record's value, None when the entry holds null. */
    function Current(): Option<Record>
      reads this, value
    {
      if value == null then None else Some(value.Value())
    }

    method SetValue(v: SessionState?)
      modifies this
      ensures value == v && setValues == old(setValues) + [v]
    {
      value := v;
      setValues := setValues + [v];
    }
  }

  /** readData into a fresh record reproduces the written attribute map, whatever key order was used. */
  lemma FreshRecordRoundTrip(m: Attributes, order: seq<string>, prefix: seq<Token>, rest: seq<Token>)
    requires |m| <= INT32_MAX
    requires IsEnumeration(order, m)
    ensures ReadAttributes(prefix + AttributesWire(m, order) + rest, |prefix|, EmptyRecord.attributes)
         == ReadOutcome(m, |prefix| + 1 + 2 * |m|, None)
  {
    AttributesRoundTrip(m, order, prefix, rest, EmptyRecord.attributes);
    assert EmptyRecord.attributes + m == m;
  }

  /** readData into a record that already has attributes merges: names not in the stream survive. */
  lemma ReadDataMerges(existing: Attributes, m: Attributes, order: seq<string>, prefix: seq<Token>, rest: seq<Token>)
    requires |m| <= INT32_MAX
    requires IsEnumeration(order, m)
    ensures var r := ReadAttributes(prefix + AttributesWire(m, order) + rest, |prefix|, existing);
      && r.error == None
      && (forall k :: k in m ==> k in r.attributes && r.attributes[k] == m[k])
      && (forall k :: k in existing && k !in m ==> k in r.attributes && r.attributes[k] == existing[k])
      && r.attributes.Keys == existing.Keys + m.Keys
  {
    AttributesRoundTrip(m, order, prefix, rest, existing);
  }
}
