/**
 * UpdateAttributeEntryProcessor: carries a map of attribute updates and
 * merges it into the session record, creating the record when the entry is
 * empty. It is its own backup processor.
 */
module UpdateAttribute {
  import opened Hazelcast
  import opened AttributeMap
  import opened Kinds
  import opened Session

  /** The record an UpdateAttribute leaves in the entry whose prior value was `prior`. */
  function Updated(prior: Option<Record>, updates: Attributes): Record {
    var base := Materialize(prior);
    base.(attributes := ApplyUpdates(base.attributes, updates))
  }

  /**
   * On an empty entry the result is a fresh record holding only the carried
   * non-null values; names carried with null are absent from the result;
   * everything else of the prior record is kept.
   */
  lemma UpdatedSemantics(prior: Option<Record>, updates: Attributes)
    ensures var r := Updated(prior, updates);
      && (prior.None? ==> r.creationTime == None && r.lastAccessedTime == None
                          && r.attributes == map k | k in updates && updates[k].Some? :: updates[k])
      && (forall k :: k in updates && updates[k].None? ==> k !in r.attributes)
      && (prior.Some? ==> r.creationTime == prior.value.creationTime
                          && r.lastAccessedTime == prior.value.lastAccessedTime)
  {
    var r := Updated(prior, updates);
    if prior.None? {
      var fromUpdates := map k | k in updates && updates[k].Some? :: updates[k];
      forall k
        ensures k in r.attributes <==> k in fromUpdates
        ensures k in r.attributes ==> r.attributes[k] == fromUpdates[k]
      {
      }
    }
  }

  /** Applying the same processor twice leaves the entry as applying it once. */
  lemma UpdatedIdempotent(prior: Option<Record>, updates: Attributes)
    ensures Updated(Some(Updated(prior, updates)), updates) == Updated(prior, updates)
  {
    ApplyUpdatesIdempotent(Materialize(prior).attributes, updates);
  }

  /**
   * readData of the processor: the count, then a new map (failing for a
   * negative count, as `new HashMap(n)` does) filled with that many pairs.
   * A failure before the map is created leaves `current` in place.
   */
  function ReadCarried(tokens: seq<Token>, pos: nat, current: Attributes): ReadOutcome {
    match IntAt(tokens, pos)
    case Err(e) => ReadOutcome(current, pos, Some(e))
    case Ok(count) =>
      if count < 0 then ReadOutcome(current, pos + 1, Some(NegativeCapacity))
      else ReadPairs(tokens, pos + 1, count as int, map[])
  }

  /** A default-constructed processor that reads what writeData wrote carries an equal map. */
  lemma CarriedRoundTrip(m: Attributes, order: seq<string>, prefix: seq<Token>, rest: seq<Token>, current: Attributes)
    requires |m| <= INT32_MAX
    requires IsEnumeration(order, m)
    ensures ReadCarried(prefix + AttributesWire(m, order) + rest, |prefix|, current)
         == ReadOutcome(m, |prefix| + 1 + 2 * |m|, None)
  {
    var tokens := prefix + AttributesWire(m, order) + rest;
    assert tokens == (prefix + [IntToken(|m| as int32)]) + PairsWire(m, order) + rest;
    assert tokens[|prefix|] == IntToken(|m| as int32);
    PairsRoundTrip(m, order, prefix + [IntToken(|m| as int32)], rest, map[]);
    PickEnumeration(m, order);
    assert map[] + m == m;
  }

  class UpdateAttributeEntryProcessor {
    var attributes: Attributes

    /** `new UpdateAttributeEntryProcessor(size)`: an empty map with that capacity. */
    constructor WithCapacity(size: int)
      requires size >= 0
      ensures attributes == map[]
    {
      attributes := map[];
    }

    /** `new UpdateAttributeEntryProcessor(key, value)`: the one-entry map {key: value}. */
    constructor Single(key: string, value: Option<Data>)
      ensures attributes == map[key := value]
    {
      attributes := map[key := value];
    }

    /** The no-argument constructor the registry uses: an empty map. */
    constructor ()
      ensures attributes == map[]
    {
      attributes := map[];
    }

    function GetFactoryId(): Namespace {
      WebDsFactory
    }

    function GetId(): int {
      1
    }

    /**
     * Takes the stored record (or a new one), removes every name carried
     * with null, puts every other carried value, sets the record back and
     * answers TRUE.
     */
    method Process(entry: SessionEntry) returns (r: bool)
      modifies entry, entry.value
      ensures r
      ensures entry.Current() == Some(Updated(old(entry.Current()), attributes))
      ensures old(entry.value) != null ==> entry.value == old(entry.value)
      ensures old(entry.value) == null ==> fresh(entry.value)
      ensures entry.setValues == old(entry.setValues) + [entry.value]
    {
      var state := entry.value;
      if state == null {
        state := new SessionState();
      }
      ghost var base := Materialize(old(entry.Current()));
      ghost var start := state.attributes;
      assert state.Value() == base;
      var pending := attributes.Keys;
      ghost var done: set<string> := {};
      while pending != {}
        invariant pending !! done && pending + done == attributes.Keys
        invariant state.attributes == ApplyUpdates(start, Restrict(attributes, done))
        invariant state.creationTime == base.creationTime && state.lastAccessedTime == base.lastAccessedTime
        modifies state
        decreases pending
      {
        var name :| name in pending;
        var value := attributes[name];
        ApplyUpdatesStep(start, attributes, done, name);
        if value.None? {
          state.attributes := state.attributes - {name};
        } else {
          state.attributes := state.attributes[name := value];
        }
        pending := pending - {name};
        done := done + {name};
      }
      RestrictAll(attributes);
      entry.SetValue(state);
      r := true;
    }

    /** The backup processor is the processor itself. */
    function GetBackupProcessor(): (b: UpdateAttributeEntryProcessor)
      ensures b == this
    {
      this
    }

    /** processBackup runs process: a replica ends in the state the primary reached from the same value. */
    method ProcessBackup(entry: SessionEntry)
      modifies entry, entry.value
      ensures entry.Current() == Some(Updated(old(entry.Current()), attributes))
      ensures old(entry.value) != null ==> entry.value == old(entry.value)
      ensures old(entry.value) == null ==> fresh(entry.value)
      ensures entry.setValues == old(entry.setValues) + [entry.value]
    {
      var _ := Process(entry);
    }

    method WriteData(out: ObjectDataOutput) returns (ghost order: seq<string>)
      requires |attributes| <= INT32_MAX
      modifies out
      ensures IsEnumeration(order, attributes)
      ensures out.tokens == old(out.tokens) + AttributesWire(attributes, order)
    {
      order := WriteAttributes(out, attributes);
    }

    method ReadData(input: ObjectDataInput) returns (error: Option<Error>)
      modifies this, input
      ensures ReadOutcome(attributes, input.pos, error) == ReadCarried(input.tokens, old(input.pos), old(attributes))
    {
      var count := input.ReadInt();
      if count.Err? {
        error := Some(count.error);
        return;
      }
      if count.value < 0 {
        error := Some(NegativeCapacity);
        return;
      }
      attributes, error := ReadPairsFrom(input, count.value, map[]);
    }
  }

  /**
   * What the map does with one UpdateAttributeEntryProcessor: process on the primary's entry, then
   * processBackup, through getBackupProcessor, on the replica's copy of the
   * same prior value. The replica ends with the primary's value.
   */
  method Replicate(p: UpdateAttributeEntryProcessor, primary: SessionEntry, replica: SessionEntry)
    requires primary != replica
    requires primary.value == null || primary.value != replica.value
    requires primary.Current() == replica.Current()
    modifies primary, primary.value, replica, replica.value
    ensures replica.Current() == primary.Current()
  {
    var _ := p.Process(primary);
    var backup := p.GetBackupProcessor();
    backup.ProcessBackup(replica);
  }
}
