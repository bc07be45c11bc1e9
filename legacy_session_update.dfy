/**
 * ep.SessionUpdateEntryProcessor: carries a whole ep.SessionState and merges
 * its attributes into the stored record (null removes, anything else is put),
 * creating the record when the entry is empty. It answers the merged record,
 * is its own backup processor, and delegates its serialization to the
 * carried record.
 */
module LegacySessionUpdate {
  import opened Hazelcast
  import opened AttributeMap
  import opened Kinds
  import opened LegacySession
  import LegacySpringSessionDataSerializerHook

  /** The attribute map left in the entry whose prior value was `prior`. */
  function Merged(prior: Option<Attributes>, carried: Attributes): Attributes {
    ApplyUpdates(if prior.Some? then prior.value else map[], carried)
  }

  /** Applying it twice leaves the entry as applying it once. */
  lemma MergedIdempotent(prior: Option<Attributes>, carried: Attributes)
    ensures Merged(Some(Merged(prior, carried)), carried) == Merged(prior, carried)
  {
    ApplyUpdatesIdempotent(if prior.Some? then prior.value else map[], carried);
  }

  class SessionUpdateEntryProcessor {
    var sessionState: SessionState

    /** Carries the given record object itself. */
    constructor WithState(sessionState: SessionState)
      ensures this.sessionState == sessionState
    {
      this.sessionState := sessionState;
    }

    /** The no-argument constructor the registry uses: carries a new, empty record. */
    constructor ()
      ensures fresh(sessionState) && sessionState.attributes == map[]
    {
      sessionState := new SessionState();
    }

    function GetFactoryId(): Namespace {
      LegacySpringSessionDataSerializerHook.F_ID
    }

    function GetId(): int {
      LegacySpringSessionDataSerializerHook.SESSION_UPDATE_EP
    }

    /** Merges the carried attributes into the stored (or a new) record, sets it back and answers it. */
    method Process(entry: SessionEntry) returns (r: SessionState)
      modifies entry, entry.value
      ensures r == entry.value
      ensures r.attributes == Merged(old(entry.Current()), old(sessionState.attributes))
      ensures old(entry.value) != null ==> r == old(entry.value)
      ensures old(entry.value) == null ==> fresh(r)
      ensures entry.setValues == old(entry.setValues) + [r]
    {
      var value := entry.value;
      if value == null {
        value := new SessionState();
      }
      var carried := sessionState.attributes;
      ghost var start := value.attributes;
      var pending := carried.Keys;
      ghost var done: set<string> := {};
      while pending != {}
        invariant pending !! done && pending + done == carried.Keys
        invariant value.attributes == ApplyUpdates(start, Restrict(carried, done))
        modifies value
        decreases pending
      {
        var name :| name in pending;
        ApplyUpdatesStep(start, carried, done, name);
        if carried[name].Some? {
          value.SetAttribute(name, carried[name]);
        } else {
          value.attributes := value.attributes - {name};
        }
        pending := pending - {name};
        done := done + {name};
      }
      RestrictAll(carried);
      entry.SetValue(value);
      r := value;
    }

    /** The backup processor is the processor itself. */
    function GetBackupProcessor(): (b: SessionUpdateEntryProcessor)
      ensures b == this
    {
      this
    }

    /** processBackup runs process: a replica ends in the state the primary reached from the same value. */
    method ProcessBackup(entry: SessionEntry)
      modifies entry, entry.value
      ensures entry.Current() == Some(Merged(old(entry.Current()), old(sessionState.attributes)))
      ensures old(entry.value) != null ==> entry.value == old(entry.value)
      ensures old(entry.value) == null ==> fresh(entry.value)
      ensures entry.setValues == old(entry.setValues) + [entry.value]
    {
      var _ := Process(entry);
    }

    /** Delegates to the carried record. */
    method WriteData(out: ObjectDataOutput) returns (ghost order: seq<string>)
      requires |sessionState.attributes| <= INT32_MAX
      modifies out
      ensures IsEnumeration(order, sessionState.attributes)
      ensures out.tokens == old(out.tokens) + AttributesWire(sessionState.attributes, order)
    {
      order := sessionState.WriteData(out);
    }

    /** Delegates to the carried record, which merges what it reads into its map. */
    method ReadData(input: ObjectDataInput) returns (error: Option<Error>)
      modifies sessionState, input
      ensures ReadOutcome(sessionState.attributes, input.pos, error)
           == ReadAttributes(input.tokens, old(input.pos), old(sessionState.attributes))
    {
      error := sessionState.ReadData(input);
    }
  }

  /**
   * What the map does with one SessionUpdateEntryProcessor: process on the
   * primary's entry, then processBackup, through getBackupProcessor, on the
   * replica's copy of the same prior value. The carried record must be
   * neither entry's own record: Java would then iterate the map it is
   * removing from. The replica ends with the primary's value.
   */
  method Replicate(p: SessionUpdateEntryProcessor, primary: SessionEntry, replica: SessionEntry)
    requires primary != replica
    requires primary.value == null || primary.value != replica.value
    requires primary.Current() == replica.Current()
    requires p.sessionState != primary.value
    requires p.sessionState != replica.value
    modifies primary, primary.value, replica, replica.value
    ensures replica.Current() == primary.Current()
  {
    var _ := p.Process(primary);
    var backup := p.GetBackupProcessor();
    backup.ProcessBackup(replica);
  }
}
