/**
 * SetLATEntryProcessor: sets the record's last-accessed time to the carried
 * instant (null included), creating the record when the entry is empty. It is
 * its own backup processor.
 */
module SetLAT {
  import opened Hazelcast
  import opened Kinds
  import opened Session
  import SpringSessionDataSerializerHook

  /** The record left in the entry whose prior value was `prior`. */
  function WithLastAccessed(prior: Option<Record>, t: Option<Instant>): (r: Record)
    ensures r.lastAccessedTime == t
    ensures r.attributes == (if prior.Some? then prior.value.attributes else map[])
    ensures r.creationTime == (if prior.Some? then prior.value.creationTime else None)
  {
    Materialize(prior).(lastAccessedTime := t)
  }

  /** Applying it twice leaves the entry as applying it once. */
  lemma WithLastAccessedIdempotent(prior: Option<Record>, t: Option<Instant>)
    ensures WithLastAccessed(Some(WithLastAccessed(prior, t)), t) == WithLastAccessed(prior, t)
  {
  }

  class SetLATEntryProcessor {
    var lastAccessedTime: Option<Instant>

    /** The no-argument constructor the registry uses: carries null. */
    constructor ()
      ensures lastAccessedTime == None
    {
      lastAccessedTime := None;
    }

    constructor WithTime(lastAccessedTime: Option<Instant>)
      ensures this.lastAccessedTime == lastAccessedTime
    {
      this.lastAccessedTime := lastAccessedTime;
    }

    function GetFactoryId(): Namespace {
      SpringSessionDataSerializerHook.F_ID
    }

    function GetId(): int {
      SpringSessionDataSerializerHook.SET_LAT
    }

    /** Writes the carried instant into the stored (or a new) record, sets it back and answers TRUE. */
    method Process(entry: SessionEntry) returns (r: bool)
      modifies entry, entry.value
      ensures r
      ensures entry.Current() == Some(WithLastAccessed(old(entry.Current()), lastAccessedTime))
      ensures old(entry.value) != null ==> entry.value == old(entry.value)
      ensures old(entry.value) == null ==> fresh(entry.value)
      ensures entry.setValues == old(entry.setValues) + [entry.value]
    {
      var state := entry.value;
      if state == null {
        state := new SessionState();
      }
      state.SetLastAccessedTime(lastAccessedTime);
      entry.SetValue(state);
      r := true;
    }

    /** The backup processor is the processor itself. */
    function GetBackupProcessor(): (b: SetLATEntryProcessor)
      ensures b == this
    {
      this
    }

    /** processBackup runs process: a replica ends in the state the primary reached from the same value. */
    method ProcessBackup(entry: SessionEntry)
      modifies entry, entry.value
      ensures entry.Current() == Some(WithLastAccessed(old(entry.Current()), lastAccessedTime))
      ensures old(entry.value) != null ==> entry.value == old(entry.value)
      ensures old(entry.value) == null ==> fresh(entry.value)
      ensures entry.setValues == old(entry.setValues) + [entry.value]
    {
      var _ := Process(entry);
    }

    method WriteData(out: ObjectDataOutput)
      modifies out
      ensures out.tokens == old(out.tokens) + [ObjectToken(lastAccessedTime)]
    {
      out.WriteObject(lastAccessedTime);
    }

    method ReadData(input: ObjectDataInput) returns (error: Option<Error>)
      modifies this, input
      ensures ObjectAt(input.tokens, old(input.pos)).Ok? ==>
        error == None && lastAccessedTime == ObjectAt(input.tokens, old(input.pos)).value && input.pos == old(input.pos) + 1
      ensures ObjectAt(input.tokens, old(input.pos)).Err? ==>
        error == Some(ObjectAt(input.tokens, old(input.pos)).error) && lastAccessedTime == old(lastAccessedTime) && input.pos == old(input.pos)
    {
      var o := input.ReadObject();
      if o.Err? {
        return Some(o.error);
      }
      lastAccessedTime := o.value;
      error := None;
    }
  }

  /**
   * What the map does with one SetLATEntryProcessor: process on the primary's entry, then
   * processBackup, through getBackupProcessor, on the replica's copy of the
   * same prior value. The replica ends with the primary's value.
   */
  method Replicate(p: SetLATEntryProcessor, primary: SessionEntry, replica: SessionEntry)
    requires primary != replica
    requires primary.value == null || primary.value != replica.value
    requires primary.Current() == replica.Current()
    modifies primary, primary.value, replica, replica.value
    ensures replica.Current() == primary.Current()
  {
    var _ := p.Process(primary);
    var backup := p.GetBackupProcessor();
    backup.ProcessBackup(replica);
  }
}
