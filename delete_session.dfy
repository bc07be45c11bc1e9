/**
 * DeleteSessionEntryProcessor: with `invalidate` it removes a present record
 * by setting the entry to null and remembers that in `removed`; without it
 * it only sets the record back. A backup is dispatched only after a removal.
 */
module DeleteSession {
  import opened Hazelcast
  import opened Kinds
  import opened Session

  /** The entry value the primary leaves, from the prior value. */
  function AfterDelete(prior: Option<Record>, invalidate: bool): Option<Record> {
    if prior.Some? && invalidate then None else prior
  }

  /** The entry value processBackup leaves: a present record is nulled, an absent one stays absent. */
  function AfterBackup(prior: Option<Record>): Option<Record> {
    if prior.Some? then None else prior
  }

  /** Whether `removed` is set after a process that started with `removedBefore`. */
  function RemovedAfter(prior: Option<Record>, invalidate: bool, removedBefore: bool): bool {
    removedBefore || (prior.Some? && invalidate)
  }

  /**
   * A replica starting from the primary's prior value ends where the primary
   * ended, whether or not getBackupProcessor dispatched a backup, provided
   * `removed` was only ever set by a removing process of this instance.
   */
  lemma BackupMatchesPrimary(prior: Option<Record>, invalidate: bool, removedBefore: bool)
    requires removedBefore ==> invalidate
    ensures (if RemovedAfter(prior, invalidate, removedBefore) then AfterBackup(prior) else prior)
         == AfterDelete(prior, invalidate)
  {
  }

  class DeleteSessionEntryProcessor {
    var invalidate: bool
    var removed: bool

    /** `removed` is only set by a process that removed, which needs `invalidate`. */
    predicate Valid()
      reads this
    {
      removed ==> invalidate
    }

    constructor WithInvalidate(invalidate: bool)
      ensures this.invalidate == invalidate && !removed && Valid()
    {
      this.invalidate := invalidate;
      removed := false;
    }

    /** The no-argument constructor the registry uses: both flags false. */
    constructor ()
      ensures !invalidate && !removed && Valid()
    {
      invalidate := false;
      removed := false;
    }

    function GetFactoryId(): Namespace {
      WebDsFactory
    }

    function GetId(): int {
      2
    }

    /**
     * FALSE on an empty entry, without touching it. Otherwise TRUE, after
     * setting the entry to null (and `removed`) when invalidating, or setting
     * the same record back when not.
     */
    method Process(entry: SessionEntry) returns (r: bool)
      modifies this, entry
      ensures r == (old(entry.value) != null)
      ensures entry.Current() == AfterDelete(old(entry.Current()), invalidate)
      ensures removed == RemovedAfter(old(entry.Current()), invalidate, old(removed))
      ensures invalidate == old(invalidate)
      ensures old(entry.value) == null ==> entry.value == null && entry.setValues == old(entry.setValues)
      ensures old(entry.value) != null && invalidate ==> entry.value == null && entry.setValues == old(entry.setValues) + [null]
      ensures old(entry.value) != null && !invalidate ==> entry.value == old(entry.value) && entry.setValues == old(entry.setValues) + [old(entry.value)]
      ensures old(Valid()) ==> Valid()
    {
      var state := entry.value;
      if state == null {
        return false;
      }
      if invalidate {
        entry.SetValue(null);
        removed := true;
      } else {
        entry.SetValue(state);
      }
      r := true;
    }

    /** This processor when a removal happened, null otherwise. */
    function GetBackupProcessor(): (b: DeleteSessionEntryProcessor?)
      reads this
      ensures b != null <==> removed
      ensures b != null ==> b == this
    {
      if removed then this else null
    }

    /** Nulls a present entry and leaves an empty one alone. */
    method ProcessBackup(entry: SessionEntry)
      modifies entry
      ensures entry.Current() == AfterBackup(old(entry.Current()))
      ensures old(entry.value) == null ==> entry.setValues == old(entry.setValues)
      ensures old(entry.value) != null ==> entry.setValues == old(entry.setValues) + [null]
    {
      var state := entry.value;
      if state != null {
        entry.SetValue(null);
      }
    }

    /** Only `invalidate` goes over the wire; `removed` stays behind. */
    method WriteData(out: ObjectDataOutput)
      modifies out
      ensures out.tokens == old(out.tokens) + [BoolToken(invalidate)]
    {
      out.WriteBoolean(invalidate);
    }

    method ReadData(input: ObjectDataInput) returns (error: Option<Error>)
      modifies this, input
      ensures BoolAt(input.tokens, old(input.pos)).Ok? ==>
        error == None && invalidate == BoolAt(input.tokens, old(input.pos)).value && input.pos == old(input.pos) + 1
      ensures BoolAt(input.tokens, old(input.pos)).Err? ==>
        error == Some(BoolAt(input.tokens, old(input.pos)).error) && invalidate == old(invalidate) && input.pos == old(input.pos)
      ensures removed == old(removed)
    {
      var b := input.ReadBoolean();
      if b.Err? {
        return Some(b.error);
      }
      invalidate := b.value;
      error := None;
    }
  }

  /**
   * What the map does with one DeleteSession: process on the primary's entry,
   * then, if getBackupProcessor answers non-null, processBackup on the
   * replica's copy. The replica ends with the primary's value.
   */
  method Replicate(p: DeleteSessionEntryProcessor, primary: SessionEntry, replica: SessionEntry) returns (r: bool)
    requires p.Valid()
    requires primary != replica
    requires primary.Current() == replica.Current()
    modifies p, primary, replica
    ensures replica.Current() == primary.Current()
  {
    r := p.Process(primary);
    var backup := p.GetBackupProcessor();
    if backup != null {
      backup.ProcessBackup(replica);
    }
  }
}
