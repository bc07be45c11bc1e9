/**
 * GetCTEntryProcessor: answers the record's creation time, setting the
 * record back unchanged. It has no backup processor and no payload.
 */
module GetCT {
  import opened Hazelcast
  import opened Kinds
  import opened Session
  import SpringSessionDataSerializerHook

  class GetCTEntryProcessor {

    constructor ()
    {
    }

    function GetFactoryId(): Namespace {
      SpringSessionDataSerializerHook.F_ID
    }

    function GetId(): int {
      SpringSessionDataSerializerHook.GET_CT
    }

    /** null on an empty entry, without a setValue; otherwise the record is set back and its creation time answered. */
    method Process(entry: SessionEntry) returns (r: Option<Instant>)
      modifies entry
      ensures entry.value == old(entry.value) && entry.Current() == old(entry.Current())
      ensures entry.value == null ==> r == None && entry.setValues == old(entry.setValues)
      ensures entry.value != null ==> r == entry.value.creationTime && entry.setValues == old(entry.setValues) + [entry.value]
    {
      var state := entry.value;
      if state == null {
        return None;
      }
      entry.SetValue(state);
      r := state.creationTime;
    }

    /** There is no backup processor. */
    function GetBackupProcessor(): object? {
      null
    }

    method WriteData(out: ObjectDataOutput)
      ensures out.tokens == old(out.tokens)
    {
    }

    method ReadData(input: ObjectDataInput) returns (error: Option<Error>)
      ensures error == None && input.pos == old(input.pos)
    {
      error := None;
    }
  }
}
