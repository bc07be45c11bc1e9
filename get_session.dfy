/**
 * GetSessionEntryProcessor: answers the stored record itself, setting it back
 * unchanged. It has no backup processor and no payload.
 */
module GetSession {
  import opened Hazelcast
  import opened Kinds
  import opened Session
  import SpringSessionDataSerializerHook

  class GetSessionEntryProcessor {

    constructor ()
    {
    }

    function GetFactoryId(): Namespace {
      SpringSessionDataSerializerHook.F_ID
    }

    function GetId(): int {
      SpringSessionDataSerializerHook.GET_SESSION
    }

    /**
     * null on an empty entry, without a setValue; otherwise the stored record,
     * which is set back. Neither the entry nor the record changes, so two
     * calls in a row answer records with equal values.
     */
    method Process(entry: SessionEntry) returns (r: SessionState?)
      modifies entry
      ensures r == entry.value && entry.value == old(entry.value)
      ensures entry.Current() == old(entry.Current())
      ensures r == null ==> entry.setValues == old(entry.setValues)
      ensures r != null ==> entry.setValues == old(entry.setValues) + [r]
    {
      var state := entry.value;
      if state == null {
        return null;
      }
      entry.SetValue(state);
      r := state;
    }

    /** There is no backup processor. */
    function GetBackupProcessor(): object? {
      null
    }

    method WriteData(out: ObjectDataOutput)
      ensures out.tokens == old(out.tokens)
    {
    }

    method ReadData(input: ObjectDataInput) returns (error: Option<Error>)
      ensures error == None && input.pos == old(input.pos)
    {
      error := None;
    }
  }
}
