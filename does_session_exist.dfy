/**
 * DoesSessionExistEntryProcessor: answers whether the entry holds a record.
 * It never sets the entry, has no backup processor and no payload.
 */
module DoesSessionExist {
  import opened Hazelcast
  import opened Kinds
  import opened Session
  import SpringSessionDataSerializerHook

  class DoesSessionExistEntryProcessor {

    constructor ()
    {
    }

    function GetFactoryId(): Namespace {
      SpringSessionDataSerializerHook.F_ID
    }

    function GetId(): int {
      SpringSessionDataSerializerHook.DOES_SESSION_EXIST
    }

    /** TRUE exactly when the entry holds a record. */
    method Process(entry: SessionEntry) returns (r: bool)
      ensures r <==> entry.Current().Some?
    {
      r := entry.value != null;
    }

    /** There is no backup processor. */
    function GetBackupProcessor(): object? {
      null
    }

    method WriteData(out: ObjectDataOutput)
      ensures out.tokens == old(out.tokens)
    {
    }

    method ReadData(input: ObjectDataInput) returns (error: Option<Error>)
      ensures error == None && input.pos == old(input.pos)
    {
      error := None;
    }
  }
}
