/**
 * GetAttributeNamesEntryProcessor: answers a copy of the record's attribute
 * names. It never sets the entry, has no backup processor and no payload.
 */
module GetAttributeNames {
  import opened Hazelcast
  import opened Kinds
  import opened Session
  import SpringSessionDataSerializerHook

  class GetAttributeNamesEntryProcessor {

    constructor ()
    {
    }

    function GetFactoryId(): Namespace {
      SpringSessionDataSerializerHook.F_ID
    }

    function GetId(): int {
      SpringSessionDataSerializerHook.GET_ATTRIBUTE_NAMES
    }

    /**
     * null on an empty entry; otherwise the set of names in the record at
     * call time. The answer is a value: later changes to the record do not
     * reach it.
     */
    method Process(entry: SessionEntry) returns (r: Option<set<string>>)
      ensures entry.value == null <==> r == None
      ensures entry.value != null ==> forall name :: name in r.value <==> name in entry.value.attributes
    {
      var state := entry.value;
      if state == null {
        return None;
      }
      r := Some(state.attributes.Keys);
    }

    /** There is no backup processor. */
    function GetBackupProcessor(): object? {
      null
    }

    method WriteData(out: ObjectDataOutput)
      ensures out.tokens == old(out.tokens)
    {
    }

    method ReadData(input: ObjectDataInput) returns (error: Option<Error>)
      ensures error == None && input.pos == old(input.pos)
    {
      error := None;
    }
  }
}
