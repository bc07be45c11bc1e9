/**
 * GetAttributeEntryProcessor: looks up one attribute, setting the stored
 * record back unchanged when there is one. It has no backup processor.
 */
module GetAttribute {
  import opened Hazelcast
  import opened Kinds
  import opened Session

  class GetAttributeEntryProcessor {
    var attributeName: Option<string>

    constructor WithName(attributeName: Option<string>)
      ensures this.attributeName == attributeName
    {
      this.attributeName := attributeName;
    }

    /** The no-argument constructor the registry uses: carries a null name. */
    constructor ()
      ensures attributeName == None
    {
      attributeName := None;
    }

    function GetFactoryId(): Namespace {
      WebDsFactory
    }

    function GetId(): int {
      3
    }

    /**
     * null on an empty entry, without a setValue. Otherwise the record is set
     * back and the answer is the value stored under the name, or null when
     * the name is missing (a name stored with null also answers null).
     */
    method Process(entry: SessionEntry) returns (r: Option<Data>)
      modifies entry
      ensures entry.value == old(entry.value)
      ensures entry.value == null ==> r == None && entry.setValues == old(entry.setValues)
      ensures entry.value != null ==> entry.setValues == old(entry.setValues) + [entry.value]
      ensures entry.value != null && attributeName.Some? && attributeName.value in entry.value.attributes ==>
        r == entry.value.attributes[attributeName.value]
      ensures entry.value != null && (attributeName.None? || attributeName.value !in entry.value.attributes) ==>
        r == None
    {
      var state := entry.value;
      if state == null {
        return None;
      }
      entry.SetValue(state);
      if attributeName.Some? && attributeName.value in state.attributes {
        r := state.attributes[attributeName.value];
      } else {
        r := None;
      }
    }

    /** There is no backup processor. */
    function GetBackupProcessor(): object? {
      null
    }

    method WriteData(out: ObjectDataOutput)
      modifies out
      ensures out.tokens == old(out.tokens) + [UtfToken(attributeName)]
    {
      out.WriteUTF(attributeName);
    }

    method ReadData(input: ObjectDataInput) returns (error: Option<Error>)
      modifies this, input
      ensures UtfAt(input.tokens, old(input.pos)).Ok? ==>
        error == None && attributeName == UtfAt(input.tokens, old(input.pos)).value && input.pos == old(input.pos) + 1
      ensures UtfAt(input.tokens, old(input.pos)).Err? ==>
        error == Some(UtfAt(input.tokens, old(input.pos)).error) && attributeName == old(attributeName) && input.pos == old(input.pos)
    {
      var s := input.ReadUTF();
      if s.Err? {
        return Some(s.error);
      }
      attributeName := s.value;
      error := None;
    }
  }
}
