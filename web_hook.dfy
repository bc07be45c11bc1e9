/**
 * WebDataSerializerHook: the WEB_DS_FACTORY namespace of package
 * entryprocessor. It declares six type ids but its switch builds only four
 * classes: the cases for GET_ATTRIBUTE_NAMES and GET_SESSION_STATE are
 * commented out, so those ids produce null.
 */
module WebDataSerializerHook {
  import opened Hazelcast
  import opened Kinds

  const F_ID := WebDsFactory

  const SESSION_UPDATE := 1
  const SESSION_DELETE := 2
  const GET_ATTRIBUTE := 3
  const GET_ATTRIBUTE_NAMES := 4
  const GET_SESSION_STATE := 5
  const SESSION_STATE := 6

  function GetFactoryId(): Namespace {
    F_ID
  }

  /** The type id under which this hook's switch builds `k`, if it builds it at all. */
  function CaseOf(k: Kind): Option<int> {
    match k
    case UpdateAttribute => Some(SESSION_UPDATE)
    case DeleteSession => Some(SESSION_DELETE)
    case GetAttribute => Some(GET_ATTRIBUTE)
    case SessionStateRecord => Some(SESSION_STATE)
    case _ => None
  }

  /** `createFactory().create(typeId)`: the kind of the fresh instance, or None (null). */
  function Create(typeId: int): (r: Option<Kind>)
    ensures r.Some? <==> typeId in {SESSION_UPDATE, SESSION_DELETE, GET_ATTRIBUTE, SESSION_STATE}
    ensures r.Some? ==> CaseOf(r.value) == Some(typeId)
    ensures typeId == GET_ATTRIBUTE_NAMES || typeId == GET_SESSION_STATE ==> r == None
  {
    if typeId == SESSION_UPDATE then Some(UpdateAttribute)
    else if typeId == SESSION_DELETE then Some(DeleteSession)
    else if typeId == GET_ATTRIBUTE then Some(GetAttribute)
    else if typeId == SESSION_STATE then Some(SessionStateRecord)
    else None
  }

  /** Two kinds this hook builds under the same type id are the same kind. */
  lemma TypeIdsDistinct(k1: Kind, k2: Kind)
    requires CaseOf(k1).Some? && CaseOf(k1) == CaseOf(k2)
    ensures k1 == k2
  {
  }

  /** Every kind this hook lists is built back from its own type id, and only from it. */
  lemma CreateInvertsCaseOf(k: Kind, typeId: int)
    ensures Create(typeId) == Some(k) <==> CaseOf(k) == Some(typeId)
  {
  }
}
