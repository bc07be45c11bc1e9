/**
 * SpringSessionDataSerializerHook of package entryprocessor: the type ids of
 * the fine-grained entry processors and the record, and the stateless
 * factory that turns a type id back into an empty instance of the right class.
 */
module SpringSessionDataSerializerHook {
  import opened Hazelcast
  import opened Kinds

  const F_ID := SpringSessionFactory

  const SESSION_UPDATE := 1
  const SESSION_DELETE := 2
  const GET_ATTRIBUTE := 3
  const GET_ATTRIBUTE_NAMES := 4
  const GET_SESSION := 5
  const SESSION_STATE := 6
  const GET_LAT := 7
  const SET_LAT := 8
  const GET_CT := 9
  const SET_CT := 10
  const SET_SESSION := 11
  const DOES_SESSION_EXIST := 12

  function GetFactoryId(): Namespace {
    F_ID
  }

  /** The type id under which this hook's switch builds `k`, if it builds it at all. */
  function CaseOf(k: Kind): Option<int> {
    match k
    case UpdateAttribute => Some(SESSION_UPDATE)
    case DeleteSession => Some(SESSION_DELETE)
    case GetAttribute => Some(GET_ATTRIBUTE)
    case GetAttributeNames => Some(GET_ATTRIBUTE_NAMES)
    case GetSession => Some(GET_SESSION)
    case SessionStateRecord => Some(SESSION_STATE)
    case GetLastAccessedTime => Some(GET_LAT)
    case SetLastAccessedTime => Some(SET_LAT)
    case GetCreationTime => Some(GET_CT)
    case SetCreationTime => Some(SET_CT)
    case SetSession => Some(SET_SESSION)
    case DoesSessionExist => Some(DOES_SESSION_EXIST)
    case _ => None
  }

  /**
   * `createFactory().create(typeId)`: the kind of the fresh instance, or None
   * (null) for an id the switch does not list.
   */
  function Create(typeId: int): (r: Option<Kind>)
    ensures r.Some? <==> SESSION_UPDATE <= typeId <= DOES_SESSION_EXIST
    ensures r.Some? ==> CaseOf(r.value) == Some(typeId)
  {
    if typeId == SESSION_UPDATE then Some(UpdateAttribute)
    else if typeId == SESSION_DELETE then Some(DeleteSession)
    else if typeId == GET_ATTRIBUTE then Some(GetAttribute)
    else if typeId == GET_ATTRIBUTE_NAMES then Some(GetAttributeNames)
    else if typeId == GET_SESSION then Some(GetSession)
    else if typeId == SESSION_STATE then Some(SessionStateRecord)
    else if typeId == GET_LAT then Some(GetLastAccessedTime)
    else if typeId == SET_LAT then Some(SetLastAccessedTime)
    else if typeId == GET_CT then Some(GetCreationTime)
    else if typeId == SET_CT then Some(SetCreationTime)
    else if typeId == SET_SESSION then Some(SetSession)
    else if typeId == DOES_SESSION_EXIST then Some(DoesSessionExist)
    else None
  }

  /** The twelve type ids are pairwise distinct, so the switch is one-to-one on kinds. */
  lemma TypeIdsDistinct(k1: Kind, k2: Kind)
    requires CaseOf(k1).Some? && CaseOf(k1) == CaseOf(k2)
    ensures k1 == k2
  {
  }

  /** Every kind this hook lists is built back from its own type id, and only from it. */
  lemma CreateInvertsCaseOf(k: Kind, typeId: int)
    ensures Create(typeId) == Some(k) <==> CaseOf(k) == Some(typeId)
  {
  }
}
