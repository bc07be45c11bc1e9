/**
 * SpringSessionDataSerializerHook of the older package ep: three type ids.
 */
module LegacySpringSessionDataSerializerHook {
  import opened Hazelcast
  import opened Kinds

  const F_ID := LegacySpringSessionFactory

  const SESSION_UPDATE_EP := 1
  const SESSION_STATE := 2
  const GET_SESSION_STATE := 3

  function GetFactoryId(): Namespace {
    F_ID
  }

  /** The type id under which this hook's switch builds `k`, if it builds it at all. */
  function CaseOf(k: Kind): Option<int> {
    match k
    case LegacySessionUpdate => Some(SESSION_UPDATE_EP)
    case LegacySessionState => Some(SESSION_STATE)
    case LegacyGetSession => Some(GET_SESSION_STATE)
    case _ => None
  }

  /** `createFactory().create(typeId)`: the kind of the fresh instance, or None (null). */
  function Create(typeId: int): (r: Option<Kind>)
    ensures r.Some? <==> SESSION_UPDATE_EP <= typeId <= GET_SESSION_STATE
    ensures r.Some? ==> CaseOf(r.value) == Some(typeId)
  {
    if typeId == SESSION_UPDATE_EP then Some(LegacySessionUpdate)
    else if typeId == SESSION_STATE then Some(LegacySessionState)
    else if typeId == GET_SESSION_STATE then Some(LegacyGetSession)
    else None
  }

  /** The three type ids are pairwise distinct, so the switch is one-to-one on kinds. */
  lemma TypeIdsDistinct(k1: Kind, k2: Kind)
    requires CaseOf(k1).Some? && CaseOf(k1) == CaseOf(k2)
    ensures k1 == k2
  {
  }

  /** Every kind this hook lists is built back from its own type id, and only from it. */
  lemma CreateInvertsCaseOf(k: Kind, typeId: int)
    ensures Create(typeId) == Some(k) <==> CaseOf(k) == Some(typeId)
  {
  }
}
