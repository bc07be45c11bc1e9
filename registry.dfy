/**
 * How Hazelcast rebuilds an object from the wire: the factory id picks the
 * hook, the type id picks the case of its switch. Every class of the core
 * reports a (factory id, type id) pair that leads back to its own kind.
 */
module Registry {
  import opened Hazelcast
  import opened Kinds
  import SpringSessionDataSerializerHook
  import WebDataSerializerHook
  import LegacySpringSessionDataSerializerHook
  import Session
  import UpdateAttribute
  import DeleteSession
  import GetAttribute
  import GetAttributeNames
  import GetSession
  import GetLAT
  import SetLAT
  import GetCT
  import SetCT
  import DoesSessionExist
  import LegacySession
  import LegacySessionUpdate

  /** The hook registered under `ns`, asked to create `typeId`. */
  function Resolve(ns: Namespace, typeId: int): Option<Kind> {
    match ns
    case WebDsFactory => WebDataSerializerHook.Create(typeId)
    case SpringSessionFactory => SpringSessionDataSerializerHook.Create(typeId)
    case LegacySpringSessionFactory => LegacySpringSessionDataSerializerHook.Create(typeId)
  }

  /** Each hook answers for the namespace it reports through getFactoryId. */
  lemma HooksReportTheirNamespaces()
    ensures WebDataSerializerHook.GetFactoryId() == WebDsFactory
    ensures SpringSessionDataSerializerHook.GetFactoryId() == SpringSessionFactory
    ensures LegacySpringSessionDataSerializerHook.GetFactoryId() == LegacySpringSessionFactory
  {
  }

  /**
   * Serializing an instance and rebuilding it from the ids it reports gives
   * an instance of the same class, for every class the hooks can build that
   * is part of this model.
   */
  lemma ReportedIdsResolve(
    state: Session.SessionState,
    update: UpdateAttribute.UpdateAttributeEntryProcessor,
    delete: DeleteSession.DeleteSessionEntryProcessor,
    getAttribute: GetAttribute.GetAttributeEntryProcessor,
    getNames: GetAttributeNames.GetAttributeNamesEntryProcessor,
    getSession: GetSession.GetSessionEntryProcessor,
    getLat: GetLAT.GetLATEntryProcessor,
    setLat: SetLAT.SetLATEntryProcessor,
    getCt: GetCT.GetCTEntryProcessor,
    setCt: SetCT.SetCTEntryProcessor,
    doesExist: DoesSessionExist.DoesSessionExistEntryProcessor,
    legacyState: LegacySession.SessionState,
    legacyUpdate: LegacySessionUpdate.SessionUpdateEntryProcessor)
    ensures Resolve(state.GetFactoryId(), state.GetId()) == Some(SessionStateRecord)
    ensures Resolve(update.GetFactoryId(), update.GetId()) == Some(UpdateAttribute)
    ensures Resolve(delete.GetFactoryId(), delete.GetId()) == Some(DeleteSession)
    ensures Resolve(getAttribute.GetFactoryId(), getAttribute.GetId()) == Some(GetAttribute)
    ensures Resolve(getNames.GetFactoryId(), getNames.GetId()) == Some(GetAttributeNames)
    ensures Resolve(getSession.GetFactoryId(), getSession.GetId()) == Some(GetSession)
    ensures Resolve(getLat.GetFactoryId(), getLat.GetId()) == Some(GetLastAccessedTime)
    ensures Resolve(setLat.GetFactoryId(), setLat.GetId()) == Some(SetLastAccessedTime)
    ensures Resolve(getCt.GetFactoryId(), getCt.GetId()) == Some(GetCreationTime)
    ensures Resolve(setCt.GetFactoryId(), setCt.GetId()) == Some(SetCreationTime)
    ensures Resolve(doesExist.GetFactoryId(), doesExist.GetId()) == Some(DoesSessionExist)
    ensures Resolve(legacyState.GetFactoryId(), legacyState.GetId()) == Some(LegacySessionState)
    ensures Resolve(legacyUpdate.GetFactoryId(), legacyUpdate.GetId()) == Some(LegacySessionUpdate)
  {
  }

  /**
   * The ids the web hook declares for GetAttributeNames and GetSession
   * rebuild nothing there; the classes themselves report the other hook's
   * namespace and ids, under which they do resolve.
   */
  lemma DisabledWebIds(getNames: GetAttributeNames.GetAttributeNamesEntryProcessor, getSession: GetSession.GetSessionEntryProcessor)
    ensures Resolve(WebDsFactory, WebDataSerializerHook.GET_ATTRIBUTE_NAMES) == None
    ensures Resolve(WebDsFactory, WebDataSerializerHook.GET_SESSION_STATE) == None
    ensures getNames.GetFactoryId() != WebDsFactory && getSession.GetFactoryId() != WebDsFactory
  {
  }

  /**
   * If the web hook and the entryprocessor Spring hook end up with the same
   * factory id (both default to the same offset), nothing is rebuilt
   * wrongly: every id the web hook builds names the same kind in the Spring
   * hook's switch.
   */
  lemma WebIdsAgreeWithSpring(typeId: int)
    ensures WebDataSerializerHook.Create(typeId).Some? ==>
      SpringSessionDataSerializerHook.Create(typeId) == WebDataSerializerHook.Create(typeId)
  {
  }

  /**
   * The two Spring hooks read the same property, so whenever it is set they
   * share a factory id. This lemma only illustrates why that clash matters:
   * since the older package's classes have kind tags of their own, it holds
   * by construction, and says that each id of the older hook names a
   * different class in the newer hook's switch.
   */
  lemma LegacyIdsDisagreeWithSpring(typeId: int)
    ensures LegacySpringSessionDataSerializerHook.Create(typeId).Some? ==>
      SpringSessionDataSerializerHook.Create(typeId) != LegacySpringSessionDataSerializerHook.Create(typeId)
  {
  }
}
