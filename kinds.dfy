/**
 * The serializable classes a data-serializer hook can construct, named by
 * kind, and the factory namespaces they report through getFactoryId().
 */
module Kinds {

  /** One tag per IdentifiedDataSerializable class a hook can instantiate. */
  datatype Kind =
      // package entryprocessor
    | UpdateAttribute
    | DeleteSession
    | GetAttribute
    | GetAttributeNames
    | GetSession
    | SessionStateRecord
    | GetLastAccessedTime
    | SetLastAccessedTime
    | GetCreationTime
    | SetCreationTime
    | SetSession               // SetSessionEntryProcessor is not part of this model
    | DoesSessionExist
      // package ep (the older design)
    | LegacySessionUpdate
    | LegacySessionState
    | LegacyGetSession         // ep.GetSessionEntryProcessor is not part of this model

  /**
   * A factory id. The numbers come from FactoryIdHelper, which reads system
   * properties; here each namespace is an abstract constant of its own.
   */
  datatype Namespace =
    | WebDsFactory                 // FactoryIdHelper.WEB_DS_FACTORY
    | SpringSessionFactory         // entryprocessor.SpringSessionDataSerializerHook.F_ID
    | LegacySpringSessionFactory   // ep.SpringSessionDataSerializerHook.F_ID
}
