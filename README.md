# Hazelcast session entry processors, in Dafny

A model of the part of spring-session-hazelcast that runs inside the
Hazelcast cluster. A session is one entry of a distributed map. Its value is
a `SessionState` record, and the entry is read and changed by small entry
processors that Hazelcast ships to the entry's owner and, for some of them,
replays on the backup copy. The model covers:

- the record of package `entryprocessor`: the attribute map (name to
  serialized `Data`, values may be null), the creation and last-accessed
  timestamps its callers use, and its count-prefixed wire form;
- ten processors of that package: UpdateAttribute,
  DeleteSession, GetAttribute, GetAttributeNames, GetSession, GetLAT, SetLAT,
  GetCT, SetCT and DoesSessionExist, each with `process`, its backup rule and
  its wire form;
- the older package `ep`: its `SessionState` and its merge processor
  `SessionUpdateEntryProcessor`;
- the three `DataSerializerHook` registries that turn a type id back into an
  instance, and how the ids each class reports resolve through them.

## Layout

| file | module | what |
|---|---|---|
| hazelcast.dfy | Hazelcast | nullable values (`Option`), Java `int`, `Data`, `Instant`, and the ObjectDataOutput / ObjectDataInput streams as sequences of tokens |
| kinds.dfy | Kinds | one tag per class a hook can build, and the three factory namespaces |
| attribute_map.dfy | AttributeMap | the merge of carried updates, the count-prefixed wire form, its reading specification, the round-trip lemmas, and the write and read loops |
| session_state.dfy | Session | the record class, the entry class with its `setValue` log |
| spring_session_hook.dfy, web_hook.dfy, legacy_hook.dfy | one per hook | type-id constants, `Create` and the lemmas about it |
| update_attribute.dfy, delete_session.dfy, set_lat.dfy, set_ct.dfy, get_*.dfy, does_session_exist.dfy | one per processor | the processor class and the function that specifies its effect |
| legacy_session_state.dfy, legacy_session_update.dfy | LegacySession, LegacySessionUpdate | the `ep` package |
| registry.dfy | Registry | dispatch by namespace, and the reported ids resolving to their own classes |
| round_trips.dfy | RoundTrips | writeData followed by readData into a default-constructed instance, for every class with a payload |

How it is modelled:

- Records and processors are classes whose methods change fields in place.
  A map entry is a `SessionEntry` object whose `value` is a record object or
  null, with a ghost log of every `setValue` call. Every writing `Process` is
  proved against a function of the entry's prior value (`Updated`,
  `AfterDelete`, `WithLastAccessed`, `WithCreation`, `Merged`); the read-only
  ones state their answer and that the entry's value is unchanged directly.
  Each also states which object the entry holds afterwards (the same record
  or a fresh one) and what was appended to the log.
- A stream is a sequence of tokens, one per `writeInt` / `writeUTF` /
  `writeData` / `writeBoolean` / `writeObject`. A read of the wrong kind or
  past the end is an error value instead of an exception.
- A Java `HashMap` is iterated in no fixed order. So `WriteAttributes` picks
  each next key nondeterministically and returns (as a ghost) the order it
  used. Every round trip is stated for any such order, as map equality.
- Factory ids are abstract namespaces, one per (property, default) pair passed to
  `FactoryIdHelper.getFactoryId`: `WebDsFactory`, `SpringSessionFactory`,
  `LegacySpringSessionFactory`.

## Model

| member | source | states |
|---|---|---|
| AttributeMap.ApplyUpdates | spring-session-hazelcast/src/main/java/org/springframework/session/hazelcast/entryprocessor/UpdateAttributeEntryProcessor.java:57-65 | a carried non-null value is put, a carried null removes the name, names not carried keep their value; nothing else is in the result |
| AttributeMap.ApplyUpdatesStep | spring-session-hazelcast/src/main/java/org/springframework/session/hazelcast/entryprocessor/UpdateAttributeEntryProcessor.java:57-65 | one more iteration of the merge loop (remove on null, put otherwise) extends the merge by exactly that carried entry, whatever the visiting order |
| AttributeMap.ApplyUpdatesIdempotent | spring-session-hazelcast/src/main/java/org/springframework/session/hazelcast/entryprocessor/UpdateAttributeEntryProcessor.java:52-68 | merging the same carried map a second time changes nothing |
| AttributeMap.PairsWireLength | spring-session-hazelcast/src/main/java/org/springframework/session/hazelcast/entryprocessor/SessionState.java:38-43 | the pairs part of the stream holds exactly two items per written key |
| AttributeMap.PairsRoundTrip | spring-session-hazelcast/src/main/java/org/springframework/session/hazelcast/entryprocessor/SessionState.java:47-50 | reading back the pairs written for a key order puts exactly those entries into the map being read into and consumes exactly those items |
| AttributeMap.AttributesRoundTrip | spring-session-hazelcast/src/main/java/org/springframework/session/hazelcast/entryprocessor/SessionState.java:36-51 | for every key order the writer may use, reading the count-prefixed stream into a map yields that map overwritten by every written entry, with no error, stopping right after the written items |
| AttributeMap.WriteAttributes | spring-session-hazelcast/src/main/java/org/springframework/session/hazelcast/entryprocessor/SessionState.java:37-43 | appends the size as an int, then one (name, value) pair per entry, in some enumeration of the keys that lists each key exactly once; the stream grows by exactly 1 + 2·size items |
| AttributeMap.ReadPairsFrom | spring-session-hazelcast/src/main/java/org/springframework/session/hazelcast/entryprocessor/SessionState.java:46-51 | the `count` put iterations leave the map and stream position that the reading specification gives, including the partial map and position after a failed read |
| Session.SessionState.constructor | spring-session-hazelcast/src/main/java/org/springframework/session/hazelcast/entryprocessor/SessionState.java:16 | a new record has an empty attribute map (and unset timestamps) |
| Session.SessionState.SetAttribute | spring-session-hazelcast/src/main/java/org/springframework/session/hazelcast/entryprocessor/SessionState.java:32-34 | maps the key to the value, a null value being stored rather than removed; every other key and both timestamps are unchanged |
| Session.SessionState.Set | spring-session-hazelcast/src/main/java/org/springframework/session/hazelcast/entryprocessor/SessionState.java:53-55 | putAll: every key of the argument takes its value, other keys keep theirs, timestamps unchanged |
| Session.SessionState.SetLastAccessedTime | spring-session-hazelcast/src/main/java/org/springframework/session/hazelcast/entryprocessor/SetLATEntryProcessor.java:45 | only the last-accessed time changes, to the given instant or null |
| Session.SessionState.SetCreationTime | spring-session-hazelcast/src/main/java/org/springframework/session/hazelcast/entryprocessor/SetCTEntryProcessor.java:45 | only the creation time changes, to the given instant or null |
| Session.SessionState.WriteData | spring-session-hazelcast/src/main/java/org/springframework/session/hazelcast/entryprocessor/SessionState.java:36-43 | appends the attribute count and one (name, value) pair per attribute, for some enumeration of the keys; timestamps are not written |
| Session.SessionState.ReadData | spring-session-hazelcast/src/main/java/org/springframework/session/hazelcast/entryprocessor/SessionState.java:45-51 | puts the read pairs into the existing map (never cleared), ending as the reading specification says, timestamps unchanged |
| Session.SessionEntry.SetValue | spring-session-hazelcast/src/main/java/org/springframework/session/hazelcast/entryprocessor/UpdateAttributeEntryProcessor.java:66 | the entry now holds the given record (or null) and the call is appended to the entry's setValue log |
| Session.FreshRecordRoundTrip | spring-session-hazelcast/src/main/java/org/springframework/session/hazelcast/entryprocessor/SessionState.java:38-51 | readData into a fresh record, applied to what writeData wrote for a map, reproduces that map whatever key order was used |
| Session.ReadDataMerges | spring-session-hazelcast/src/main/java/org/springframework/session/hazelcast/entryprocessor/SessionState.java:45-51 | readData into a non-empty record merges: written keys take the written values, keys not in the stream survive, and the key set is the union |
| SpringSessionDataSerializerHook.Create | spring-session-hazelcast/src/main/java/org/springframework/session/hazelcast/entryprocessor/SpringSessionDataSerializerHook.java:57-99 | a deterministic function of the type id: a kind for exactly the ids 1 to 12, the kind whose case lists that id, and null for every other id |
| SpringSessionDataSerializerHook.TypeIdsDistinct | spring-session-hazelcast/src/main/java/org/springframework/session/hazelcast/entryprocessor/SpringSessionDataSerializerHook.java:18-45 | two kinds with the same type id are the same kind: the twelve ids are pairwise distinct |
| SpringSessionDataSerializerHook.CreateInvertsCaseOf | spring-session-hazelcast/src/main/java/org/springframework/session/hazelcast/entryprocessor/SpringSessionDataSerializerHook.java:59-95 | create(id) builds kind k exactly when k's case is id |
| WebDataSerializerHook.Create | spring-session-hazelcast/src/main/java/org/springframework/session/hazelcast/entryprocessor/WebDataSerializerHook.java:50-74 | a kind for exactly the ids 1, 2, 3 and 6; ids 4 and 5, though declared, and every other id give null |
| WebDataSerializerHook.TypeIdsDistinct | spring-session-hazelcast/src/main/java/org/springframework/session/hazelcast/entryprocessor/WebDataSerializerHook.java:18-38 | two kinds the hook builds under the same type id are the same kind: the ids of its four cases are pairwise distinct |
| WebDataSerializerHook.CreateInvertsCaseOf | spring-session-hazelcast/src/main/java/org/springframework/session/hazelcast/entryprocessor/WebDataSerializerHook.java:52-70 | create(id) builds kind k exactly when k is UpdateAttribute, DeleteSession, GetAttribute or SessionState and id is its case |
| LegacySpringSessionDataSerializerHook.Create | spring-session-hazelcast/src/main/java/org/springframework/session/hazelcast/ep/SpringSessionDataSerializerHook.java:32-47 | a kind for exactly the ids 1 to 3, the kind whose case lists that id, null otherwise |
| LegacySpringSessionDataSerializerHook.TypeIdsDistinct | spring-session-hazelcast/src/main/java/org/springframework/session/hazelcast/ep/SpringSessionDataSerializerHook.java:18-20 | two kinds with the same type id are the same kind: the three ids are pairwise distinct |
| LegacySpringSessionDataSerializerHook.CreateInvertsCaseOf | spring-session-hazelcast/src/main/java/org/springframework/session/hazelcast/ep/SpringSessionDataSerializerHook.java:34-43 | create(id) builds SessionUpdate, SessionState or GetSession exactly for ids 1, 2, 3 respectively |
| Registry.HooksReportTheirNamespaces | spring-session-hazelcast/src/main/java/org/springframework/session/hazelcast/entryprocessor/SpringSessionDataSerializerHook.java:102-105 | each hook's getFactoryId is its own namespace constant |
| Registry.ReportedIdsResolve | spring-session-hazelcast/src/main/java/org/springframework/session/hazelcast/entryprocessor/SpringSessionDataSerializerHook.java:57-105 | every class of both packages reports a factory id and type id under which its hook rebuilds that same class |
| Registry.DisabledWebIds | spring-session-hazelcast/src/main/java/org/springframework/session/hazelcast/entryprocessor/WebDataSerializerHook.java:62-67 | the web hook rebuilds nothing for ids 4 and 5, and the two classes those ids name report the other namespace |
| Registry.WebIdsAgreeWithSpring | spring-session-hazelcast/src/main/java/org/springframework/session/hazelcast/entryprocessor/WebDataSerializerHook.java:50-74 | every id the web hook builds names the same kind in the entryprocessor Spring hook, so sharing their default factory id rebuilds no id as a different kind (ids the web hook does not build stay unbuilt under it) |
| Registry.LegacyIdsDisagreeWithSpring | spring-session-hazelcast/src/main/java/org/springframework/session/hazelcast/ep/SpringSessionDataSerializerHook.java:13 | every id the older Spring hook builds names a different kind in the newer one, so the two cannot share the factory id their common property gives them |
| UpdateAttribute.UpdatedSemantics | spring-session-hazelcast/src/main/java/org/springframework/session/hazelcast/entryprocessor/UpdateAttributeEntryProcessor.java:53-65 | on an absent entry the result is a fresh record holding only the carried non-null values; carried nulls are absent afterwards; a present record keeps its timestamps |
| UpdateAttribute.UpdatedIdempotent | spring-session-hazelcast/src/main/java/org/springframework/session/hazelcast/entryprocessor/UpdateAttributeEntryProcessor.java:52-68 | applying the processor twice leaves the same record as applying it once |
| UpdateAttribute.CarriedRoundTrip | spring-session-hazelcast/src/main/java/org/springframework/session/hazelcast/entryprocessor/UpdateAttributeEntryProcessor.java:76-91 | readData of what writeData wrote rebuilds an equal carried map, whatever key order was used |
| UpdateAttribute.UpdateAttributeEntryProcessor.WithCapacity | spring-session-hazelcast/src/main/java/org/springframework/session/hazelcast/entryprocessor/UpdateAttributeEntryProcessor.java:24-26 | carries an empty map |
| UpdateAttribute.UpdateAttributeEntryProcessor.Single | spring-session-hazelcast/src/main/java/org/springframework/session/hazelcast/entryprocessor/UpdateAttributeEntryProcessor.java:28-31 | carries exactly the one-entry map {key: value} |
| UpdateAttribute.UpdateAttributeEntryProcessor.constructor | spring-session-hazelcast/src/main/java/org/springframework/session/hazelcast/entryprocessor/UpdateAttributeEntryProcessor.java:33-35 | carries an empty map |
| UpdateAttribute.UpdateAttributeEntryProcessor.Process | spring-session-hazelcast/src/main/java/org/springframework/session/hazelcast/entryprocessor/UpdateAttributeEntryProcessor.java:52-68 | answers TRUE; the entry then holds the prior record (or a fresh one) with the carried updates merged in, the same object when there was one, and setValue was called once with it |
| UpdateAttribute.UpdateAttributeEntryProcessor.GetBackupProcessor | spring-session-hazelcast/src/main/java/org/springframework/session/hazelcast/entryprocessor/UpdateAttributeEntryProcessor.java:70-73 | the backup processor is the processor itself |
| UpdateAttribute.UpdateAttributeEntryProcessor.ProcessBackup | spring-session-hazelcast/src/main/java/org/springframework/session/hazelcast/entryprocessor/UpdateAttributeEntryProcessor.java:93-96 | leaves the entry exactly as process does from the same prior value |
| UpdateAttribute.UpdateAttributeEntryProcessor.WriteData | spring-session-hazelcast/src/main/java/org/springframework/session/hazelcast/entryprocessor/UpdateAttributeEntryProcessor.java:76-82 | appends the carried map's size and one (name, value) pair per entry, for some key enumeration |
| UpdateAttribute.UpdateAttributeEntryProcessor.ReadData | spring-session-hazelcast/src/main/java/org/springframework/session/hazelcast/entryprocessor/UpdateAttributeEntryProcessor.java:84-91 | replaces the carried map by a new one filled from the stream; a negative count fails as the capacity check does |
| UpdateAttribute.Replicate | spring-session-hazelcast/src/main/java/org/springframework/session/hazelcast/entryprocessor/UpdateAttributeEntryProcessor.java:93-96 | process on a primary, then processBackup through getBackupProcessor on a replica with the same prior value, leaves both entries equal |
| DeleteSession.BackupMatchesPrimary | spring-session-hazelcast/src/main/java/org/springframework/session/hazelcast/entryprocessor/DeleteSessionEntryProcessor.java:56-77 | whether or not a backup is dispatched, the replica ends with the value the primary ends with |
| DeleteSession.DeleteSessionEntryProcessor.WithInvalidate | spring-session-hazelcast/src/main/java/org/springframework/session/hazelcast/entryprocessor/DeleteSessionEntryProcessor.java:23-25 | carries the given flag, not yet removed |
| DeleteSession.DeleteSessionEntryProcessor.constructor | spring-session-hazelcast/src/main/java/org/springframework/session/hazelcast/entryprocessor/DeleteSessionEntryProcessor.java:27-28 | invalidate and removed are both false |
| DeleteSession.DeleteSessionEntryProcessor.Process | spring-session-hazelcast/src/main/java/org/springframework/session/hazelcast/entryprocessor/DeleteSessionEntryProcessor.java:40-54 | FALSE and no setValue on an absent entry; otherwise TRUE, and with invalidate the entry is set to null and removed becomes true, without it the same record is set back; removed never resets |
| DeleteSession.DeleteSessionEntryProcessor.GetBackupProcessor | spring-session-hazelcast/src/main/java/org/springframework/session/hazelcast/entryprocessor/DeleteSessionEntryProcessor.java:56-59 | the processor itself exactly when removed is set, null otherwise |
| DeleteSession.DeleteSessionEntryProcessor.ProcessBackup | spring-session-hazelcast/src/main/java/org/springframework/session/hazelcast/entryprocessor/DeleteSessionEntryProcessor.java:71-77 | a present entry is set to null, an absent one is left alone without a setValue |
| DeleteSession.DeleteSessionEntryProcessor.WriteData | spring-session-hazelcast/src/main/java/org/springframework/session/hazelcast/entryprocessor/DeleteSessionEntryProcessor.java:61-64 | writes invalidate as one boolean and nothing else |
| DeleteSession.DeleteSessionEntryProcessor.ReadData | spring-session-hazelcast/src/main/java/org/springframework/session/hazelcast/entryprocessor/DeleteSessionEntryProcessor.java:66-69 | reads invalidate; removed is left as it was |
| DeleteSession.Replicate | spring-session-hazelcast/src/main/java/org/springframework/session/hazelcast/entryprocessor/DeleteSessionEntryProcessor.java:56-59 | process on a primary, then processBackup only if getBackupProcessor answers non-null, leaves the replica equal to the primary |
| SetLAT.WithLastAccessed | spring-session-hazelcast/src/main/java/org/springframework/session/hazelcast/entryprocessor/SetLATEntryProcessor.java:40-48 | the result's last-accessed time is the carried instant; attributes and creation time are the prior record's, or empty and unset for an absent entry |
| SetLAT.WithLastAccessedIdempotent | spring-session-hazelcast/src/main/java/org/springframework/session/hazelcast/entryprocessor/SetLATEntryProcessor.java:40-48 | applying it twice leaves the same record as applying it once |
| SetLAT.SetLATEntryProcessor.constructor | spring-session-hazelcast/src/main/java/org/springframework/session/hazelcast/entryprocessor/SetLATEntryProcessor.java:20-22 | carries null |
| SetLAT.SetLATEntryProcessor.WithTime | spring-session-hazelcast/src/main/java/org/springframework/session/hazelcast/entryprocessor/SetLATEntryProcessor.java:24-26 | carries the given instant |
| SetLAT.SetLATEntryProcessor.Process | spring-session-hazelcast/src/main/java/org/springframework/session/hazelcast/entryprocessor/SetLATEntryProcessor.java:39-48 | answers TRUE; the entry holds the prior (or a fresh) record with the carried last-accessed time, set back once |
| SetLAT.SetLATEntryProcessor.GetBackupProcessor | spring-session-hazelcast/src/main/java/org/springframework/session/hazelcast/entryprocessor/SetLATEntryProcessor.java:50-53 | the backup processor is the processor itself |
| SetLAT.SetLATEntryProcessor.ProcessBackup | spring-session-hazelcast/src/main/java/org/springframework/session/hazelcast/entryprocessor/SetLATEntryProcessor.java:65-68 | leaves the entry exactly as process does |
| SetLAT.SetLATEntryProcessor.WriteData | spring-session-hazelcast/src/main/java/org/springframework/session/hazelcast/entryprocessor/SetLATEntryProcessor.java:60-63 | writes the carried instant (or null) as one object |
| SetLAT.SetLATEntryProcessor.ReadData | spring-session-hazelcast/src/main/java/org/springframework/session/hazelcast/entryprocessor/SetLATEntryProcessor.java:55-58 | reads the carried instant back |
| SetLAT.Replicate | spring-session-hazelcast/src/main/java/org/springframework/session/hazelcast/entryprocessor/SetLATEntryProcessor.java:65-68 | primary process then replica processBackup leaves both entries equal |
| SetCT.WithCreation | spring-session-hazelcast/src/main/java/org/springframework/session/hazelcast/entryprocessor/SetCTEntryProcessor.java:40-48 | the result's creation time is the carried instant; attributes and last-accessed time are the prior record's, or empty and unset for an absent entry |
| SetCT.WithCreationIdempotent | spring-session-hazelcast/src/main/java/org/springframework/session/hazelcast/entryprocessor/SetCTEntryProcessor.java:40-48 | applying it twice leaves the same record as applying it once |
| SetCT.SetCTEntryProcessor.constructor | spring-session-hazelcast/src/main/java/org/springframework/session/hazelcast/entryprocessor/SetCTEntryProcessor.java:20-22 | carries null |
| SetCT.SetCTEntryProcessor.WithTime | spring-session-hazelcast/src/main/java/org/springframework/session/hazelcast/entryprocessor/SetCTEntryProcessor.java:24-26 | carries the given instant |
| SetCT.SetCTEntryProcessor.Process | spring-session-hazelcast/src/main/java/org/springframework/session/hazelcast/entryprocessor/SetCTEntryProcessor.java:39-48 | answers TRUE; the entry holds the prior (or a fresh) record with the carried creation time, set back once |
| SetCT.SetCTEntryProcessor.GetBackupProcessor | spring-session-hazelcast/src/main/java/org/springframework/session/hazelcast/entryprocessor/SetCTEntryProcessor.java:50-53 | the backup processor is the processor itself |
| SetCT.SetCTEntryProcessor.ProcessBackup | spring-session-hazelcast/src/main/java/org/springframework/session/hazelcast/entryprocessor/SetCTEntryProcessor.java:65-68 | leaves the entry exactly as process does |
| SetCT.SetCTEntryProcessor.WriteData | spring-session-hazelcast/src/main/java/org/springframework/session/hazelcast/entryprocessor/SetCTEntryProcessor.java:60-63 | writes the carried instant (or null) as one object |
| SetCT.SetCTEntryProcessor.ReadData | spring-session-hazelcast/src/main/java/org/springframework/session/hazelcast/entryprocessor/SetCTEntryProcessor.java:55-58 | reads the carried instant back |
| SetCT.Replicate | spring-session-hazelcast/src/main/java/org/springframework/session/hazelcast/entryprocessor/SetCTEntryProcessor.java:65-68 | primary process then replica processBackup leaves both entries equal |
| GetAttribute.GetAttributeEntryProcessor.WithName | spring-session-hazelcast/src/main/java/org/springframework/session/hazelcast/entryprocessor/GetAttributeEntryProcessor.java:21-23 | carries the given name |
| GetAttribute.GetAttributeEntryProcessor.constructor | spring-session-hazelcast/src/main/java/org/springframework/session/hazelcast/entryprocessor/GetAttributeEntryProcessor.java:25-27 | carries a null name |
| GetAttribute.GetAttributeEntryProcessor.Process | spring-session-hazelcast/src/main/java/org/springframework/session/hazelcast/entryprocessor/GetAttributeEntryProcessor.java:39-47 | null and no setValue on an absent entry; otherwise the same record is set back and the answer is the value stored under the name, or null when it is missing; the entry's value never changes |
| GetAttribute.GetAttributeEntryProcessor.WriteData | spring-session-hazelcast/src/main/java/org/springframework/session/hazelcast/entryprocessor/GetAttributeEntryProcessor.java:59-62 | writes the name (or null) as one UTF item |
| GetAttribute.GetAttributeEntryProcessor.ReadData | spring-session-hazelcast/src/main/java/org/springframework/session/hazelcast/entryprocessor/GetAttributeEntryProcessor.java:54-57 | reads the name back |
| GetAttributeNames.GetAttributeNamesEntryProcessor.Process | spring-session-hazelcast/src/main/java/org/springframework/session/hazelcast/entryprocessor/GetAttributeNamesEntryProcessor.java:51-58 | null exactly on an absent entry; otherwise exactly the record's attribute names at call time; the entry is not touched |
| GetAttributeNames.GetAttributeNamesEntryProcessor.WriteData | spring-session-hazelcast/src/main/java/org/springframework/session/hazelcast/entryprocessor/GetAttributeNamesEntryProcessor.java:65-67 | writes nothing |
| GetAttributeNames.GetAttributeNamesEntryProcessor.ReadData | spring-session-hazelcast/src/main/java/org/springframework/session/hazelcast/entryprocessor/GetAttributeNamesEntryProcessor.java:69-71 | reads nothing |
| GetSession.GetSessionEntryProcessor.Process | spring-session-hazelcast/src/main/java/org/springframework/session/hazelcast/entryprocessor/GetSessionEntryProcessor.java:30-38 | null and no setValue on an absent entry; otherwise the stored record itself, set back once; the entry's value is unchanged |
| GetSession.GetSessionEntryProcessor.WriteData | spring-session-hazelcast/src/main/java/org/springframework/session/hazelcast/entryprocessor/GetSessionEntryProcessor.java:45-47 | writes nothing |
| GetSession.GetSessionEntryProcessor.ReadData | spring-session-hazelcast/src/main/java/org/springframework/session/hazelcast/entryprocessor/GetSessionEntryProcessor.java:49-51 | reads nothing |
| GetLAT.GetLATEntryProcessor.Process | spring-session-hazelcast/src/main/java/org/springframework/session/hazelcast/entryprocessor/GetLATEntryProcessor.java:30-38 | null and no setValue on an absent entry; otherwise the record's last-accessed time, the record set back once; the entry's value is unchanged |
| GetLAT.GetLATEntryProcessor.WriteData | spring-session-hazelcast/src/main/java/org/springframework/session/hazelcast/entryprocessor/GetLATEntryProcessor.java:49-51 | writes nothing |
| GetLAT.GetLATEntryProcessor.ReadData | spring-session-hazelcast/src/main/java/org/springframework/session/hazelcast/entryprocessor/GetLATEntryProcessor.java:45-47 | reads nothing |
| GetCT.GetCTEntryProcessor.Process | spring-session-hazelcast/src/main/java/org/springframework/session/hazelcast/entryprocessor/GetCTEntryProcessor.java:30-38 | null and no setValue on an absent entry; otherwise the record's creation time, the record set back once; the entry's value is unchanged |
| GetCT.GetCTEntryProcessor.WriteData | spring-session-hazelcast/src/main/java/org/springframework/session/hazelcast/entryprocessor/GetCTEntryProcessor.java:49-51 | writes nothing |
| GetCT.GetCTEntryProcessor.ReadData | spring-session-hazelcast/src/main/java/org/springframework/session/hazelcast/entryprocessor/GetCTEntryProcessor.java:45-47 | reads nothing |
| DoesSessionExist.DoesSessionExistEntryProcessor.Process | spring-session-hazelcast/src/main/java/org/springframework/session/hazelcast/entryprocessor/DoesSessionExistEntryProcessor.java:30-37 | TRUE exactly when the entry holds a record; the entry is not touched |
| DoesSessionExist.DoesSessionExistEntryProcessor.WriteData | spring-session-hazelcast/src/main/java/org/springframework/session/hazelcast/entryprocessor/DoesSessionExistEntryProcessor.java:48-50 | writes nothing |
| DoesSessionExist.DoesSessionExistEntryProcessor.ReadData | spring-session-hazelcast/src/main/java/org/springframework/session/hazelcast/entryprocessor/DoesSessionExistEntryProcessor.java:44-46 | reads nothing |
| LegacySession.SessionState.constructor | spring-session-hazelcast/src/main/java/org/springframework/session/hazelcast/ep/SessionState.java:17-19 | an empty attribute map |
| LegacySession.SessionState.FromMap | spring-session-hazelcast/src/main/java/org/springframework/session/hazelcast/ep/SessionState.java:21-23 | the attribute map is the given map |
| LegacySession.SessionState.GetAttribute | spring-session-hazelcast/src/main/java/org/springframework/session/hazelcast/ep/SessionState.java:76-78 | the value mapped to the name, null when the name is absent; its partners are the get-after-set clauses of `SetAttribute` and the get-after-read clause of `RoundTrips.ShipLegacySessionState` |
| LegacySession.SessionState.SetAttribute | spring-session-hazelcast/src/main/java/org/springframework/session/hazelcast/ep/SessionState.java:80-82 | stores the value under the name, null included; other names unchanged; getAttribute of that name then answers the stored value, and of every other name what it answered before |
| LegacySession.SessionState.WriteData | spring-session-hazelcast/src/main/java/org/springframework/session/hazelcast/ep/SessionState.java:35-42 | appends the count and one (name, value) pair per attribute, for some key enumeration |
| LegacySession.SessionState.ReadData | spring-session-hazelcast/src/main/java/org/springframework/session/hazelcast/ep/SessionState.java:44-50 | puts the read pairs into the existing map rather than replacing it |
| LegacySession.SessionEntry.SetValue | spring-session-hazelcast/src/main/java/org/springframework/session/hazelcast/ep/SessionUpdateEntryProcessor.java:43 | the entry holds the given record and the call is logged |
| LegacySessionUpdate.MergedIdempotent | spring-session-hazelcast/src/main/java/org/springframework/session/hazelcast/ep/SessionUpdateEntryProcessor.java:30-45 | applying the merge twice leaves the same attribute map as applying it once |
| LegacySessionUpdate.SessionUpdateEntryProcessor.WithState | spring-session-hazelcast/src/main/java/org/springframework/session/hazelcast/ep/SessionUpdateEntryProcessor.java:21-23 | carries the given record object |
| LegacySessionUpdate.SessionUpdateEntryProcessor.constructor | spring-session-hazelcast/src/main/java/org/springframework/session/hazelcast/ep/SessionUpdateEntryProcessor.java:25-27 | carries a new, empty record |
| LegacySessionUpdate.SessionUpdateEntryProcessor.Process | spring-session-hazelcast/src/main/java/org/springframework/session/hazelcast/ep/SessionUpdateEntryProcessor.java:30-45 | answers the record left in the entry: the prior record (or a fresh one) with each carried non-null value put and each carried null removed, set back once |
| LegacySessionUpdate.SessionUpdateEntryProcessor.GetBackupProcessor | spring-session-hazelcast/src/main/java/org/springframework/session/hazelcast/ep/SessionUpdateEntryProcessor.java:72-75 | the backup processor is the processor itself |
| LegacySessionUpdate.SessionUpdateEntryProcessor.ProcessBackup | spring-session-hazelcast/src/main/java/org/springframework/session/hazelcast/ep/SessionUpdateEntryProcessor.java:67-70 | leaves the entry exactly as process does |
| LegacySessionUpdate.SessionUpdateEntryProcessor.WriteData | spring-session-hazelcast/src/main/java/org/springframework/session/hazelcast/ep/SessionUpdateEntryProcessor.java:47-50 | writes what the carried record writes |
| LegacySessionUpdate.SessionUpdateEntryProcessor.ReadData | spring-session-hazelcast/src/main/java/org/springframework/session/hazelcast/ep/SessionUpdateEntryProcessor.java:52-55 | the carried record reads, merging into its map |
| LegacySessionUpdate.Replicate | spring-session-hazelcast/src/main/java/org/springframework/session/hazelcast/ep/SessionUpdateEntryProcessor.java:67-75 | primary process then replica processBackup leaves both entries equal, when the carried record is neither entry's own record |
| RoundTrips.ShipSessionState | spring-session-hazelcast/src/main/java/org/springframework/session/hazelcast/entryprocessor/SessionState.java:36-51 | a fresh record reading what a record wrote succeeds and has an equal attribute map; timestamps are not carried |
| RoundTrips.ShipUpdateAttribute | spring-session-hazelcast/src/main/java/org/springframework/session/hazelcast/entryprocessor/UpdateAttributeEntryProcessor.java:76-91 | a default-constructed processor reading what a processor wrote succeeds and carries an equal map |
| RoundTrips.ShipDeleteSession | spring-session-hazelcast/src/main/java/org/springframework/session/hazelcast/entryprocessor/DeleteSessionEntryProcessor.java:61-69 | the rebuilt processor has the same invalidate flag and removed false: removed is not carried |
| RoundTrips.ShipGetAttribute | spring-session-hazelcast/src/main/java/org/springframework/session/hazelcast/entryprocessor/GetAttributeEntryProcessor.java:54-62 | the rebuilt processor carries the same name, null included |
| RoundTrips.ShipSetLAT | spring-session-hazelcast/src/main/java/org/springframework/session/hazelcast/entryprocessor/SetLATEntryProcessor.java:55-63 | the rebuilt processor carries the same instant, null included |
| RoundTrips.ShipSetCT | spring-session-hazelcast/src/main/java/org/springframework/session/hazelcast/entryprocessor/SetCTEntryProcessor.java:55-63 | the rebuilt processor carries the same instant, null included |
| RoundTrips.ShipLegacySessionState | spring-session-hazelcast/src/main/java/org/springframework/session/hazelcast/ep/SessionState.java:35-50 | a fresh record reading what a record wrote succeeds, has an equal attribute map, and getAttribute answers on it what it answers on the original for every name |
| RoundTrips.ShipLegacySessionUpdate | spring-session-hazelcast/src/main/java/org/springframework/session/hazelcast/ep/SessionUpdateEntryProcessor.java:47-55 | a default-constructed processor reading what a processor wrote carries an equal attribute map |

## Left out

- The numeric factory ids. `FactoryIdHelper.getFactoryId` reads a system property with a default, and the model treats the three namespaces as distinct constants. That holds only in one configuration: the property `spring.session.hazlecast` unset (so the older hook gets 789 and the newer Spring hook `F_ID_OFFSET_WEBMODULE`) and the web hook's property set to a value different from both. Both Spring hooks read `spring.session.hazlecast`, so whenever it is set they share an id (ep/SpringSessionDataSerializerHook.java:13, entryprocessor/SpringSessionDataSerializerHook.java:13); with both the web property and `spring.session.hazlecast` unset, the web hook shares `F_ID_OFFSET_WEBMODULE` with the newer Spring hook. `Registry.ReportedIdsResolve` and `Registry.DisabledWebIds` hold in the distinct configuration only. `Registry.WebIdsAgreeWithSpring` shows the second clash rebuilds the same kinds for every id the web hook builds, and `Registry.LegacyIdsDisagreeWithSpring` shows the first does not.
- `maxInactiveInterval` and its setter, which the repository calls on the record: no processor in this core reads or writes it.
- `HazelcastSessionRepository`, `SetSessionEntryProcessor` and `ep.GetSessionEntryProcessor` are not part of this model. The last two appear only as kind tags (`SetSession`, `LegacyGetSession`) in the registries.
- Hazelcast's runtime: partition routing, per-key locking, whether and when backups are sent, entry events, and concurrency. Each processor is one sequential call on one entry. `Replicate` models one primary call followed by the backup call.
- Byte-level encodings of `writeUTF`, `writeData` and `writeObject`. A token written is the token read back, null included.
- `toString` and the `serialVersionUID` constants.
- Attribute names are `string` throughout, never null. A Java `HashMap` accepts a null key, so `setAttribute(null, v)`, the `(key, value)` constructor of UpdateAttributeEntryProcessor with a null key, and `set` with a map holding one cannot be expressed.
- AttributeMap.ReadPairs: a null attribute name read from the stream is reported as the error `NullAttributeName`. A Java `HashMap` would store it under the null key, which a `map<string, _>` cannot hold.
- AttributeMap.ReadPairs: a read that fails part-way stops with the pairs put so far and leaves the position at the failed item. Java throws an `IOException`, and Hazelcast discards the partially read object.
- UpdateAttribute.UpdateAttributeEntryProcessor.WithCapacity requires a non-negative size, where `new HashMap(size)` throws for a negative one. The capacity has no other effect.
- UpdateAttribute.UpdateAttributeEntryProcessor.constructor: `Collections.emptyMap()` is immutable in Java. Nothing in the core writes to it, so the model carries an ordinary empty map.
- LegacySession.SessionState.FromMap: maps are values here, so the model does not capture that the record shares the caller's map object and sees the caller's later changes.
- LegacySessionUpdate.SessionUpdateEntryProcessor.Process: it iterates over a snapshot of the carried map. If the carried record were the entry's own record, Java would iterate the map it is changing.
- LegacySessionUpdate.Replicate: requires the carried record to be neither the primary's nor the replica's own record. In that aliased case Java iterates the map it is removing from, and a carried null that is not the last entry visited makes it throw `ConcurrentModificationException`; the model does not represent that exception.
- LegacySessionUpdate.SessionUpdateEntryProcessor.WithState takes a non-null record. Java accepts `new SessionUpdateEntryProcessor(null)`, and that processor then throws `NullPointerException` in process, writeData and readData; the model does not represent that.
- Attribute maps are written only when they hold at most `Integer.MAX_VALUE` entries (`requires |m| <= INT32_MAX` on `AttributeMap.WriteAttributes` and the `WriteData` methods and `Ship*` methods built on it). Java writes `size()` as an `int`, and `HashMap.size()` saturates at `Integer.MAX_VALUE`, so a larger map would be written with a wrong count.
- DeleteSession.DeleteSessionEntryProcessor.ReadData leaves `removed` as it was. Reading `invalidate = false` into a processor whose `removed` is already true breaks `Valid()` (`removed ==> invalidate`). Hazelcast only reads into fresh instances, whose `removed` is false, as `RoundTrips.ShipDeleteSession` shows.
- The `getBackupProcessor` of the read-only processors (GetAttribute, GetAttributeNames, GetSession, GetLAT, GetCT, DoesSessionExist) is the constant null and carries no contract.
- The `getFactoryId` / `getId` of each class are plain constant functions. What they promise is stated together by `Registry.ReportedIdsResolve`.
