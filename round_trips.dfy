/**
 * writeData followed by readData on a default-constructed instance, as
 * Hazelcast does when it ships an object to another member: the rebuilt
 * instance carries what the original carried, and the read succeeds.
 */
module RoundTrips {
  import opened Hazelcast
  import opened AttributeMap
  import Session
  import UpdateAttribute
  import DeleteSession
  import GetAttribute
  import SetLAT
  import SetCT
  import LegacySession
  import LegacySessionUpdate

  /** The record of package entryprocessor: the attribute map survives; the timestamps are not shipped. */
  method ShipSessionState(s: Session.SessionState) returns (copy: Session.SessionState, error: Option<Error>)
    requires |s.attributes| <= INT32_MAX
    ensures error == None
    ensures copy.attributes == s.attributes
    ensures copy.creationTime == None && copy.lastAccessedTime == None
  {
    var out := new ObjectDataOutput();
    ghost var order := s.WriteData(out);
    assert out.tokens == [] + AttributesWire(s.attributes, order) + [];
    var input := new ObjectDataInput(out.tokens);
    copy := new Session.SessionState();
    error := copy.ReadData(input);
    Session.FreshRecordRoundTrip(s.attributes, order, [], []);
  }

  method ShipUpdateAttribute(p: UpdateAttribute.UpdateAttributeEntryProcessor)
    returns (copy: UpdateAttribute.UpdateAttributeEntryProcessor, error: Option<Error>)
    requires |p.attributes| <= INT32_MAX
    ensures error == None
    ensures copy.attributes == p.attributes
  {
    var out := new ObjectDataOutput();
    ghost var order := p.WriteData(out);
    assert out.tokens == [] + AttributesWire(p.attributes, order) + [];
    var input := new ObjectDataInput(out.tokens);
    copy := new UpdateAttribute.UpdateAttributeEntryProcessor();
    error := copy.ReadData(input);
    UpdateAttribute.CarriedRoundTrip(p.attributes, order, [], [], map[]);
  }

  /** Only `invalidate` is shipped: the rebuilt processor has `removed` false whatever the original had. */
  method ShipDeleteSession(p: DeleteSession.DeleteSessionEntryProcessor)
    returns (copy: DeleteSession.DeleteSessionEntryProcessor, error: Option<Error>)
    ensures error == None
    ensures copy.invalidate == p.invalidate && !copy.removed
  {
    var out := new ObjectDataOutput();
    p.WriteData(out);
    var input := new ObjectDataInput(out.tokens);
    copy := new DeleteSession.DeleteSessionEntryProcessor();
    error := copy.ReadData(input);
  }

  method ShipGetAttribute(p: GetAttribute.GetAttributeEntryProcessor)
    returns (copy: GetAttribute.GetAttributeEntryProcessor, error: Option<Error>)
    ensures error == None
    ensures copy.attributeName == p.attributeName
  {
    var out := new ObjectDataOutput();
    p.WriteData(out);
    var input := new ObjectDataInput(out.tokens);
    copy := new GetAttribute.GetAttributeEntryProcessor();
    error := copy.ReadData(input);
  }

  method ShipSetLAT(p: SetLAT.SetLATEntryProcessor) returns (copy: SetLAT.SetLATEntryProcessor, error: Option<Error>)
    ensures error == None
    ensures copy.lastAccessedTime == p.lastAccessedTime
  {
    var out := new ObjectDataOutput();
    p.WriteData(out);
    var input := new ObjectDataInput(out.tokens);
    copy := new SetLAT.SetLATEntryProcessor();
    error := copy.ReadData(input);
  }

  method ShipSetCT(p: SetCT.SetCTEntryProcessor) returns (copy: SetCT.SetCTEntryProcessor, error: Option<Error>)
    ensures error == None
    ensures copy.creationTime == p.creationTime
  {
    var out := new ObjectDataOutput();
    p.WriteData(out);
    var input := new ObjectDataInput(out.tokens);
    copy := new SetCT.SetCTEntryProcessor();
    error := copy.ReadData(input);
  }

  /** The record of package ep. */
  method ShipLegacySessionState(s: LegacySession.SessionState)
    returns (copy: LegacySession.SessionState, error: Option<Error>)
    requires |s.attributes| <= INT32_MAX
    ensures error == None
    ensures copy.attributes == s.attributes
    ensures forall name :: copy.GetAttribute(name) == s.GetAttribute(name)
  {
    var out := new ObjectDataOutput();
    ghost var order := s.WriteData(out);
    assert out.tokens == [] + AttributesWire(s.attributes, order) + [];
    var input := new ObjectDataInput(out.tokens);
    copy := new LegacySession.SessionState();
    error := copy.ReadData(input);
    AttributesRoundTrip(s.attributes, order, [], [], map[]);
    assert map[] + s.attributes == s.attributes;
  }

  /** The ep merge processor ships its carried record; the rebuilt one carries an equal map. */
  method ShipLegacySessionUpdate(p: LegacySessionUpdate.SessionUpdateEntryProcessor)
    returns (copy: LegacySessionUpdate.SessionUpdateEntryProcessor, error: Option<Error>)
    requires |p.sessionState.attributes| <= INT32_MAX
    ensures error == None
    ensures copy.sessionState.attributes == p.sessionState.attributes
  {
    var out := new ObjectDataOutput();
    ghost var order := p.WriteData(out);
    assert out.tokens == [] + AttributesWire(p.sessionState.attributes, order) + [];
    var input := new ObjectDataInput(out.tokens);
    copy := new LegacySessionUpdate.SessionUpdateEntryProcessor();
    error := copy.ReadData(input);
    AttributesRoundTrip(p.sessionState.attributes, order, [], [], map[]);
    assert map[] + p.sessionState.attributes == p.sessionState.attributes;
  }
}
