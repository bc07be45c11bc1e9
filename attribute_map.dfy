/**
 * The attribute map of a session record (`Map<String, Data>`, values may be
 * null) and the two things every class in the core does with one:
 *
 *  - merge a carried map into it, where a carried null removes the name and
 *    any other value is upserted (UpdateAttributeEntryProcessor.process and
 *    ep.SessionUpdateEntryProcessor.process);
 *  - write it as a count followed by one (name, value) pair per entry, and
 *    read such a stream back with `put` (the writeData / readData pairs of
 *    both SessionState classes and of UpdateAttributeEntryProcessor).
 *
 * A HashMap is iterated in an unspecified order, so the writer is specified
 * for every enumeration of the keys and the round trip is map equality.
 */
module AttributeMap {
  import opened Hazelcast

  type Attributes = map<string, Option<Data>>

  // ---------------------------------------------------------------------------
  // Merging carried updates

  /** One step of the merge loop: a null value removes the name, anything else is put. */
  function ApplyOne(m: Attributes, name: string, value: Option<Data>): Attributes {
    if value.None? then m - {name} else m[name := value]
  }

  /**
   * The map left after every entry of `updates` has been applied to `m`,
   * in whatever order the loop visits them.
   */
  function ApplyUpdates(m: Attributes, updates: Attributes): (r: Attributes)
    ensures forall k :: k in r <==> (k in updates && updates[k].Some?) || (k in m && k !in updates)
    ensures forall k :: k in updates && updates[k].Some? ==> k in r && r[k] == updates[k]
    ensures forall k :: k in m && k !in updates ==> k in r && r[k] == m[k]
  {
    map k | k in m.Keys + updates.Keys && !(k in updates && updates[k].None?) ::
      if k in updates then updates[k] else m[k]
  }

  /** The part of `updates` whose names are in `names`. */
  function Restrict(updates: Attributes, names: set<string>): Attributes {
    map k | k in updates && k in names :: updates[k]
  }

  /** Applying one more carried entry extends the merge by that entry. */
  lemma ApplyUpdatesStep(m: Attributes, updates: Attributes, done: set<string>, name: string)
    requires name in updates && name !in done
    ensures ApplyUpdates(m, Restrict(updates, done + {name}))
         == ApplyOne(ApplyUpdates(m, Restrict(updates, done)), name, updates[name])
  {
    var before := ApplyUpdates(m, Restrict(updates, done));
    var after := ApplyUpdates(m, Restrict(updates, done + {name}));
    var stepped := ApplyOne(before, name, updates[name]);
    forall k
      ensures k in after <==> k in stepped
      ensures k in after ==> after[k] == stepped[k]
    {
      if k != name {
        assert k in Restrict(updates, done + {name}) <==> k in Restrict(updates, done);
      }
    }
  }

  /** Restricting to every carried name is the carried map itself. */
  lemma RestrictAll(updates: Attributes)
    ensures Restrict(updates, updates.Keys) == updates
  {
  }

  /** Replaying the same updates changes nothing more: a merge is idempotent. */
  lemma ApplyUpdatesIdempotent(m: Attributes, updates: Attributes)
    ensures ApplyUpdates(ApplyUpdates(m, updates), updates) == ApplyUpdates(m, updates)
  {
    var once := ApplyUpdates(m, updates);
    var twice := ApplyUpdates(once, updates);
    forall k
      ensures k in twice <==> k in once
      ensures k in twice ==> twice[k] == once[k]
    {
    }
  }

  // ---------------------------------------------------------------------------
  // The wire form

  /** `order` lists each key of `m` exactly once: one HashMap iteration order. */
  ghost predicate IsEnumeration(order: seq<string>, m: Attributes) {
    |order| == |m| && forall k :: k in order <==> k in m
  }

  /** The (name, value) pairs written for the keys of `m` in `order`. */
  function PairsWire(m: Attributes, order: seq<string>): seq<Token>
    requires forall k | k in order :: k in m
  {
    if order == [] then []
    else [UtfToken(Some(order[0])), DataToken(m[order[0]])] + PairsWire(m, order[1..])
  }

  /** What writeData emits for `m` when the map is iterated in `order`. */
  function AttributesWire(m: Attributes, order: seq<string>): seq<Token>
    requires |m| <= INT32_MAX
    requires forall k | k in order :: k in m
  {
    [IntToken(|m| as int32)] + PairsWire(m, order)
  }

  lemma {:induction false} PairsWireLength(m: Attributes, order: seq<string>)
    requires forall k | k in order :: k in m
    ensures |PairsWire(m, order)| == 2 * |order|
  {
    if order != [] {
      PairsWireLength(m, order[1..]);
    }
  }

  /** Writing one more pair appends it to the stream. */
  lemma {:induction false} PairsWireSnoc(m: Attributes, order: seq<string>, name: string)
    requires forall k | k in order :: k in m
    requires name in m
    ensures PairsWire(m, order + [name]) == PairsWire(m, order) + [UtfToken(Some(name)), DataToken(m[name])]
  {
    if order == [] {
      assert order + [name] == [name];
    } else {
      assert (order + [name])[1..] == order[1..] + [name];
      PairsWireSnoc(m, order[1..], name);
    }
  }

  /** What a read loop leaves: the map it has put into, where the stream stands, and any failure. */
  datatype ReadOutcome = ReadOutcome(attributes: Attributes, pos: nat, error: Option<Error>)

  /**
   * `count` iterations of reading a name and a value and putting the pair
   * into `acc`, starting at `pos`. A read that fails ends the loop with the
   * puts made so far; a non-positive count reads nothing.
   */
  function ReadPairs(tokens: seq<Token>, pos: nat, count: int, acc: Attributes): ReadOutcome
    decreases if count < 0 then 0 else count
  {
    if count <= 0 then ReadOutcome(acc, pos, None)
    else match UtfAt(tokens, pos)
      case Err(e) => ReadOutcome(acc, pos, Some(e))
      case Ok(name) =>
        match DataAt(tokens, pos + 1)
        case Err(e) => ReadOutcome(acc, pos + 1, Some(e))
        case Ok(value) =>
          if name.None? then ReadOutcome(acc, pos + 2, Some(NullAttributeName))
          else ReadPairs(tokens, pos + 2, count - 1, acc[name.value := value])
  }

  /** The readData of a SessionState: read a count, then put that many pairs into `acc`. */
  function ReadAttributes(tokens: seq<Token>, pos: nat, acc: Attributes): ReadOutcome {
    match IntAt(tokens, pos)
    case Err(e) => ReadOutcome(acc, pos, Some(e))
    case Ok(count) => ReadPairs(tokens, pos + 1, count as int, acc)
  }

  /** The entries of `m` whose names occur in `order`. */
  function Pick(m: Attributes, order: seq<string>): Attributes
    requires forall k | k in order :: k in m
  {
    map k | k in order :: m[k]
  }

  /** Reading back the pairs written for `order` puts exactly those entries into the accumulator. */
  lemma {:induction false} PairsRoundTrip(m: Attributes, order: seq<string>, prefix: seq<Token>, rest: seq<Token>, acc: Attributes)
    requires forall k | k in order :: k in m
    ensures ReadPairs(prefix + PairsWire(m, order) + rest, |prefix|, |order|, acc)
         == ReadOutcome(acc + Pick(m, order), |prefix| + 2 * |order|, None)
  {
    var tokens := prefix + PairsWire(m, order) + rest;
    if order == [] {
      assert acc + Pick(m, order) == acc;
    } else {
      var name := order[0];
      var pair := [UtfToken(Some(name)), DataToken(m[name])];
      assert tokens == (prefix + pair) + PairsWire(m, order[1..]) + rest;
      assert tokens[|prefix|] == UtfToken(Some(name));
      assert tokens[|prefix| + 1] == DataToken(m[name]);
      PairsRoundTrip(m, order[1..], prefix + pair, rest, acc[name := m[name]]);
      assert acc[name := m[name]] + Pick(m, order[1..]) == acc + Pick(m, order);
    }
  }

  /** An enumeration picks the whole map. */
  lemma PickEnumeration(m: Attributes, order: seq<string>)
    requires IsEnumeration(order, m)
    ensures Pick(m, order) == m
  {
  }

  /**
   * readData after writeData: whatever key order the writer used, reading
   * into `acc` yields `acc` overwritten by every written entry, and consumes
   * exactly the written tokens. With an empty `acc` this is the map itself.
   */
  lemma AttributesRoundTrip(m: Attributes, order: seq<string>, prefix: seq<Token>, rest: seq<Token>, acc: Attributes)
    requires |m| <= INT32_MAX
    requires IsEnumeration(order, m)
    ensures ReadAttributes(prefix + AttributesWire(m, order) + rest, |prefix|, acc)
         == ReadOutcome(acc + m, |prefix| + 1 + 2 * |m|, None)
  {
    var tokens := prefix + AttributesWire(m, order) + rest;
    assert tokens == (prefix + [IntToken(|m| as int32)]) + PairsWire(m, order) + rest;
    assert tokens[|prefix|] == IntToken(|m| as int32);
    PairsRoundTrip(m, order, prefix + [IntToken(|m| as int32)], rest, acc);
    PickEnumeration(m, order);
  }

  // ---------------------------------------------------------------------------
  // The loops shared by the writeData / readData methods

  /**
   * Writes the map's size as an int, then the name (as UTF) and the value
   * (as Data) of each entry, in an order chosen here.
   */
  method WriteAttributes(out: ObjectDataOutput, m: Attributes) returns (ghost order: seq<string>)
    requires |m| <= INT32_MAX
    modifies out
    ensures IsEnumeration(order, m)
    ensures out.tokens == old(out.tokens) + AttributesWire(m, order)
    ensures |out.tokens| == |old(out.tokens)| + 1 + 2 * |m|
  {
    out.WriteInt(|m| as int32);
    var pending := m.Keys;
    order := [];
    while pending != {}
      invariant pending <= m.Keys
      invariant forall k :: k in order <==> k in m && k !in pending
      invariant |order| + |pending| == |m|
      invariant out.tokens == old(out.tokens) + [IntToken(|m| as int32)] + PairsWire(m, order)
      decreases pending
    {
      var name :| name in pending;
      out.WriteUTF(Some(name));
      out.WriteData(m[name]);
      PairsWireSnoc(m, order, name);
      order := order + [name];
      pending := pending - {name};
    }
    PairsWireLength(m, order);
  }

  /**
   * Reads `count` (name, value) pairs, putting each into the map, starting
   * from `acc`; returns the map as the loop leaves it.
   */
  method ReadPairsFrom(input: ObjectDataInput, count: int32, acc: Attributes) returns (attributes: Attributes, error: Option<Error>)
    modifies input
    ensures ReadOutcome(attributes, input.pos, error) == ReadPairs(input.tokens, old(input.pos), count as int, acc)
  {
    attributes, error := acc, None;
    var i := 0;
    while i < count as int
      invariant 0 <= i && (count >= 0 ==> i <= count as int)
      invariant ReadPairs(input.tokens, input.pos, count as int - i, attributes) == ReadPairs(input.tokens, old(input.pos), count as int, acc)
      decreases count as int - i
    {
      var name := input.ReadUTF();
      if name.Err? {
        error := Some(name.error);
        return;
      }
      var value := input.ReadData();
      if value.Err? {
        error := Some(value.error);
        return;
      }
      if name.value.None? {
        error := Some(NullAttributeName);
        return;
      }
      attributes := attributes[name.value.value := value.value];
      i := i + 1;
    }
  }
}
