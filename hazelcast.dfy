/**
 * The pieces of Hazelcast that the session entry processors touch: nullable
 * values, Java's 32-bit int, the opaque serialized `Data` and `Instant`
 * values, and the ObjectDataOutput / ObjectDataInput streams.
 *
 * A stream is modelled at the granularity of its write calls: one token per
 * writeInt / writeUTF / writeData / writeBoolean / writeObject. The byte-level
 * encodings belong to Hazelcast and are not modelled; a token written is the
 * token read back, null included.
 */
module Hazelcast {

  /** A Java reference that may be null. */
  datatype Option<+T> = None | Some(value: T)

  const INT32_MAX := 0x7fff_ffff

  /** Java's `int`. */
  newtype int32 = x: int | -0x8000_0000 <= x <= 0x7fff_ffff

  /** A serialized attribute value; the session core never looks inside it. */
  datatype Data = Data(bytes: seq<bv8>)

  /** A `java.time.Instant`: seconds since the epoch and a nanosecond adjustment. */
  datatype Instant = Instant(epochSecond: int, nano: int)

  /** One item of a serialized stream. */
  datatype Token =
    | IntToken(i: int32)               // writeInt / readInt
    | UtfToken(s: Option<string>)      // writeUTF / readUTF, null allowed
    | DataToken(d: Option<Data>)       // writeData / readData, null allowed
    | BoolToken(b: bool)               // writeBoolean / readBoolean
    | ObjectToken(o: Option<Instant>)  // writeObject / readObject of an Instant or null

  /** Why a readData fails (an IOException or a runtime exception in the source). */
  datatype Error =
    | EndOfStream          // nothing left to read
    | UnexpectedToken      // the next item was written by a different write call
    | NegativeCapacity     // `new HashMap(n)` with n < 0
    | NullAttributeName    // a null name read back as a map key (not representable here)

  datatype Result<+T> = Ok(value: T) | Err(error: Error)

  // What a read call at position `pos` of `tokens` yields.

  function IntAt(tokens: seq<Token>, pos: nat): Result<int32> {
    if pos >= |tokens| then Err(EndOfStream)
    else if tokens[pos].IntToken? then Ok(tokens[pos].i)
    else Err(UnexpectedToken)
  }

  function UtfAt(tokens: seq<Token>, pos: nat): Result<Option<string>> {
    if pos >= |tokens| then Err(EndOfStream)
    else if tokens[pos].UtfToken? then Ok(tokens[pos].s)
    else Err(UnexpectedToken)
  }

  function DataAt(tokens: seq<Token>, pos: nat): Result<Option<Data>> {
    if pos >= |tokens| then Err(EndOfStream)
    else if tokens[pos].DataToken? then Ok(tokens[pos].d)
    else Err(UnexpectedToken)
  }

  function BoolAt(tokens: seq<Token>, pos: nat): Result<bool> {
    if pos >= |tokens| then Err(EndOfStream)
    else if tokens[pos].BoolToken? then Ok(tokens[pos].b)
    else Err(UnexpectedToken)
  }

  function ObjectAt(tokens: seq<Token>, pos: nat): Result<Option<Instant>> {
    if pos >= |tokens| then Err(EndOfStream)
    else if tokens[pos].ObjectToken? then Ok(tokens[pos].o)
    else Err(UnexpectedToken)
  }

  /** The stream a `writeData` appends to. */
  class ObjectDataOutput {
    var tokens: seq<Token>

    constructor ()
      ensures tokens == []
    {
      tokens := [];
    }

    method WriteInt(i: int32)
      modifies this
      ensures tokens == old(tokens) + [IntToken(i)]
    {
      tokens := tokens + [IntToken(i)];
    }

    method WriteUTF(s: Option<string>)
      modifies this
      ensures tokens == old(tokens) + [UtfToken(s)]
    {
      tokens := tokens + [UtfToken(s)];
    }

    method WriteData(d: Option<Data>)
      modifies this
      ensures tokens == old(tokens) + [DataToken(d)]
    {
      tokens := tokens + [DataToken(d)];
    }

    method WriteBoolean(b: bool)
      modifies this
      ensures tokens == old(tokens) + [BoolToken(b)]
    {
      tokens := tokens + [BoolToken(b)];
    }

    method WriteObject(o: Option<Instant>)
      modifies this
      ensures tokens == old(tokens) + [ObjectToken(o)]
    {
      tokens := tokens + [ObjectToken(o)];
    }
  }

  /** The stream a `readData` consumes; a successful read moves past one token. */
  class ObjectDataInput {
    const tokens: seq<Token>
    var pos: nat

    constructor (tokens: seq<Token>)
      ensures this.tokens == tokens && pos == 0
    {
      this.tokens := tokens;
      pos := 0;
    }

    method ReadInt() returns (r: Result<int32>)
      modifies this
      ensures r == IntAt(tokens, old(pos))
      ensures pos == if r.Ok? then old(pos) + 1 else old(pos)
    {
      r := IntAt(tokens, pos);
      if r.Ok? { pos := pos + 1; }
    }

    method ReadUTF() returns (r: Result<Option<string>>)
      modifies this
      ensures r == UtfAt(tokens, old(pos))
      ensures pos == if r.Ok? then old(pos) + 1 else old(pos)
    {
      r := UtfAt(tokens, pos);
      if r.Ok? { pos := pos + 1; }
    }

    method ReadData() returns (r: Result<Option<Data>>)
      modifies this
      ensures r == DataAt(tokens, old(pos))
      ensures pos == if r.Ok? then old(pos) + 1 else old(pos)
    {
      r := DataAt(tokens, pos);
      if r.Ok? { pos := pos + 1; }
    }

    method ReadBoolean() returns (r: Result<bool>)
      modifies this
      ensures r == BoolAt(tokens, old(pos))
      ensures pos == if r.Ok? then old(pos) + 1 else old(pos)
    {
      r := BoolAt(tokens, pos);
      if r.Ok? { pos := pos + 1; }
    }

    method ReadObject() returns (r: Result<Option<Instant>>)
      modifies this
      ensures r == ObjectAt(tokens, old(pos))
      ensures pos == if r.Ok? then old(pos) + 1 else old(pos)
    {
      r := ObjectAt(tokens, pos);
      if r.Ok? { pos := pos + 1; }
    }
  }
}
