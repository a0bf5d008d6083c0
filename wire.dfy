/** Byte-level vocabulary shared by the codecs: the wire as a sequence of
    bytes, the fixed-width integers, Option and Result, and the abstract
    encoders and decoders of the helper types that this model does not define. */
module Wire {

  type Bytes = seq<bv8>

  newtype i32 = x: int | -0x8000_0000 <= x < 0x8000_0000
  newtype u32 = x: int | 0 <= x < 0x1_0000_0000
  newtype i64 = x: int | -0x8000_0000_0000_0000 <= x < 0x8000_0000_0000_0000

  datatype Option<+T> = None | Some(value: T)

  datatype Result<+T, +E> = Ok(value: T) | Err(error: E)

  /** What a helper decoder may report: input exhausted, or bytes it refuses. */
  datatype Error = EndOfInput | Malformed(reason: string)

  /** A decoded value together with the bytes that follow it. */
  type Decoded<T> = Result<(T, Bytes), Error>

  /** The `Encode` and `Decode` impls of one helper type.  The encoder is total:
      writer I/O errors are not modelled. */
  datatype Codec<!T> = Codec(encode: T -> Bytes, encodedLen: T -> nat, decode: Bytes -> Decoded<T>)

  /** Hypothesis: decoding an encoding gives the value back and consumes
      exactly the bytes of that encoding, whatever follows it. */
  ghost predicate RoundTrip<T(!new)>(c: Codec<T>) {
    forall v: T, rest: Bytes :: c.decode(c.encode(v) + rest) == Ok((v, rest))
  }

  /** The same law for one value only: what a proof about one encoded value
      needs of a helper that may not round-trip on every value. */
  ghost predicate ReadsBack<T>(c: Codec<T>, v: T) {
    forall rest: Bytes :: c.decode(c.encode(v) + rest) == Ok((v, rest))
  }

  /** Hypothesis: `encoded_len` is the length of what `encode` writes. */
  ghost predicate LenAgrees<T(!new)>(c: Codec<T>) {
    forall v: T :: c.encodedLen(v) == |c.encode(v)|
  }

  /** Hypothesis on an `Option<T>` decoder: a leading zero byte reads as `None`
      and consumes that byte alone. */
  ghost predicate ZeroIsNone<T>(opt: Codec<Option<T>>) {
    forall rest: Bytes :: opt.decode([0x00] + rest) == Ok((None, rest))
  }

  /** Hypothesis on an `Option<T>` decoder: a leading byte other than 0 or 1
      is not a presence flag, and decoding fails. */
  ghost predicate RejectsBadPresence<T>(opt: Codec<Option<T>>) {
    forall x: bv8, rest: Bytes :: x > 1 ==> opt.decode([x] + rest).Err?
  }

  /** `b as u8` */
  function BoolByte(b: bool): (x: bv8)
    ensures x == 0 || x == 1
    ensures x == 1 <==> b
  {
    if b then 1 else 0
  }

  /** `read_u8`: one raw byte, or failure on empty input. */
  function ReadByte(b: Bytes): (r: Decoded<bv8>)
    ensures r.Ok? <==> |b| > 0
    ensures r.Ok? ==> b == [r.value.0] + r.value.1
  {
    if |b| == 0 then Err(EndOfInput) else Ok((b[0], b[1..]))
  }

  /** The bytes `if let Some(v) = o { v.encode(w) }` writes: nothing for `None`. */
  function OptionalBytes<T>(c: Codec<T>, o: Option<T>): (b: Bytes)
    ensures o.None? ==> b == []
  {
    match o
    case None => []
    case Some(v) => c.encode(v)
  }

  function MapDecoded<T, U>(d: Decoded<T>, f: T -> U): (r: Decoded<U>)
    ensures r.Ok? <==> d.Ok?
    ensures r.Ok? ==> r.value == (f(d.value.0), d.value.1)
  {
    match d
    case Ok((v, rest)) => Ok((f(v), rest))
    case Err(e) => Err(e)
  }

  /** A field decoded as `Option<T>` when its presence bit is set, and `None`
      without consuming a byte when it is clear. */
  function ReadOptionIf<T>(present: bool, opt: Codec<Option<T>>, b: Bytes): Decoded<Option<T>> {
    if present then opt.decode(b) else Ok((None, b))
  }

  /** Reading the bare `T` that an encoder wrote for a present field, wrapped in
      `Some`.  Passed where the source passes an `Option<T>` decoder, it gives the
      decoder that mirrors the encoder. */
  function Bare<T>(c: Codec<T>): (r: Codec<Option<T>>)
    ensures forall b: Bytes :: r.decode(b) == DecodeBare(c, b)
  {
    Codec(o => OptionalBytes(c, o), o => |OptionalBytes(c, o)|, b => DecodeBare(c, b))
  }

  function DecodeBare<T>(c: Codec<T>, b: Bytes): (d: Decoded<Option<T>>)
    ensures d.Ok? <==> c.decode(b).Ok?
    ensures d.Ok? ==> d.value == (Some(c.decode(b).value.0), c.decode(b).value.1)
  {
    match c.decode(b)
    case Ok((v, rest)) => Ok((Some(v), rest))
    case Err(e) => Err(e)
  }

  lemma BareReadsPresent<T>(c: Codec<T>, v: T, rest: Bytes)
    requires ReadsBack(c, v)
    ensures Bare(c).decode(c.encode(v) + rest) == Ok((Some(v), rest))
  {
  }

  /** Under the round-trip law an encoding is never a proper prefix of another:
      equal streams that start with two encodings start with the same one. */
  lemma PrefixDetermined<T(!new)>(c: Codec<T>, x: T, y: T, a: Bytes, b: Bytes)
    requires RoundTrip(c)
    requires c.encode(x) + a == c.encode(y) + b
    ensures x == y && a == b
  {
  }

  /** A gated field read back with the decoder that mirrors its encoder. */
  lemma ReadBareGated<T>(c: Codec<T>, o: Option<T>, rest: Bytes)
    requires o.Some? ==> ReadsBack(c, o.value)
    ensures ReadOptionIf(o.Some?, Bare(c), OptionalBytes(c, o) + rest) == Ok((o, rest))
  {
    if o.Some? {
      BareReadsPresent(c, o.value, rest);
    } else {
      assert OptionalBytes(c, o) + rest == rest;
    }
  }

  /** A decode result without its remaining bytes: what a `decode` call returns. */
  function Value<T, E>(d: Result<(T, Bytes), E>): (r: Result<T, E>)
    ensures r.Ok? <==> d.Ok?
    ensures r.Ok? ==> r.value == d.value.0
  {
    match d
    case Ok((v, _)) => Ok(v)
    case Err(e) => Err(e)
  }

  /** After a successful decode the reader's cursor is at the remaining bytes. */
  ghost predicate Advanced<T, E>(d: Result<(T, Bytes), E>, rest: Bytes) {
    d.Ok? ==> rest == d.value.1
  }

  /** The `impl Write` an encoder appends to. */
  class Writer {
    var bytes: Bytes

    constructor ()
      ensures bytes == []
    {
      bytes := [];
    }

    /** `write_u8` */
    method WriteU8(x: bv8)
      modifies this
      ensures bytes == old(bytes) + [x]
    {
      bytes := bytes + [x];
    }

    /** `v.encode(w)` for a helper type: appends the encoding. */
    method Write(b: Bytes)
      modifies this
      ensures bytes == old(bytes) + b
    {
      bytes := bytes + b;
    }
  }

  /** The `&mut &[u8]` cursor a decoder advances. */
  class Reader {
    var rest: Bytes

    constructor (input: Bytes)
      ensures rest == input
    {
      rest := input;
    }

    /** `read_u8` */
    method ReadU8() returns (r: Result<bv8, Error>)
      modifies this
      ensures r == Value(ReadByte(old(rest)))
      ensures Advanced(ReadByte(old(rest)), rest)
    {
      if |rest| == 0 {
        r := Err(EndOfInput);
      } else {
        r := Ok(rest[0]);
        rest := rest[1..];
      }
    }

    /** `T::decode(r)` for a helper type. */
    method Read<T>(c: Codec<T>) returns (r: Result<T, Error>)
      modifies this
      ensures r == Value(c.decode(old(rest)))
      ensures Advanced(c.decode(old(rest)), rest)
    {
      match c.decode(rest)
      case Ok((v, tail)) =>
        r := Ok(v);
        rest := tail;
      case Err(e) =>
        r := Err(e);
    }

    /** `if bit { Option::<T>::decode(r)? } else { None }` */
    method ReadGated<T>(present: bool, opt: Codec<Option<T>>) returns (r: Result<Option<T>, Error>)
      modifies this
      ensures r == Value(ReadOptionIf(present, opt, old(rest)))
      ensures Advanced(ReadOptionIf(present, opt, old(rest)), rest)
    {
      if present {
        r := Read(opt);
      } else {
        r := Ok(None);
      }
    }
  }
}
