/** The `BrigadierFloat`, `BrigadierInteger` and `BrigadierLong` argument
    parsers of the command graph: two optional bounds behind a two-bit
    presence byte.  The three structs differ only in the bound type, so they
    are one generic `Range<T>` here, with `T` = `F32`, `i32` or `i64`. */
module Brigadier {
  import opened Wire

  /** An `f32`, kept as its opaque 4-byte bit pattern. */
  datatype F32 = F32(bits: bv32)

  datatype Range<T> = Range(min: Option<T>, max: Option<T>)

  /** `(min.is_some() as u8) << 0 | (max.is_some() as u8) << 1` */
  function RangeFlags<T>(r: Range<T>): (f: bv8)
    ensures (f & 0x01 != 0) == r.min.Some?
    ensures (f & 0x02 != 0) == r.max.Some?
    ensures f & 0xFC == 0
  {
    (BoolByte(r.min.Some?) << 0) | (BoolByte(r.max.Some?) << 1)
  }

  /** `Encode`: the flags byte, then min if present, then max if present. */
  function EncodeRange<T>(bound: Codec<T>, r: Range<T>): (b: Bytes)
    ensures |b| >= 1 && b[0] == RangeFlags(r)
    ensures r.min.None? && r.max.None? ==> b == [0x00]
  {
    [RangeFlags(r)] + OptionalBytes(bound, r.min) + OptionalBytes(bound, r.max)
  }

  /** `Decode` as the source writes it: the flags byte, then, when a bit is set,
      the bound read at type `Option<T>` (min before max). */
  function DecodeRangeAsWritten<T>(opt: Codec<Option<T>>, b: Bytes): (d: Decoded<Range<T>>)
    ensures d.Ok? ==> |b| > 0
    ensures d.Ok? && b[0] & 0x01 == 0 ==> d.value.0.min.None?
    ensures d.Ok? && b[0] & 0x02 == 0 ==> d.value.0.max.None?
    // no bound present: only the flags byte is consumed
    ensures |b| > 0 && b[0] & 0x03 == 0 ==> d == Ok((Range(None, None), b[1..]))
    // min present: it is the first thing read after the flags byte
    ensures |b| > 0 && b[0] & 0x01 != 0 && d.Ok? ==>
      opt.decode(b[1..]).Ok? && d.value.0.min == opt.decode(b[1..]).value.0
    // min present, max absent: nothing is read after min
    ensures |b| > 0 && b[0] & 0x03 == 0x01 && d.Ok? ==> d.value.1 == opt.decode(b[1..]).value.1
    // min absent, max present: max is read straight after the flags byte
    ensures |b| > 0 && b[0] & 0x03 == 0x02 ==>
      (d.Ok? <==> opt.decode(b[1..]).Ok?) &&
      (d.Ok? ==> d.value == (Range(None, opt.decode(b[1..]).value.0), opt.decode(b[1..]).value.1))
    // both present: max is read from what follows min, never before it
    ensures |b| > 0 && b[0] & 0x03 == 0x03 && d.Ok? ==>
      opt.decode(b[1..]).Ok? &&
      var afterMin := opt.decode(b[1..]).value.1;
      opt.decode(afterMin).Ok? &&
      d.value == (Range(opt.decode(b[1..]).value.0, opt.decode(afterMin).value.0), opt.decode(afterMin).value.1)
  {
    match ReadByte(b)
    case Err(e) => Err(e)
    case Ok((flags, r0)) =>
      match ReadOptionIf(flags & 0x01 != 0, opt, r0)
      case Err(e) => Err(e)
      case Ok((min, r1)) =>
        match ReadOptionIf(flags & 0x02 != 0, opt, r1)
        case Err(e) => Err(e)
        case Ok((max, r2)) => Ok((Range(min, max), r2))
  }

  /** The decoder that mirrors `EncodeRange`: the same steps, reading the bare
      `T` that the encoder writes for a present bound. */
  function DecodeRange<T>(bound: Codec<T>, b: Bytes): (d: Decoded<Range<T>>)
    ensures d.Ok? ==> |b| > 0
    ensures d.Ok? ==> (d.value.0.min.Some? <==> b[0] & 0x01 != 0)
    ensures d.Ok? ==> (d.value.0.max.Some? <==> b[0] & 0x02 != 0)
  {
    DecodeRangeAsWritten(Bare(bound), b)
  }

  function RangeCodec<T>(bound: Codec<T>): Codec<Range<T>> {
    Codec(r => EncodeRange(bound, r), r => |EncodeRange(bound, r)|, b => DecodeRange(bound, b))
  }

  lemma {:induction false} DecodeEncodeRange<T(!new)>(bound: Codec<T>, r: Range<T>, rest: Bytes)
    requires RoundTrip(bound)
    ensures DecodeRange(bound, EncodeRange(bound, r) + rest) == Ok((r, rest))
  {
    var minBytes, maxBytes := OptionalBytes(bound, r.min), OptionalBytes(bound, r.max);
    var input := EncodeRange(bound, r) + rest;
    assert input == [RangeFlags(r)] + (minBytes + (maxBytes + rest));
    assert input[1..] == minBytes + (maxBytes + rest);
    ReadBareGated(bound, r.min, maxBytes + rest);
    ReadBareGated(bound, r.max, rest);
  }

  /** The mirrored range codec round-trips whenever its bound codec does. */
  lemma RangeCodecRoundTrip<T(!new)>(bound: Codec<T>)
    requires RoundTrip(bound)
    ensures RoundTrip(RangeCodec(bound))
  {
    forall r: Range<T>, rest: Bytes
      ensures RangeCodec(bound).decode(RangeCodec(bound).encode(r) + rest) == Ok((r, rest))
    {
      DecodeEncodeRange(bound, r, rest);
    }
  }

  /** A range without bounds is the single byte 0x00, and the source's decoder
      reads it back, whatever its `Option<T>` decoder does. */
  lemma UnboundedRange<T>(bound: Codec<T>, opt: Codec<Option<T>>, rest: Bytes)
    ensures EncodeRange(bound, Range(None, None)) == [0x00]
    ensures DecodeRangeAsWritten(opt, [0x00] + rest) == Ok((Range(None, None), rest))
    ensures DecodeRange(bound, [0x00] + rest) == Ok((Range(None, None), rest))
  {
    assert ([0x00] + rest)[1..] == rest;
  }

  function Zeros(n: nat): (z: Bytes)
    ensures |z| == n
  {
    seq(n, _ => 0x00)
  }

  /** Hypothesis: every encoding has `width` bytes and every `width`-byte string
      is the encoding of some value, as for the big-endian `i32`, `i64` and the
      bit pattern of an `f32`. */
  ghost predicate FixedWidth<T(!new)>(c: Codec<T>, width: nat) {
    && (forall v: T :: |c.encode(v)| == width)
    && (forall s: Bytes :: |s| == width ==> c.decode(s).Ok? && c.encode(c.decode(s).value.0) == s)
  }

  /** The source's decoder loses a present bound: with a fixed-width bound type,
      no `Option<T>` decoder that round-trips its own encodings can read every
      bare bound the encoder writes.  Its encoding of `None`, cut or padded to
      the bound's width, is the bare encoding of some `v`, and reading
      `Range(Some(v), None)` back yields `min == None`. */
  lemma AsWrittenLosesBound<T(!new)>(bound: Codec<T>, width: nat, opt: Codec<Option<T>>)
    requires FixedWidth(bound, width) && RoundTrip(opt)
    ensures exists v: T, rest: Bytes ::
      DecodeRangeAsWritten(opt, EncodeRange(bound, Range(Some(v), None)) + rest) != Ok((Range(Some(v), None), rest))
  {
    var e := opt.encode(None);
    var s: Bytes, rest: Bytes, after: Bytes;
    if |e| >= width {
      s, rest, after := e[..width], e[width..], [];
      assert e + after == s + rest;
    } else {
      s, rest, after := e + Zeros(width - |e|), [], Zeros(width - |e|);
      assert e + after == s + rest;
    }
    assert opt.decode(s + rest) == Ok((None, after));
    var v := bound.decode(s).value.0;
    assert bound.encode(v) == s;
    var input := EncodeRange(bound, Range(Some(v), None)) + rest;
    assert input == [0x01] + (s + rest);
    assert input[1..] == s + rest;
    assert DecodeRangeAsWritten(opt, input) == Ok((Range(None, None), after));
  }

  /** The integer range `{min: Some(0), max: None}`: written as
      `[0x01, 0x00, 0x00, 0x00, 0x00]`; the source's decoder, with an `Option<T>`
      decoder that reads a zero byte as `None`, returns `{None, None}` and leaves
      three bytes unread, while the mirrored decoder returns the range. */
  lemma AsWrittenIntegerExample(bound: Codec<i32>, opt: Codec<Option<i32>>)
    requires RoundTrip(bound) && bound.encode(0) == [0x00, 0x00, 0x00, 0x00] && ZeroIsNone(opt)
    ensures EncodeRange(bound, Range(Some(0), None)) == [0x01, 0x00, 0x00, 0x00, 0x00]
    ensures DecodeRangeAsWritten(opt, [0x01, 0x00, 0x00, 0x00, 0x00]) == Ok((Range(None, None), [0x00, 0x00, 0x00]))
    ensures DecodeRange(bound, [0x01, 0x00, 0x00, 0x00, 0x00]) == Ok((Range(Some(0), None), []))
  {
    var input: Bytes := [0x01, 0x00, 0x00, 0x00, 0x00];
    assert input[1..] == [0x00] + [0x00, 0x00, 0x00];
    DecodeEncodeRange(bound, Range(Some(0), None), []);
    assert EncodeRange(bound, Range(Some(0), None)) + [] == input;
  }

  /** The `Encode` impl, writing field by field. */
  method EncodeRangeTo<T>(bound: Codec<T>, r: Range<T>, w: Writer)
    modifies w
    ensures w.bytes == old(w.bytes) + EncodeRange(bound, r)
  {
    var flags := RangeFlags(r);
    w.WriteU8(flags);
    if r.min.Some? {
      w.Write(bound.encode(r.min.value));
    }
    if r.max.Some? {
      w.Write(bound.encode(r.max.value));
    }
  }

  /** The `Decode` impl, advancing the cursor field by field; with `Bare(bound)`
      for `opt` it is the mirrored decoder. */
  method DecodeRangeFrom<T>(opt: Codec<Option<T>>, rd: Reader) returns (res: Result<Range<T>, Error>)
    modifies rd
    ensures res == Value(DecodeRangeAsWritten(opt, old(rd.rest)))
    ensures Advanced(DecodeRangeAsWritten(opt, old(rd.rest)), rd.rest)
  {
    var f := rd.ReadU8();
    if f.Err? {
      return Err(f.error);
    }
    var flags := f.value;
    var min := rd.ReadGated(flags & 0x01 != 0, opt);
    if min.Err? {
      return Err(min.error);
    }
    var max := rd.ReadGated(flags & 0x02 != 0, opt);
    if max.Err? {
      return Err(max.error);
    }
    return Ok(Range(min.value, max.value));
  }
}
