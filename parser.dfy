/** The `Parser` tagged union of the command graph (`def_enum!` block of
    src/protocol/node.rs): a VarInt tag id followed by the variant's payload.
    The macro itself is not part of this model; the layout
    `VarInt(id) ++ payload` is its assumed behaviour. */
module Parsers {
  import opened Wire
  import opened Brigadier

  datatype Parser =
    | BrigadierBool(flag: bool)
    | BrigadierFloat(float: Range<F32>)
    | BrigadierInteger(integer: Range<i32>)
    | BrigadierLong(long: Range<i64>)

  /** The declared tag ids; id 2 (BrigadierDouble) is commented out in the source. */
  function ParserId(p: Parser): (id: i32)
    ensures id == 0 <==> p.BrigadierBool?
    ensures id == 1 <==> p.BrigadierFloat?
    ensures id == 3 <==> p.BrigadierInteger?
    ensures id == 4 <==> p.BrigadierLong?
  {
    match p
    case BrigadierBool(_) => 0
    case BrigadierFloat(_) => 1
    case BrigadierInteger(_) => 3
    case BrigadierLong(_) => 4
  }

  /** The helper codecs a parser's tag and payloads are built from. */
  datatype ParserCodecs = ParserCodecs(
    varint: Codec<i32>,
    boolean: Codec<bool>,
    float: Codec<F32>,
    integer: Codec<i32>,
    long: Codec<i64>)

  ghost predicate PayloadsRoundTrip(pc: ParserCodecs) {
    RoundTrip(pc.varint) && RoundTrip(pc.boolean) && RoundTrip(pc.float) && RoundTrip(pc.integer) && RoundTrip(pc.long)
  }

  /** The variant's payload: the `bool`, or the range with its flags byte first. */
  function PayloadBytes(pc: ParserCodecs, p: Parser): (b: Bytes)
    ensures p.BrigadierFloat? ==> |b| > 0 && b[0] == RangeFlags(p.float)
    ensures p.BrigadierInteger? ==> |b| > 0 && b[0] == RangeFlags(p.integer)
    ensures p.BrigadierLong? ==> |b| > 0 && b[0] == RangeFlags(p.long)
  {
    match p
    case BrigadierBool(flag) => pc.boolean.encode(flag)
    case BrigadierFloat(r) => EncodeRange(pc.float, r)
    case BrigadierInteger(r) => EncodeRange(pc.integer, r)
    case BrigadierLong(r) => EncodeRange(pc.long, r)
  }

  /** The `def_enum!` encoder: `VarInt(id)`, then the payload. */
  function EncodeParser(pc: ParserCodecs, p: Parser): (b: Bytes)
    ensures RoundTrip(pc.varint) ==> pc.varint.decode(b) == Ok((ParserId(p), PayloadBytes(pc, p)))
  {
    pc.varint.encode(ParserId(p)) + PayloadBytes(pc, p)
  }

  /** The `def_enum!` decoder over the source's range decoders: the tag id,
      then the payload of the variant it names, with each present range bound
      read by the `Option<T>` decoder given for its type; an undeclared id is an
      error. */
  function DecodeParserAsWritten(pc: ParserCodecs, optFloat: Codec<Option<F32>>, optInteger: Codec<Option<i32>>,
                                 optLong: Codec<Option<i64>>, b: Bytes): (d: Decoded<Parser>)
    ensures d.Ok? ==> pc.varint.decode(b).Ok? && ParserId(d.value.0) == pc.varint.decode(b).value.0
    ensures pc.varint.decode(b).Ok? && pc.varint.decode(b).value.0 !in {0, 1, 3, 4} ==> d.Err?
  {
    match pc.varint.decode(b)
    case Err(e) => Err(e)
    case Ok((id, r)) =>
      if id == 0 then MapDecoded(pc.boolean.decode(r), flag => BrigadierBool(flag))
      else if id == 1 then MapDecoded(DecodeRangeAsWritten(optFloat, r), range => BrigadierFloat(range))
      else if id == 3 then MapDecoded(DecodeRangeAsWritten(optInteger, r), range => BrigadierInteger(range))
      else if id == 4 then MapDecoded(DecodeRangeAsWritten(optLong, r), range => BrigadierLong(range))
      else Err(Malformed("unknown parser id"))
  }

  /** The decoder that mirrors `EncodeParser`: the same dispatch, reading the
      bare bounds the range encoders write. */
  function DecodeParser(pc: ParserCodecs, b: Bytes): (d: Decoded<Parser>)
    ensures d.Ok? ==> pc.varint.decode(b).Ok? && ParserId(d.value.0) == pc.varint.decode(b).value.0
    ensures pc.varint.decode(b).Ok? && pc.varint.decode(b).value.0 !in {0, 1, 3, 4} ==> d.Err?
  {
    DecodeParserAsWritten(pc, Bare(pc.float), Bare(pc.integer), Bare(pc.long), b)
  }

  /** The source's parser codec. */
  function ParserCodecAsWritten(pc: ParserCodecs, optFloat: Codec<Option<F32>>, optInteger: Codec<Option<i32>>,
                                optLong: Codec<Option<i64>>): Codec<Parser> {
    Codec(p => EncodeParser(pc, p), p => |EncodeParser(pc, p)|, b => DecodeParserAsWritten(pc, optFloat, optInteger, optLong, b))
  }

  function ParserCodec(pc: ParserCodecs): Codec<Parser> {
    Codec(p => EncodeParser(pc, p), p => |EncodeParser(pc, p)|, b => DecodeParser(pc, b))
  }

  lemma {:induction false} DecodeEncodeParser(pc: ParserCodecs, p: Parser, rest: Bytes)
    requires PayloadsRoundTrip(pc)
    ensures DecodeParser(pc, EncodeParser(pc, p) + rest) == Ok((p, rest))
  {
    var payload := PayloadBytes(pc, p);
    assert EncodeParser(pc, p) + rest == pc.varint.encode(ParserId(p)) + (payload + rest);
    assert pc.varint.decode(pc.varint.encode(ParserId(p)) + (payload + rest)) == Ok((ParserId(p), payload + rest));
    match p
    case BrigadierBool(flag) =>
      assert pc.boolean.decode(payload + rest) == Ok((flag, rest));
    case BrigadierFloat(r) =>
      DecodeEncodeRange(pc.float, r, rest);
    case BrigadierInteger(r) =>
      DecodeEncodeRange(pc.integer, r, rest);
    case BrigadierLong(r) =>
      DecodeEncodeRange(pc.long, r, rest);
  }

  /** The parser codec round-trips whenever its helper codecs do, so it meets
      the hypothesis the node codec places on its parser field. */
  lemma ParserCodecRoundTrip(pc: ParserCodecs)
    requires PayloadsRoundTrip(pc)
    ensures RoundTrip(ParserCodec(pc))
  {
    forall p: Parser, rest: Bytes
      ensures ParserCodec(pc).decode(ParserCodec(pc).encode(p) + rest) == Ok((p, rest))
    {
      DecodeEncodeParser(pc, p, rest);
    }
  }

  /** The integer parser `{min: Some(0), max: None}` under the source's decoder:
      with an `Option<i32>` decoder that reads a zero byte as `None`, the bound
      is lost and three bytes of it are left unread. */
  lemma AsWrittenIntegerParserMisread(pc: ParserCodecs, optFloat: Codec<Option<F32>>, optInteger: Codec<Option<i32>>,
                                      optLong: Codec<Option<i64>>, rest: Bytes)
    requires RoundTrip(pc.varint) && RoundTrip(pc.integer)
    requires pc.integer.encode(0) == [0x00, 0x00, 0x00, 0x00] && ZeroIsNone(optInteger)
    ensures DecodeParserAsWritten(pc, optFloat, optInteger, optLong, EncodeParser(pc, BrigadierInteger(Range(Some(0), None))) + rest)
      == Ok((BrigadierInteger(Range(None, None)), [0x00, 0x00, 0x00] + rest))
  {
    var p := BrigadierInteger(Range(Some(0), None));
    var payload: Bytes := [0x01, 0x00, 0x00, 0x00, 0x00];
    assert EncodeRange(pc.integer, Range(Some(0), None)) == payload;
    assert EncodeParser(pc, p) + rest == pc.varint.encode(3) + (payload + rest);
    assert pc.varint.decode(pc.varint.encode(3) + (payload + rest)) == Ok((3, payload + rest));
    assert (payload + rest)[1..] == [0x00] + ([0x00, 0x00, 0x00] + rest);
    assert optInteger.decode([0x00] + ([0x00, 0x00, 0x00] + rest)) == Ok((None, [0x00, 0x00, 0x00] + rest));
  }

  /** A parser whose payload the source's decoder does not misread: a `bool`,
      or a range with neither bound. */
  predicate HasNoBounds(p: Parser) {
    match p
    case BrigadierBool(_) => true
    case BrigadierFloat(r) => r == Range(None, None)
    case BrigadierInteger(r) => r == Range(None, None)
    case BrigadierLong(r) => r == Range(None, None)
  }

  /** The source's parser codec reads back every parser without range bounds,
      whatever its `Option<T>` decoders do: no bound is ever read. */
  lemma AsWrittenReadsBackUnbounded(pc: ParserCodecs, optFloat: Codec<Option<F32>>, optInteger: Codec<Option<i32>>,
                                    optLong: Codec<Option<i64>>, p: Parser)
    requires RoundTrip(pc.varint) && RoundTrip(pc.boolean)
    requires HasNoBounds(p)
    ensures ReadsBack(ParserCodecAsWritten(pc, optFloat, optInteger, optLong), p)
  {
    var codec := ParserCodecAsWritten(pc, optFloat, optInteger, optLong);
    forall rest: Bytes
      ensures codec.decode(codec.encode(p) + rest) == Ok((p, rest))
    {
      AsWrittenDecodeUnbounded(pc, optFloat, optInteger, optLong, p, rest);
    }
  }

  /** One stream of `AsWrittenReadsBackUnbounded`. */
  lemma AsWrittenDecodeUnbounded(pc: ParserCodecs, optFloat: Codec<Option<F32>>, optInteger: Codec<Option<i32>>,
                                 optLong: Codec<Option<i64>>, p: Parser, rest: Bytes)
    requires RoundTrip(pc.varint) && RoundTrip(pc.boolean)
    requires HasNoBounds(p)
    ensures DecodeParserAsWritten(pc, optFloat, optInteger, optLong, EncodeParser(pc, p) + rest) == Ok((p, rest))
  {
    var payload := PayloadBytes(pc, p);
    assert EncodeParser(pc, p) + rest == pc.varint.encode(ParserId(p)) + (payload + rest);
    assert pc.varint.decode(pc.varint.encode(ParserId(p)) + (payload + rest)) == Ok((ParserId(p), payload + rest));
    match p
    case BrigadierBool(flag) =>
      assert pc.boolean.decode(payload + rest) == Ok((flag, rest));
    case BrigadierFloat(r) =>
      assert payload + rest == [0x00] + rest;
      assert DecodeRangeAsWritten(optFloat, payload + rest) == Ok((r, rest));
    case BrigadierInteger(r) =>
      assert payload + rest == [0x00] + rest;
      assert DecodeRangeAsWritten(optInteger, payload + rest) == Ok((r, rest));
    case BrigadierLong(r) =>
      assert payload + rest == [0x00] + rest;
      assert DecodeRangeAsWritten(optLong, payload + rest) == Ok((r, rest));
  }
}
