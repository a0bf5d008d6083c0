# Command-graph node and entity primitive codecs

This project models two pieces of the game server's wire-protocol codec and
proves properties about them.

- **The command-graph node codec** (`src/protocol/node.rs`). A `Node` holds:
  - child indices;
  - a tagged union `NodeData` (`Root`, `Literal` or `Argument`);
  - an executable flag;
  - an optional redirect index.

  Encoding writes one flags byte, then the children, then the redirect if it
  is present, then the variant's fields. The flags byte holds the variant tag
  and three presence bits. An `Argument` carries a `Parser`, a tagged union of
  Brigadier parsers. The integer, long and float range parsers write a two-bit
  presence byte, then the bounds that are present.
- **The entity field primitives** (`src/entity/types.rs`):
  - `OptionalInt`, an `Option<u32>` stored as `n + 1`, with `0` for `None`;
  - the closed enums, written as the VarInt of their declaration index;
  - `MainArm`, written as one raw byte;
  - `Particle`, written as its explicit discriminant 21;
  - `VillagerData`, written as three VarInts, with level 1 by default.

The wire is a `seq<bv8>`. A decoder returns the decoded value together with the
bytes that follow it.

The helper types these files use are not defined here: VarInt,
`BoundedString`, `Vec<T>`, `Option<T>`, `Ident`, `bool` and the fixed-width
numbers. Each appears as a `Codec<T>` parameter, a record holding an encode
function, an `encoded_len` function and a decode function. Every law a proof
needs of such a helper is an explicit precondition:

- `RoundTrip`: decoding an encoding gives the value back and stops where the
  encoding ends.
- `LenAgrees`: `encoded_len` equals the length of the encoding.
- `ZeroIsNone` and `RejectsBadPresence`: how an `Option<T>` decoder treats its
  first byte.
- `FixedWidth`: every encoding has the same width, and every string of that
  width is an encoding.

The pure functions state the byte layout. The imperative methods follow the
source's `Encode` and `Decode` impls:

- `Wire.Writer` and `Wire.Reader` are classes that stand for the `impl Write`
  sink and the `&mut &[u8]` cursor.
- The methods write and read one field at a time.
- Each method's postcondition ties the new writer or reader state to the pure
  function.

Modules:

- `Wire` (`wire.dfy`): bytes, fixed-width integers, `Option` and `Result`, the
  helper-codec record and its laws, `Writer` and `Reader`.
- `Brigadier` (`brigadier.dfy`): the three range parsers, as one generic
  `Range<T>`.
- `Parsers` (`parser.dfy`): the `Parser` union and its tag ids.
- `Nodes` (`node.dfy`): the node codec and `mut_name`.
- `EntityTypes` (`entity_types.dfy`): everything in `src/entity/types.rs`.

Two facts about the code shape the model:

- `src/entity/types.rs` has no `Decode` for any of its enums, so no enum
  decoder is modelled.
- The node decoder in `src/protocol/node.rs` does not read back every node
  that its encoder writes; see "## Findings".

## Model

| member | source | states |
|---|---|---|
| Wire.BoolByte | src/protocol/node.rs:36-42 | `b as u8` is 0 or 1, and it is 1 exactly when `b` holds |
| Wire.ReadByte | src/protocol/node.rs:70 | `read_u8` fails exactly on empty input; otherwise it yields the first byte and the rest |
| Wire.OptionalBytes | src/protocol/node.rs:48-50 | an absent optional field writes no bytes |
| Wire.ReadBareGated | src/protocol/node.rs:48-50 | a gated field, written only when present, is read back when its presence bit is taken from the value |
| Wire.Writer.WriteU8 | src/protocol/node.rs:45 | `write_u8` appends exactly one byte |
| Wire.Reader.ReadU8 | src/protocol/node.rs:70 | the cursor's `read_u8` returns what `ReadByte` gives and advances past the byte |
| Wire.Reader.ReadGated | src/protocol/node.rs:73-77 | a field gated by a flag bit is decoded only when the bit is set, and is `None` otherwise without moving the cursor |
| Brigadier.RangeFlags | src/protocol/node.rs:147 | bit 0 is set iff min is present, bit 1 iff max is present, and no other bit is set (the same code is at lines 184 and 221) |
| Brigadier.EncodeRange | src/protocol/node.rs:145-157 | the encoding starts with the flags byte; a range without bounds is `[0x00]` |
| Brigadier.DecodeRangeAsWritten | src/protocol/node.rs:159-174 | the source's decoder: a clear bit gives an absent bound, with no bytes read; min is read before max (the same code is at lines 196-211 and 233-248) |
| Brigadier.DecodeRange | src/protocol/node.rs:159-174 | the mirrored decoder: on success, each bound is present iff its bit is set |
| Brigadier.DecodeEncodeRange | src/protocol/node.rs:145-174 | the mirrored decoder reads back every range and stops where its encoding ends |
| Brigadier.RangeCodecRoundTrip | src/protocol/node.rs:145-174 | a range codec built on a round-tripping bound codec round-trips |
| Brigadier.UnboundedRange | src/protocol/node.rs:145-174 | `{None, None}` is `[0x00]`, and both decoders read it back |
| Brigadier.AsWrittenLosesBound | src/protocol/node.rs:162-171 | for a fixed-width bound type, no round-tripping `Option<T>` decoder reads back every range with a present min |
| Brigadier.AsWrittenIntegerExample | src/protocol/node.rs:196-211 | `{Some(0), None}` is written as `[0x01, 0, 0, 0, 0]`; the source's decoder returns `{None, None}` with three bytes unread, while the mirrored decoder returns the range |
| Brigadier.EncodeRangeTo | src/protocol/node.rs:145-157 | the writer ends with the flags byte, then min if present, then max if present |
| Brigadier.DecodeRangeFrom | src/protocol/node.rs:159-174 | the field-by-field decode returns what `DecodeRangeAsWritten` returns and leaves the cursor after what it consumed |
| Parsers.ParserId | src/protocol/node.rs:127-137 | Bool has id 0, Float 1, Integer 3 and Long 4, each id exactly for its variant (id 2 is commented out) |
| Parsers.PayloadBytes | src/protocol/node.rs:127-137 | the payload of a range parser starts with that range's flags byte |
| Parsers.EncodeParser | src/protocol/node.rs:127-137 | the encoding is `VarInt(id)` followed by the payload: the VarInt read over it gives the id and leaves exactly the payload |
| Parsers.DecodeParserAsWritten | src/protocol/node.rs:127-137 | the source's parser decoder, whose range payloads are read by the source's range decoder: a decoded parser's id is the id read, and an undeclared id is a decode error |
| Parsers.DecodeParser | src/protocol/node.rs:127-137 | the same dispatch over the mirrored range decoder: a decoded parser's id is the id read, and an undeclared id is a decode error |
| Parsers.DecodeEncodeParser | src/protocol/node.rs:127-137 | every parser is read back from `VarInt(id)` followed by its payload |
| Parsers.ParserCodecRoundTrip | src/protocol/node.rs:127-137 | the parser codec meets the round-trip law that the node codec assumes for its parser field |
| Parsers.AsWrittenIntegerParserMisread | src/protocol/node.rs:127-137 | the source's parser decoder reads `BrigadierInteger {Some(0), None}` back as `{None, None}`, leaving three bytes unread |
| Parsers.AsWrittenReadsBackUnbounded | src/protocol/node.rs:127-137 | the source's parser codec reads back every `bool` parser and every range parser with neither bound, whatever its `Option<T>` decoders do |
| Parsers.AsWrittenDecodeUnbounded | src/protocol/node.rs:127-137 | the source's parser decoder, over the encoding of a parser without range bounds and any following bytes, returns that parser and exactly those bytes |
| Nodes.Name | src/protocol/node.rs:18-24 | `mut_name` has a target exactly when the node is not Root |
| Nodes.WithName | src/protocol/node.rs:18-24 | assigning through `mut_name` fails exactly for Root; otherwise the name becomes `s` and the rest of the node is unchanged |
| Nodes.NameLens | src/protocol/node.rs:18-24 | the name and the rest of the node together determine the node; writing back the name read changes nothing; a second write overrides the first |
| Nodes.EnumId | src/protocol/node.rs:29-33 | the tag is 0, 1 or 2 exactly for Root, Literal or Argument |
| Nodes.Flags | src/protocol/node.rs:35-43 | bits 0-1 are the tag and never 3; 0x04 is set iff executable; 0x08 iff a redirect is present; 0x10 iff the node is an Argument with a suggestions type; bits 5-7 are clear |
| Nodes.DataBytes | src/protocol/node.rs:52-62 | Root writes no variant fields; `DataRoundTrip` and `DecodeEncode` read the Literal and Argument fields back |
| Nodes.DecodeData | src/protocol/node.rs:81-97 | tag 0 reads nothing and gives Root; the decoded variant's tag is the flags' tag; "Invalid NodeData variant" is returned exactly for tag 3; with 0x10 clear no suggestions type is read |
| Nodes.Encode | src/protocol/node.rs:45-62 | the encoding is non-empty and starts with the flags byte |
| Nodes.DecodeAsWritten | src/protocol/node.rs:69-105 | the source's decoder takes the tag and `is_executable` from the flags; a clear 0x08 or 0x10 bit gives an absent field; tag 3 always fails, and "Invalid NodeData variant" is reported only for tag 3 |
| Nodes.Decode | src/protocol/node.rs:69-105 | the mirrored decoder: the same flag facts, with the redirect present iff 0x08 is set and the suggestions type present iff the node is an Argument and 0x10 is set |
| Nodes.DataRoundTrip | src/protocol/node.rs:82-97 | the variant's fields, written after the flags, are read back by the tag dispatch whenever the helper codecs read back those field values |
| Nodes.DecodeEncode | src/protocol/node.rs:45-105 | the mirrored decoder reads back every node whose field values the helper codecs read back, and stops where its encoding ends |
| Nodes.FieldsRoundTripReadBack | src/protocol/node.rs:45-105 | helper codecs that round-trip read back the fields of every node, so `DecodeEncode` then covers every node |
| Nodes.AsWrittenDecodeEncodePlain | src/protocol/node.rs:45-105 | the source's decoder reads back every node that has no redirect and no suggestions type, provided the helper codecs read back this node's children, name and parser |
| Nodes.AsWrittenPlainWithSourceParsers | src/protocol/node.rs:45-137 | with the source's parser codec, the source's decoder reads back Root, every Literal, and every Argument whose parser has no range bounds, when there is no redirect and no suggestions type |
| Nodes.InvalidVariant | src/protocol/node.rs:70-96 | when the tag is 3, and the reads before the dispatch (the redirect if flagged, the children) succeed, both decoders fail with "Invalid NodeData variant" |
| Nodes.AbsentFieldsNotRead | src/protocol/node.rs:72-94 | when a presence bit is clear, the decoder for that field is never consulted |
| Nodes.SayLiteral | src/protocol/node.rs:45-86 | the Literal "say" (no children, not executable, no redirect) is `[0x01, 0x00, 0x03, 's', 'a', 'y']`, and both decoders read it back; only the children and name codecs are assumed to read back |
| Nodes.AsWrittenRedirectMisread | src/protocol/node.rs:73-79 | for a node with a redirect and no children, the source's decoder loses the redirect |
| Nodes.AsWrittenSuggestionsRejected | src/protocol/node.rs:90-94 | the source's decoder fails on an Argument whose suggestions-type encoding starts with a byte above 1, when that node's children, name and parser read back |
| Nodes.AsWrittenBoundedArgumentMisread | src/protocol/node.rs:45-105 | with the source's parser decoder, the Argument `x` of `BrigadierInteger {Some(0), None}`, without redirect or suggestions type, comes back with `{None, None}` and three bytes unread |
| Nodes.BoundedArgumentDataMisread | src/protocol/node.rs:87-95 | the variant step of the misread: the Argument's fields decode to the unbounded parser, leaving three bytes |
| Nodes.DecodeEncodeWithParsers | src/protocol/node.rs:45-137 | with the mirrored parser codec in the parser field, the mirrored node decoder reads back every node |
| Nodes.EncodeTo | src/protocol/node.rs:28-65 | the field-by-field writes produce exactly `Encode` |
| Nodes.DecodeDataFrom | src/protocol/node.rs:81-97 | the tag dispatch on the cursor returns what `DecodeData` returns and advances by what it consumed |
| Nodes.DecodeFrom | src/protocol/node.rs:69-105 | the field-by-field decode returns what `DecodeAsWritten` returns and advances the cursor by what it consumed |
| EntityTypes.U32AsI32 | src/entity/types.rs:28 | `raw as i32` keeps the 32 bits: the result is congruent to `raw` modulo 2^32 |
| EntityTypes.I32AsU32 | src/entity/types.rs:38 | `as u32` keeps the 32 bits: the result is congruent to its input modulo 2^32 |
| EntityTypes.CastsInverse | src/entity/types.rs:26-40 | the two casts are inverse bijections |
| EntityTypes.NewOptionalInt | src/entity/types.rs:12-19 | construction fails exactly on `Some(u32::MAX)`; `None` gives raw 0, the default |
| EntityTypes.Get | src/entity/types.rs:21-23 | `get` is `None` exactly when raw is 0 |
| EntityTypes.NewGet | src/entity/types.rs:13-23 | `get` inverts a successful `new`; `Some(n)` with `n < u32::MAX` is stored as `n + 1`; every value is `new` of its `get`; the default reads as `None` |
| EntityTypes.EncodeOptionalInt | src/entity/types.rs:27-29 | the encoding is one VarInt, which reads back as the i32 with the raw value's bits |
| EntityTypes.OptionalIntLen | src/entity/types.rs:31-33 | `encoded_len` is the length of the encoding when the VarInt's is |
| EntityTypes.DecodeOptionalInt | src/entity/types.rs:36-40 | decoding succeeds exactly when the VarInt decode succeeds |
| EntityTypes.DecodeEncodeOptionalInt | src/entity/types.rs:26-40 | every `OptionalInt` is read back, including raw values above `i32::MAX`, which travel as negative VarInts |
| EntityTypes.OptionalIntCodecLawful | src/entity/types.rs:26-40 | the `OptionalInt` codec round-trips and its length agrees with its encoding |
| EntityTypes.EncodeOptionalIntTo | src/entity/types.rs:27-29 | the writer ends with the VarInt of `raw as i32` |
| EntityTypes.DecodeOptionalIntFrom | src/entity/types.rs:37-39 | the cursor read returns what `DecodeOptionalInt` returns and advances past the VarInt |
| EntityTypes.FacingOrdinal | src/entity/types.rs:67-85 | the ordinal is the variant's zero-based position in declaration order |
| EntityTypes.PoseOrdinal | src/entity/types.rs:160-187 | the ordinal is the variant's zero-based position in declaration order |
| EntityTypes.BoatKindOrdinal | src/entity/types.rs:207-226 | the ordinal is the variant's zero-based position in declaration order |
| EntityTypes.CatKindOrdinal | src/entity/types.rs:228-252 | the ordinal is the variant's zero-based position in declaration order |
| EntityTypes.FrogKindOrdinal | src/entity/types.rs:254-270 | the ordinal is the variant's zero-based position in declaration order |
| EntityTypes.PaintingKindOrdinal | src/entity/types.rs:272-315 | the ordinal is the variant's zero-based position in declaration order |
| EntityTypes.VillagerKindOrdinal | src/entity/types.rs:128-138 | the ordinal is the variant's zero-based position in declaration order |
| EntityTypes.VillagerProfessionOrdinal | src/entity/types.rs:140-158 | the ordinal is the variant's zero-based position in declaration order |
| EntityTypes.ParticleId | src/entity/types.rs:317-331 | `EntityEffect` travels as its explicit discriminant 21 |
| EntityTypes.EncodeFacing | src/entity/types.rs:77-85 | the encoding is one VarInt, which reads back as the facing's declaration index |
| EntityTypes.EncodePose | src/entity/types.rs:179-187 | the encoding is one VarInt, which reads back as the pose's declaration index |
| EntityTypes.EncodeBoatKind | src/entity/types.rs:218-226 | the encoding is one VarInt, which reads back as the boat kind's declaration index |
| EntityTypes.EncodeCatKind | src/entity/types.rs:244-252 | the encoding is one VarInt, which reads back as the cat kind's declaration index |
| EntityTypes.EncodeFrogKind | src/entity/types.rs:262-270 | the encoding is one VarInt, which reads back as the frog kind's declaration index |
| EntityTypes.EncodePaintingKind | src/entity/types.rs:307-315 | the encoding is one VarInt, which reads back as the painting kind's declaration index |
| EntityTypes.EncodeParticle | src/entity/types.rs:323-331 | the encoding is one VarInt, which reads back as 21 |
| EntityTypes.VarIntLen | src/entity/types.rs:82-84 | an ordinal enum's `encoded_len` is the length of its encoding when the VarInt's is |
| EntityTypes.OrdinalEncodingsInjective | src/entity/types.rs:67-315 | distinct variants of Facing, Pose, BoatKind, CatKind, FrogKind and PaintingKind get distinct encodings |
| EntityTypes.DefaultOrdinals | src/entity/types.rs:128-274 | each `#[default]` variant sits at its declared position: Pose 0, BoatKind 0, CatKind 1, FrogKind 0, PaintingKind 0, VillagerKind 2, VillagerProfession 0, MainArm 1 |
| EntityTypes.MainArmByte | src/entity/types.rs:189-200 | `as u8` is 0 for Left and 1 for Right, the declaration index |
| EntityTypes.EncodeMainArm | src/entity/types.rs:197-200 | `MainArm` is one byte, below 2 |
| EntityTypes.MainArmLen | src/entity/types.rs:202-204 | `encoded_len` is the length of the encoding |
| EntityTypes.MainArmEncoding | src/entity/types.rs:197-205 | `encoded_len` (always 1) equals the length of the encoding, and the byte determines the arm |
| EntityTypes.EncodeMainArmTo | src/entity/types.rs:197-200 | the writer ends with the single byte |
| EntityTypes.EncodeVillagerData | src/entity/types.rs:114-119 | three VarInts read over the encoding give the kind's index, the profession's index and the level, and nothing is left |
| EntityTypes.ThreeVarIntsReadBack | src/entity/types.rs:114-119 | three VarInts written one after the other are read back in order |
| EntityTypes.VillagerDataLen | src/entity/types.rs:121-125 | `encoded_len`, the sum of the three VarInt lengths, is the length of the encoding |
| EntityTypes.VillagerDataEncodingInjective | src/entity/types.rs:114-119 | the three VarInts (kind index, profession index, level), written in order, determine the villager data and where its encoding ends |
| EntityTypes.DefaultVillagerData | src/entity/types.rs:104-112 | the default is Plains, no profession, level 1, written as VarInts 2, 0 and 1 |
| EntityTypes.EncodeVillagerDataTo | src/entity/types.rs:114-119 | the three writes produce exactly the villager data's encoding |

## Left out

- `EulerAngle` (src/entity/types.rs:42-65) is not modelled, because its fields
  are `f32`. The model takes no position on floating point. A `BrigadierFloat`
  bound is an opaque 32-bit pattern, and no float equality is stated.
- The helper codecs' internals are not modelled: VarInt, `BoundedString` with
  its bound of 32767, `Vec<T>`, `Option<T>`, `Ident` validation, `bool`, `u8`
  and the big-endian numbers. They are parameters, and their laws are
  preconditions. `EncodeMainArm` takes the `u8` encoding to be the one raw
  byte.
- The `def_enum!` macro is not part of this model. `Parsers` assumes it writes
  `VarInt(id)` followed by the payload, and that it fails on an undeclared id.
- `Parsers.DecodeParser` uses the mirrored range decoder `Brigadier.DecodeRange`
  for its payloads, so the parser codec round-trips (see "## Findings").
  `Parsers.DecodeParserAsWritten` is the source's decoder, and
  `Parsers.ParserCodecAsWritten` is the codec built on it.
- Nodes.AsWrittenDecodeEncodePlain: needs only that the node's own parser
  reads back. The source's parser codec meets that for parsers without range
  bounds (`Nodes.AsWrittenPlainWithSourceParsers`), not for a Brigadier range
  with a present bound (`Nodes.AsWrittenBoundedArgumentMisread`), so such
  Arguments are not covered.
- Writer and reader I/O errors (`anyhow` from `Write`) are not modelled. Encoding
  is total. Decoding fails only through helper errors, truncated input or tag 3.
- A `BoundedString` that exceeds its bound makes the source's encoder fail.
  This model's encoders cannot fail, so that error is not represented.
- Enum decoders do not exist in src/entity/types.rs, so none are modelled.
- `mut_name` returns a mutable reference into the node. The model has a getter
  (`Nodes.Name`) and an update on values (`Nodes.WithName`); aliasing through
  the borrowed reference is not captured. The panic on Root is the `None`
  result.
- The mirrored node decoder `Nodes.Decode` is a pure function only. The
  field-by-field method `Nodes.DecodeFrom` follows the source's read order.
  `Brigadier.DecodeRangeFrom` with `Bare(bound)` as its decoder is the mirrored
  range decoder.
- The ordinal enums' single-write `Encode` impls (`VarInt(*self as i32).encode(w)`)
  are pure functions (`EncodeFacing` and the others), not writer methods.
  Writer methods model the impls that write more than the helper's own call
  (`EncodeOptionalIntTo`, `EncodeMainArmTo`, `EncodeVillagerDataTo`).
- `VillagerData::new` is the datatype's constructor.
- Child and redirect indices are not checked against a node arena, because the
  codec does not check them.
- The herobrine example server (start-up, tick loop, player counter) is I/O and
  concurrency, with no codec logic.

## Findings

| source | as written | input that shows it | evidently intended | confidence | as-written member | corrected member |
|---|---|---|---|---|---|---|
| src/protocol/node.rs:162-171 | a present bound is decoded at type `Option<T>`, but the encoder (lines 149-154) writes a bare `T`; the same holds at lines 199-208 and 236-245 | `BrigadierInteger { min: Some(0), max: None }` is written as `[0x01, 0x00, 0x00, 0x00, 0x00]`; if the `Option` decoder reads a zero byte as `None`, decoding returns `{None, None}` and leaves three bytes unread | decode the bare bound when its bit is set | high; not executed | Brigadier.AsWrittenIntegerExample | Brigadier.DecodeRange |
| src/protocol/node.rs:73-79 | the redirect is read before the children, at type `Option<VarInt>`; the encoder (lines 46-50) writes the children first, then a bare VarInt | a node with no children and redirect 5 is written as `[0x08, 0x00, 0x05, ...]`; the decoder reads the children count `0x00` as an absent redirect | read the children, then the bare VarInt redirect when bit 0x08 is set | high; not executed | Nodes.AsWrittenRedirectMisread | Nodes.Decode |
| src/protocol/node.rs:90-94 | the suggestions type is decoded at type `Option<Ident>`; the encoder (lines 58-60) writes a bare `Ident` | an Argument with suggestions type `minecraft:ask_server`: the identifier's length prefix `0x14` is read as a presence byte, and decoding fails | decode the bare `Ident` when bit 0x10 is set | high; not executed | Nodes.AsWrittenSuggestionsRejected | Nodes.Decode |
