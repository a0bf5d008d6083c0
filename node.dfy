/** The command-graph node codec of src/protocol/node.rs.  A node packs its
    variant tag and three presence bits into one flags byte; the fields follow
    in a fixed order, each optional one gated by its bit. */
module Nodes {
  import opened Wire
  import opened Brigadier
  import opened Parsers

  /** A resource identifier; its validation is not part of this model. */
  datatype Ident = Ident(text: string)

  /** `NodeData` with the `Literal` and `Argument` structs inlined.  Names are
      `BoundedString<0, 32767>`; the bound is checked by the string codec. */
  datatype NodeData =
    | Root
    | Literal(name: string)
    | Argument(name: string, parser: Parser, suggestionsType: Option<Ident>)

  /** `children` and `redirectNode` are VarInt indices into the node arena. */
  datatype Node = Node(children: seq<i32>, data: NodeData, isExecutable: bool, redirectNode: Option<i32>)

  /** A failed node decode: the variant tag 3, or a field's helper decoder failed. */
  datatype NodeError = InvalidNodeDataVariant | FieldError(cause: Error)

  /** The helper codecs the node's fields use.  The encoder writes the redirect
      as a bare `VarInt` and the suggestions type as a bare `Ident`; the source's
      decoder reads them as `Option<VarInt>` and `Option<Ident>`. */
  datatype NodeCodecs = NodeCodecs(
    varint: Codec<i32>,
    children: Codec<seq<i32>>,
    name: Codec<string>,
    parser: Codec<Parser>,
    ident: Codec<Ident>,
    optVarInt: Codec<Option<i32>>,
    optIdent: Codec<Option<Ident>>)

  /** Hypothesis: the helper codecs of the fields the encoder writes round-trip. */
  ghost predicate FieldsRoundTrip(c: NodeCodecs) {
    RoundTrip(c.varint) && RoundTrip(c.children) && RoundTrip(c.name) && RoundTrip(c.parser) && RoundTrip(c.ident)
  }

  /** Hypothesis for one node: the helper codecs read back the field values this
      node carries.  The source's parser codec meets it for some parsers only. */
  ghost predicate FieldsReadBack(c: NodeCodecs, n: Node) {
    ReadsBack(c.children, n.children)
    && (n.redirectNode.Some? ==> ReadsBack(c.varint, n.redirectNode.value))
    && DataReadsBack(c, n.data)
  }

  ghost predicate DataReadsBack(c: NodeCodecs, d: NodeData) {
    match d
    case Root => true
    case Literal(name) => ReadsBack(c.name, name)
    case Argument(name, parser, s) =>
      ReadsBack(c.name, name) && ReadsBack(c.parser, parser) && (s.Some? ==> ReadsBack(c.ident, s.value))
  }

  /** Helper codecs that round-trip read back every node's fields. */
  lemma FieldsRoundTripReadBack(c: NodeCodecs, n: Node)
    requires FieldsRoundTrip(c)
    ensures FieldsReadBack(c, n)
  {
  }

  // ----- mut_name -----

  /** The name `mut_name` borrows: that of a Literal or an Argument; `None` for
      Root, where the source panics. */
  function Name(n: Node): (r: Option<string>)
    ensures r.None? <==> n.data.Root?
  {
    match n.data
    case Root => None
    case Literal(name) => Some(name)
    case Argument(name, _, _) => Some(name)
  }

  /** Everything in a node except its name (the name blanked). */
  function Unnamed(n: Node): Node {
    match n.data
    case Root => n
    case Literal(_) => n.(data := Literal(""))
    case Argument(_, parser, suggestions) => n.(data := Argument("", parser, suggestions))
  }

  /** Assigning `s` through the reference `mut_name` returns; `None` for Root,
      where the source panics.  Only the name changes. */
  function WithName(n: Node, s: string): (r: Option<Node>)
    ensures r.None? <==> n.data.Root?
    ensures r.Some? ==> Name(r.value) == Some(s) && Unnamed(r.value) == Unnamed(n)
  {
    match n.data
    case Root => None
    case Literal(_) => Some(n.(data := Literal(s)))
    case Argument(_, parser, suggestions) => Some(n.(data := Argument(s, parser, suggestions)))
  }

  /** The name and the rest of a node determine it, so `mut_name` reaches the
      name and nothing else; writing back what was read changes nothing, and a
      second write overrides the first. */
  lemma NameLens(a: Node, b: Node, s: string, t: string)
    ensures Name(a) == Name(b) && Unnamed(a) == Unnamed(b) ==> a == b
    ensures !a.data.Root? ==> WithName(a, Name(a).value) == Some(a)
    ensures !a.data.Root? ==> WithName(WithName(a, s).value, t) == WithName(a, t)
  {
  }

  // ----- the flags byte -----

  /** `enum_id` */
  function EnumId(d: NodeData): (id: bv8)
    ensures id == 0 <==> d.Root?
    ensures id == 1 <==> d.Literal?
    ensures id == 2 <==> d.Argument?
  {
    match d
    case Root => 0
    case Literal(_) => 1
    case Argument(_, _, _) => 2
  }

  /** An Argument whose suggestions type is present. */
  predicate HasSuggestions(d: NodeData) {
    d.Argument? && d.suggestionsType.Some?
  }

  /** The flags byte: tag in bits 0-1 (never 3), then executable, redirect
      present and (Argument only) suggestions present. */
  function Flags(n: Node): (f: bv8)
    ensures f & 0x03 == EnumId(n.data) && f & 0x03 != 3
    ensures (f & 0x04 != 0) == n.isExecutable
    ensures (f & 0x08 != 0) == n.redirectNode.Some?
    ensures (f & 0x10 != 0) == HasSuggestions(n.data)
    ensures f & 0xE0 == 0
  {
    EnumId(n.data)
    | (BoolByte(n.isExecutable) << 2)
    | (BoolByte(n.redirectNode.Some?) << 3)
    | (BoolByte(HasSuggestions(n.data)) << 4)
  }

  // ----- encoding -----

  /** The variant's fields as `Encode for Node` writes them: nothing for Root,
      the name for a Literal, and name, parser and the suggestions type (when
      present) for an Argument. */
  function DataBytes(c: NodeCodecs, d: NodeData): (b: Bytes)
    ensures d.Root? ==> b == []
  {
    match d
    case Root => []
    case Literal(name) => c.name.encode(name)
    case Argument(name, parser, suggestions) =>
      c.name.encode(name) + c.parser.encode(parser) + OptionalBytes(c.ident, suggestions)
  }

  /** `Encode for Node`: flags, children, redirect if present, then the variant's
      fields (nothing, the name, or name, parser and suggestions if present). */
  function Encode(c: NodeCodecs, n: Node): (b: Bytes)
    ensures |b| > 0 && b[0] == Flags(n)
  {
    [Flags(n)] + c.children.encode(n.children) + OptionalBytes(c.varint, n.redirectNode) + DataBytes(c, n.data)
  }

  // ----- decoding -----

  /** The variant's fields, selected by the tag in `flags`; the suggestions
      type, when bit 0x10 is set, is read with `suggestions`. */
  function DecodeData(c: NodeCodecs, suggestions: Codec<Option<Ident>>, flags: bv8, b: Bytes): (r: Result<(NodeData, Bytes), NodeError>)
    ensures flags & 0x03 == 0 ==> r == Ok((Root, b))
    ensures r == Err(InvalidNodeDataVariant) <==> flags & 0x03 == 3
    ensures r.Ok? ==> EnumId(r.value.0) == flags & 0x03
    ensures r.Ok? && flags & 0x10 == 0 ==> !HasSuggestions(r.value.0)
  {
    var enumId := flags & 0x03;
    if enumId == 0 then
      Ok((Root, b))
    else if enumId == 1 then
      match c.name.decode(b)
      case Err(e) => Err(FieldError(e))
      case Ok((name, r1)) => Ok((Literal(name), r1))
    else if enumId == 2 then
      match c.name.decode(b)
      case Err(e) => Err(FieldError(e))
      case Ok((name, r1)) =>
        match c.parser.decode(r1)
        case Err(e) => Err(FieldError(e))
        case Ok((parser, r2)) =>
          match ReadOptionIf(flags & 0x10 != 0, suggestions, r2)
          case Err(e) => Err(FieldError(e))
          case Ok((s, r3)) => Ok((Argument(name, parser, s), r3))
    else
      Err(InvalidNodeDataVariant)
  }

  /** `Decode for Node` as the source writes it: flags, then the redirect (read
      as `Option<VarInt>`) when bit 0x08 is set, then the children, then the
      variant's fields with the suggestions type read as `Option<Ident>`. */
  function DecodeAsWritten(c: NodeCodecs, b: Bytes): (r: Result<(Node, Bytes), NodeError>)
    ensures r.Ok? ==> |b| > 0
    ensures r.Ok? ==> EnumId(r.value.0.data) == b[0] & 0x03
    ensures r.Ok? ==> r.value.0.isExecutable == (b[0] & 0x04 != 0)
    ensures r.Ok? && b[0] & 0x08 == 0 ==> r.value.0.redirectNode.None?
    ensures r.Ok? && b[0] & 0x10 == 0 ==> !HasSuggestions(r.value.0.data)
    ensures r == Err(InvalidNodeDataVariant) ==> |b| > 0 && b[0] & 0x03 == 3
    ensures |b| > 0 && b[0] & 0x03 == 3 ==> r.Err?
  {
    match ReadByte(b)
    case Err(e) => Err(FieldError(e))
    case Ok((flags, r0)) =>
      var isExecutable := flags & 0x04 != 0;
      match ReadOptionIf(flags & 0x08 != 0, c.optVarInt, r0)
      case Err(e) => Err(FieldError(e))
      case Ok((redirect, r1)) =>
        match c.children.decode(r1)
        case Err(e) => Err(FieldError(e))
        case Ok((children, r2)) =>
          match DecodeData(c, c.optIdent, flags, r2)
          case Err(e) => Err(e)
          case Ok((data, r3)) => Ok((Node(children, data, isExecutable, redirect), r3))
  }

  /** The decoder that mirrors `Encode`: flags, children, then the bare redirect
      `VarInt` when bit 0x08 is set, then the variant's fields with a bare `Ident`
      when bit 0x10 is set. */
  function Decode(c: NodeCodecs, b: Bytes): (r: Result<(Node, Bytes), NodeError>)
    ensures r.Ok? ==> |b| > 0
    ensures r.Ok? ==> EnumId(r.value.0.data) == b[0] & 0x03
    ensures r.Ok? ==> r.value.0.isExecutable == (b[0] & 0x04 != 0)
    ensures r.Ok? ==> (r.value.0.redirectNode.Some? <==> b[0] & 0x08 != 0)
    ensures r.Ok? ==> (HasSuggestions(r.value.0.data) <==> r.value.0.data.Argument? && b[0] & 0x10 != 0)
    ensures r == Err(InvalidNodeDataVariant) ==> |b| > 0 && b[0] & 0x03 == 3
    ensures |b| > 0 && b[0] & 0x03 == 3 ==> r.Err?
  {
    match ReadByte(b)
    case Err(e) => Err(FieldError(e))
    case Ok((flags, r0)) =>
      var isExecutable := flags & 0x04 != 0;
      match c.children.decode(r0)
      case Err(e) => Err(FieldError(e))
      case Ok((children, r1)) =>
        match ReadOptionIf(flags & 0x08 != 0, Bare(c.varint), r1)
        case Err(e) => Err(FieldError(e))
        case Ok((redirect, r2)) =>
          match DecodeData(c, Bare(c.ident), flags, r2)
          case Err(e) => Err(e)
          case Ok((data, r3)) => Ok((Node(children, data, isExecutable, redirect), r3))
  }

  // ----- round trips -----

  lemma {:induction false} DataRoundTrip(c: NodeCodecs, suggestions: Codec<Option<Ident>>, flags: bv8, d: NodeData, rest: Bytes)
    requires DataReadsBack(c, d)
    requires flags & 0x03 == EnumId(d)
    requires (flags & 0x10 != 0) == HasSuggestions(d)
    requires HasSuggestions(d) ==> suggestions == Bare(c.ident)
    ensures DecodeData(c, suggestions, flags, DataBytes(c, d) + rest) == Ok((d, rest))
  {
    match d
    case Root =>
      assert DataBytes(c, d) + rest == rest;
    case Literal(name) =>
      assert c.name.decode(c.name.encode(name) + rest) == Ok((name, rest));
    case Argument(name, parser, s) =>
      var sb := OptionalBytes(c.ident, s);
      assert DataBytes(c, d) + rest == c.name.encode(name) + (c.parser.encode(parser) + (sb + rest));
      assert c.name.decode(c.name.encode(name) + (c.parser.encode(parser) + (sb + rest)))
        == Ok((name, c.parser.encode(parser) + (sb + rest)));
      assert c.parser.decode(c.parser.encode(parser) + (sb + rest)) == Ok((parser, sb + rest));
      if s.Some? {
        ReadBareGated(c.ident, s, rest);
      } else {
        assert sb + rest == rest;
      }
  }

  /** The mirrored decoder reads back every node the encoder writes, and stops
      exactly at the end of its encoding (every node at all when the helper
      codecs round-trip, by `FieldsRoundTripReadBack`). */
  lemma {:induction false} DecodeEncode(c: NodeCodecs, n: Node, rest: Bytes)
    requires FieldsReadBack(c, n)
    ensures Decode(c, Encode(c, n) + rest) == Ok((n, rest))
  {
    var cb, rb, db := c.children.encode(n.children), OptionalBytes(c.varint, n.redirectNode), DataBytes(c, n.data);
    var input := Encode(c, n) + rest;
    assert input == [Flags(n)] + (cb + (rb + (db + rest)));
    assert input[1..] == cb + (rb + (db + rest));
    assert c.children.decode(cb + (rb + (db + rest))) == Ok((n.children, rb + (db + rest)));
    ReadBareGated(c.varint, n.redirectNode, db + rest);
    DataRoundTrip(c, Bare(c.ident), Flags(n), n.data, rest);
  }

  /** The source's decoder reads back every node without a redirect and without
      a suggestions type whose field values the helper codecs read back; the
      source's own parser codec reads back only some parsers (see
      `AsWrittenPlainWithSourceParsers` and `AsWrittenBoundedArgumentMisread`). */
  lemma {:induction false} AsWrittenDecodeEncodePlain(c: NodeCodecs, n: Node, rest: Bytes)
    requires FieldsReadBack(c, n)
    requires n.redirectNode.None? && !HasSuggestions(n.data)
    ensures DecodeAsWritten(c, Encode(c, n) + rest) == Ok((n, rest))
  {
    var cb, db := c.children.encode(n.children), DataBytes(c, n.data);
    var input := Encode(c, n) + rest;
    assert input == [Flags(n)] + (cb + (db + rest));
    assert input[1..] == cb + (db + rest);
    assert c.children.decode(cb + (db + rest)) == Ok((n.children, db + rest));
    DataRoundTrip(c, c.optIdent, Flags(n), n.data, rest);
  }

  /** Tag 3 is reported as "Invalid NodeData variant" by both decoders once
      the reads before the tag dispatch (redirect if flagged, children) succeed;
      with the decoders' own contracts this error arises for tag 3 and no other. */
  lemma InvalidVariant(c: NodeCodecs, b: Bytes)
    requires |b| > 0 && b[0] & 0x03 == 3
    ensures ReadOptionIf(b[0] & 0x08 != 0, c.optVarInt, b[1..]).Ok?
      && c.children.decode(ReadOptionIf(b[0] & 0x08 != 0, c.optVarInt, b[1..]).value.1).Ok?
      ==> DecodeAsWritten(c, b) == Err(InvalidNodeDataVariant)
    ensures c.children.decode(b[1..]).Ok?
      && ReadOptionIf(b[0] & 0x08 != 0, Bare(c.varint), c.children.decode(b[1..]).value.1).Ok?
      ==> Decode(c, b) == Err(InvalidNodeDataVariant)
  {
  }

  /** A field whose presence bit is clear is not read: the decoder given for it
      is never consulted. */
  lemma AbsentFieldsNotRead(c: NodeCodecs, b: Bytes, redirects: Codec<Option<i32>>, suggestions: Codec<Option<Ident>>)
    requires |b| > 0
    ensures b[0] & 0x08 == 0 ==> DecodeAsWritten(c.(optVarInt := redirects), b) == DecodeAsWritten(c, b)
    ensures b[0] & 0x10 == 0 ==> DecodeAsWritten(c.(optIdent := suggestions), b) == DecodeAsWritten(c, b)
  {
  }

  /** The Literal "say" with no children, not executable and without redirect. */
  const SAY: Node := Node([], Literal("say"), false, None)

  /** With a VarInt-count-prefixed list and a VarInt-length-prefixed string,
      SAY is `[0x01, 0x00, 0x03, 's', 'a', 'y']` and decodes back. */
  lemma SayLiteral(c: NodeCodecs)
    requires ReadsBack(c.children, []) && ReadsBack(c.name, "say")
    requires c.varint.encode(0) == [0x00] && c.varint.encode(3) == [0x03]
    requires c.children.encode([]) == c.varint.encode(0)
    requires c.name.encode("say") == c.varint.encode(3) + [0x73, 0x61, 0x79]
    ensures Encode(c, SAY) == [0x01, 0x00, 0x03, 0x73, 0x61, 0x79]
    ensures DecodeAsWritten(c, [0x01, 0x00, 0x03, 0x73, 0x61, 0x79]) == Ok((SAY, []))
    ensures Decode(c, [0x01, 0x00, 0x03, 0x73, 0x61, 0x79]) == Ok((SAY, []))
  {
    assert Flags(SAY) == 0x01;
    assert Encode(c, SAY) + [] == Encode(c, SAY);
    AsWrittenDecodeEncodePlain(c, SAY, []);
    DecodeEncode(c, SAY, []);
  }

  // ----- the source's decoder against its encoder -----

  /** A node with no children and a redirect: the source's decoder reads the
      redirect's presence from the children count 0x00, so the redirect is lost
      (when the `Option<VarInt>` decoder reads a zero byte as `None`). */
  lemma AsWrittenRedirectMisread(c: NodeCodecs, n: Node, rest: Bytes)
    requires ZeroIsNone(c.optVarInt)
    requires c.children.encode([]) == [0x00]
    requires n.children == [] && n.redirectNode.Some?
    ensures DecodeAsWritten(c, Encode(c, n) + rest).Ok? ==> DecodeAsWritten(c, Encode(c, n) + rest).value.0.redirectNode.None?
    ensures DecodeAsWritten(c, Encode(c, n) + rest) != Ok((n, rest))
  {
    var tail := OptionalBytes(c.varint, n.redirectNode) + DataBytes(c, n.data) + rest;
    var input := Encode(c, n) + rest;
    assert input == [Flags(n)] + ([0x00] + tail);
    assert input[1..] == [0x00] + tail;
    assert c.optVarInt.decode([0x00] + tail) == Ok((None, tail));
  }

  /** An Argument with a suggestions type (and no redirect): the source's decoder
      reads the first byte of the bare `Ident` as a presence flag, so any
      identifier whose encoding starts with a byte above 1 (its VarInt length, for
      2 to 127 bytes) makes decoding fail. */
  lemma AsWrittenSuggestionsRejected(c: NodeCodecs, n: Node, rest: Bytes)
    requires RejectsBadPresence(c.optIdent)
    requires n.redirectNode.None? && HasSuggestions(n.data)
    requires ReadsBack(c.children, n.children) && ReadsBack(c.name, n.data.name) && ReadsBack(c.parser, n.data.parser)
    requires |c.ident.encode(n.data.suggestionsType.value)| > 0 && c.ident.encode(n.data.suggestionsType.value)[0] > 1
    ensures DecodeAsWritten(c, Encode(c, n) + rest).Err?
  {
    var name, parser, id := n.data.name, n.data.parser, n.data.suggestionsType.value;
    var cb, nb, pb, ib := c.children.encode(n.children), c.name.encode(name), c.parser.encode(parser), c.ident.encode(id);
    var input := Encode(c, n) + rest;
    assert input == [Flags(n)] + (cb + (nb + (pb + (ib + rest))));
    assert input[1..] == cb + (nb + (pb + (ib + rest)));
    assert c.children.decode(cb + (nb + (pb + (ib + rest)))) == Ok((n.children, nb + (pb + (ib + rest))));
    assert c.name.decode(nb + (pb + (ib + rest))) == Ok((name, pb + (ib + rest)));
    assert c.parser.decode(pb + (ib + rest)) == Ok((parser, ib + rest));
    assert ib + rest == [ib[0]] + (ib[1..] + rest);
    assert c.optIdent.decode([ib[0]] + (ib[1..] + rest)).Err?;
  }

  // ----- the imperative impls -----

  /** `Encode for Node`, writing field by field. */
  method EncodeTo(c: NodeCodecs, n: Node, w: Writer)
    modifies w
    ensures w.bytes == old(w.bytes) + Encode(c, n)
  {
    var flags := Flags(n);
    w.WriteU8(flags);
    w.Write(c.children.encode(n.children));
    if n.redirectNode.Some? {
      w.Write(c.varint.encode(n.redirectNode.value));
    }
    match n.data {
      case Root =>
      case Literal(name) =>
        w.Write(c.name.encode(name));
      case Argument(name, parser, suggestions) =>
        w.Write(c.name.encode(name));
        w.Write(c.parser.encode(parser));
        if suggestions.Some? {
          w.Write(c.ident.encode(suggestions.value));
        }
    }
  }

  /** The `match enum_id` of `Decode for Node`, advancing the cursor. */
  method DecodeDataFrom(c: NodeCodecs, suggestions: Codec<Option<Ident>>, flags: bv8, rd: Reader)
    returns (res: Result<NodeData, NodeError>)
    modifies rd
    ensures res == Value(DecodeData(c, suggestions, flags, old(rd.rest)))
    ensures Advanced(DecodeData(c, suggestions, flags, old(rd.rest)), rd.rest)
  {
    var enumId := flags & 0x03;
    if enumId == 0 {
      res := Ok(Root);
    } else if enumId == 1 {
      var name := rd.Read(c.name);
      if name.Err? {
        return Err(FieldError(name.error));
      }
      res := Ok(Literal(name.value));
    } else if enumId == 2 {
      var name := rd.Read(c.name);
      if name.Err? {
        return Err(FieldError(name.error));
      }
      var parser := rd.Read(c.parser);
      if parser.Err? {
        return Err(FieldError(parser.error));
      }
      var s := rd.ReadGated(flags & 0x10 != 0, suggestions);
      if s.Err? {
        return Err(FieldError(s.error));
      }
      res := Ok(Argument(name.value, parser.value, s.value));
    } else {
      res := Err(InvalidNodeDataVariant);
    }
  }

  /** `Decode for Node` as the source writes it, advancing the cursor. */
  method DecodeFrom(c: NodeCodecs, rd: Reader) returns (res: Result<Node, NodeError>)
    modifies rd
    ensures res == Value(DecodeAsWritten(c, old(rd.rest)))
    ensures Advanced(DecodeAsWritten(c, old(rd.rest)), rd.rest)
  {
    var f := rd.ReadU8();
    if f.Err? {
      return Err(FieldError(f.error));
    }
    var flags := f.value;
    var isExecutable := flags & 0x04 != 0;
    var redirectNode := rd.ReadGated(flags & 0x08 != 0, c.optVarInt);
    if redirectNode.Err? {
      return Err(FieldError(redirectNode.error));
    }
    var children := rd.Read(c.children);
    if children.Err? {
      return Err(FieldError(children.error));
    }
    var data := DecodeDataFrom(c, c.optIdent, flags, rd);
    if data.Err? {
      return Err(data.error);
    }
    return Ok(Node(children.value, data.value, isExecutable, redirectNode.value));
  }

  // ----- nodes over the parser codecs -----

  /** An Argument whose integer parser has the bound `min = 0`. */
  const BOUNDED_ARGUMENT: Node := Node([], Argument("x", BrigadierInteger(Range(Some(0), None)), None), false, None)

  /** With the source's parser decoder in the parser field, even a node without
      redirect and suggestions type is not read back: the Argument's range bound
      is read as `Option<i32>`, comes back absent, and leaves three bytes. */
  lemma AsWrittenBoundedArgumentMisread(c: NodeCodecs, pc: ParserCodecs, optFloat: Codec<Option<F32>>,
                                        optInteger: Codec<Option<i32>>, optLong: Codec<Option<i64>>)
    requires RoundTrip(c.children) && RoundTrip(c.name)
    requires c.parser == ParserCodecAsWritten(pc, optFloat, optInteger, optLong)
    requires RoundTrip(pc.varint) && RoundTrip(pc.integer)
    requires pc.integer.encode(0) == [0x00, 0x00, 0x00, 0x00] && ZeroIsNone(optInteger)
    ensures DecodeAsWritten(c, Encode(c, BOUNDED_ARGUMENT))
      == Ok((BOUNDED_ARGUMENT.(data := Argument("x", BrigadierInteger(Range(None, None)), None)), [0x00, 0x00, 0x00]))
  {
    var n := BOUNDED_ARGUMENT;
    var cb, nb, pb := c.children.encode([]), c.name.encode("x"), c.parser.encode(n.data.parser);
    assert Flags(n) == 0x02;
    assert Encode(c, n) == [Flags(n)] + (cb + (nb + pb));
    assert Encode(c, n)[1..] == cb + (nb + pb);
    assert c.children.decode(cb + (nb + pb)) == Ok(([], nb + pb));
    BoundedArgumentDataMisread(c, pc, optFloat, optInteger, optLong);
  }

  /** The variant step of `AsWrittenBoundedArgumentMisread`. */
  lemma BoundedArgumentDataMisread(c: NodeCodecs, pc: ParserCodecs, optFloat: Codec<Option<F32>>,
                                   optInteger: Codec<Option<i32>>, optLong: Codec<Option<i64>>)
    requires RoundTrip(c.name)
    requires c.parser == ParserCodecAsWritten(pc, optFloat, optInteger, optLong)
    requires RoundTrip(pc.varint) && RoundTrip(pc.integer)
    requires pc.integer.encode(0) == [0x00, 0x00, 0x00, 0x00] && ZeroIsNone(optInteger)
    ensures DecodeData(c, c.optIdent, 0x02, c.name.encode("x") + c.parser.encode(BOUNDED_ARGUMENT.data.parser))
      == Ok((Argument("x", BrigadierInteger(Range(None, None)), None), [0x00, 0x00, 0x00]))
  {
    var p := BOUNDED_ARGUMENT.data.parser;
    var nb, pb := c.name.encode("x"), c.parser.encode(p);
    assert c.name.decode(nb + pb) == Ok(("x", pb));
    assert pb == EncodeParser(pc, p) + [];
    AsWrittenIntegerParserMisread(pc, optFloat, optInteger, optLong, []);
    var tail: Bytes := [0x00, 0x00, 0x00];
    assert tail + [] == tail;
    assert c.parser.decode(pb) == DecodeParserAsWritten(pc, optFloat, optInteger, optLong, EncodeParser(pc, p) + []);
    assert c.parser.decode(pb) == Ok((BrigadierInteger(Range(None, None)), [0x00, 0x00, 0x00]));
    var flags: bv8 := 0x02;
    assert flags & 0x03 == 2 && flags & 0x10 == 0;
    assert ReadOptionIf(false, c.optIdent, [0x00, 0x00, 0x00]) == Ok((None, [0x00, 0x00, 0x00]));
  }

  /** With the mirrored parser codec in the parser field, the mirrored node
      decoder reads back every node. */
  lemma DecodeEncodeWithParsers(c: NodeCodecs, pc: ParserCodecs, n: Node, rest: Bytes)
    requires RoundTrip(c.varint) && RoundTrip(c.children) && RoundTrip(c.name) && RoundTrip(c.ident)
    requires c.parser == ParserCodec(pc) && PayloadsRoundTrip(pc)
    ensures Decode(c, Encode(c, n) + rest) == Ok((n, rest))
  {
    ParserCodecRoundTrip(pc);
    FieldsRoundTripReadBack(c, n);
    DecodeEncode(c, n, rest);
  }

  /** The source's decoder, with the source's parser codec in the parser field,
      reads back every node without redirect and suggestions type whose parser (if
      any) has no range bounds: Root, every Literal, and Arguments of a `bool`
      parser or an unbounded range. */
  lemma AsWrittenPlainWithSourceParsers(c: NodeCodecs, pc: ParserCodecs, optFloat: Codec<Option<F32>>,
                                        optInteger: Codec<Option<i32>>, optLong: Codec<Option<i64>>, n: Node, rest: Bytes)
    requires RoundTrip(c.children) && RoundTrip(c.name)
    requires c.parser == ParserCodecAsWritten(pc, optFloat, optInteger, optLong)
    requires RoundTrip(pc.varint) && RoundTrip(pc.boolean)
    requires n.redirectNode.None? && !HasSuggestions(n.data)
    requires n.data.Argument? ==> HasNoBounds(n.data.parser)
    ensures DecodeAsWritten(c, Encode(c, n) + rest) == Ok((n, rest))
  {
    if n.data.Argument? {
      AsWrittenReadsBackUnbounded(pc, optFloat, optInteger, optLong, n.data.parser);
    }
    AsWrittenDecodeEncodePlain(c, n, rest);
  }
}
