/** The entity field primitives of src/entity/types.rs: the sentinel-encoded
    `OptionalInt`, the closed enums written as the VarInt of their declaration
    index, `MainArm` as a raw byte, and `VillagerData`. */
module EntityTypes {
  import opened Wire

  // ----- i32 / u32 reinterpretation -----

  /** `x as i32` for a `u32`: the i32 with the same 32 bits. */
  function U32AsI32(x: u32): (y: i32)
    ensures (y as int - x as int) % 0x1_0000_0000 == 0
  {
    if x < 0x8000_0000 then x as int as i32 else (x as int - 0x1_0000_0000) as i32
  }

  /** `y as u32` for an `i32`: the u32 with the same 32 bits. */
  function I32AsU32(y: i32): (x: u32)
    ensures (x as int - y as int) % 0x1_0000_0000 == 0
  {
    if y >= 0 then y as int as u32 else (y as int + 0x1_0000_0000) as u32
  }

  /** The two reinterpreting casts are inverse bijections. */
  lemma CastsInverse(x: u32, y: i32)
    ensures I32AsU32(U32AsI32(x)) == x
    ensures U32AsI32(I32AsU32(y)) == y
  {
  }

  // ----- OptionalInt -----

  const U32_MAX: u32 := 0xFFFF_FFFF

  /** An optional `u32` other than `u32::MAX`: raw 0 is `None`, raw `n + 1` is `Some(n)`. */
  datatype OptionalInt = OptionalInt(raw: u32)

  /** `#[derive(Default)]`: raw 0. */
  const DEFAULT_OPTIONAL_INT: OptionalInt := OptionalInt(0)

  /** `OptionalInt::new`: fails, rather than wrapping, exactly on `Some(u32::MAX)`. */
  function NewOptionalInt(n: Option<u32>): (r: Option<OptionalInt>)
    ensures r.None? <==> n == Some(U32_MAX)
    ensures n.None? ==> r == Some(DEFAULT_OPTIONAL_INT)
  {
    match n
    case None => Some(OptionalInt(0))
    case Some(v) => if v == U32_MAX then Option.None else Some(OptionalInt(v + 1))
  }

  /** `OptionalInt::get`: `raw.checked_sub(1)`. */
  function Get(o: OptionalInt): (r: Option<u32>)
    ensures r.None? <==> o.raw == 0
  {
    if o.raw == 0 then Option.None else Some(o.raw - 1)
  }

  /** `new` and `get` are inverse: every accepted input is stored as `n + 1`
      and read back, and every `OptionalInt` is the image of what it holds. */
  lemma NewGet(n: Option<u32>, o: OptionalInt)
    ensures NewOptionalInt(n).Some? ==> Get(NewOptionalInt(n).value) == n
    ensures n.Some? && n.value < U32_MAX ==> NewOptionalInt(n) == Some(OptionalInt(n.value + 1))
    ensures NewOptionalInt(Get(o)) == Some(o)
    ensures Get(DEFAULT_OPTIONAL_INT).None?
  {
  }

  // ----- VarInt encodings -----

  /** The VarInt encoding of `x`; it reads back as `x` and nothing more. */
  function VarIntBytes(varint: Codec<i32>, x: i32): (b: Bytes)
    ensures RoundTrip(varint) ==> varint.decode(b) == Ok((x, []))
  {
    var b := varint.encode(x);
    assert b + [] == b;
    b
  }

  /** `Encode for OptionalInt`: the VarInt of `raw as i32`, which reads back as
      the i32 with the raw value's bits. */
  function EncodeOptionalInt(varint: Codec<i32>, o: OptionalInt): (b: Bytes)
    ensures RoundTrip(varint) ==> varint.decode(b) == Ok((U32AsI32(o.raw), []))
  {
    VarIntBytes(varint, U32AsI32(o.raw))
  }

  /** `encoded_len`: that of the same VarInt. */
  function OptionalIntLen(varint: Codec<i32>, o: OptionalInt): (n: nat)
    ensures LenAgrees(varint) ==> n == |EncodeOptionalInt(varint, o)|
  {
    varint.encodedLen(U32AsI32(o.raw))
  }

  /** `Decode for OptionalInt`: a VarInt reinterpreted `as u32`. */
  function DecodeOptionalInt(varint: Codec<i32>, b: Bytes): (r: Decoded<OptionalInt>)
    ensures r.Ok? <==> varint.decode(b).Ok?
  {
    MapDecoded(varint.decode(b), (y: i32) => OptionalInt(I32AsU32(y)))
  }

  /** Every `OptionalInt`, including raw values above `i32::MAX` that travel as
      negative VarInts, decodes back from its encoding. */
  lemma DecodeEncodeOptionalInt(varint: Codec<i32>, o: OptionalInt, rest: Bytes)
    requires RoundTrip(varint)
    ensures DecodeOptionalInt(varint, EncodeOptionalInt(varint, o) + rest) == Ok((o, rest))
  {
  }

  function OptionalIntCodec(varint: Codec<i32>): Codec<OptionalInt> {
    Codec(o => EncodeOptionalInt(varint, o), o => OptionalIntLen(varint, o), b => DecodeOptionalInt(varint, b))
  }

  /** The OptionalInt codec satisfies the laws assumed of the helper codecs. */
  lemma OptionalIntCodecLawful(varint: Codec<i32>)
    requires RoundTrip(varint) && LenAgrees(varint)
    ensures RoundTrip(OptionalIntCodec(varint)) && LenAgrees(OptionalIntCodec(varint))
  {
  }

  method EncodeOptionalIntTo(varint: Codec<i32>, o: OptionalInt, w: Writer)
    modifies w
    ensures w.bytes == old(w.bytes) + EncodeOptionalInt(varint, o)
  {
    w.Write(varint.encode(U32AsI32(o.raw)));
  }

  method DecodeOptionalIntFrom(varint: Codec<i32>, rd: Reader) returns (r: Result<OptionalInt, Error>)
    modifies rd
    ensures r == Value(DecodeOptionalInt(varint, old(rd.rest)))
    ensures Advanced(DecodeOptionalInt(varint, old(rd.rest)), rd.rest)
  {
    var v := rd.Read(varint);
    if v.Err? {
      return Err(v.error);
    }
    r := Ok(OptionalInt(I32AsU32(v.value)));
  }

  // ----- ordinals -----

  datatype Facing = Down | Up | North | South | West | East
  datatype Pose = Standing | FallFlying | Sleeping | Swimming | SpinAttack | Sneaking | LongJumping
    | Dying | Croaking | UsingTongue | Roaring | Sniffing | Emerging | Digging
  datatype BoatKind = Oak | Spruce | Birch | Jungle | Acacia | DarkOak
  datatype CatKind = Tabby | Black | Red | Siamese | BritishShorthair | Calico | Persian | Ragdoll
    | White | Jellie | AllBlack
  datatype FrogKind = Temperate | Warm | Cold
  datatype PaintingKind = Kebab | Aztec | Alban | Aztec2 | Bomb | Plant | Wasteland | Pool | Courbet
    | Sea | Sunset | Creebet | Wanderer | Graham | Match | Bust | Stage | Void | SkullAndRoses
    | Wither | Fighters | Pointer | Pigscene | BurningSkull | Skeleton | Earth | Wind | Water
    | Fire | DonkeyKong
  datatype VillagerKind = Desert | Jungle | Plains | Savanna | Snow | Swamp | Taiga
  datatype VillagerProfession = None | Armorer | Butcher | Cartographer | Cleric | Farmer
    | Fisherman | Fletcher | Leatherworker | Librarian | Mason | Nitwit | Shepherd | Toolsmith
    | Weaponsmith
  datatype MainArm = Left | Right
  /** Declared with the explicit discriminant 21. */
  datatype Particle = EntityEffect

  // Each enum's variants in declaration order.
  const FACINGS: seq<Facing> := [Down, Up, North, South, West, East]
  const POSES: seq<Pose> := [Standing, FallFlying, Sleeping, Swimming, SpinAttack, Sneaking,
    LongJumping, Dying, Croaking, UsingTongue, Roaring, Sniffing, Emerging, Digging]
  const BOAT_KINDS: seq<BoatKind> := [Oak, Spruce, Birch, BoatKind.Jungle, Acacia, DarkOak]
  const CAT_KINDS: seq<CatKind> := [Tabby, Black, Red, Siamese, BritishShorthair, Calico, Persian,
    Ragdoll, White, Jellie, AllBlack]
  const FROG_KINDS: seq<FrogKind> := [Temperate, Warm, Cold]
  const PAINTING_KINDS: seq<PaintingKind> := [Kebab, Aztec, Alban, Aztec2, Bomb, Plant, Wasteland,
    Pool, Courbet, Sea, Sunset, Creebet, Wanderer, Graham, Match, Bust, Stage, Void, SkullAndRoses,
    Wither, Fighters, Pointer, Pigscene, BurningSkull, Skeleton, Earth, Wind, Water, Fire, DonkeyKong]
  const VILLAGER_KINDS: seq<VillagerKind> := [Desert, VillagerKind.Jungle, Plains, Savanna, Snow,
    Swamp, Taiga]
  const VILLAGER_PROFESSIONS: seq<VillagerProfession> := [VillagerProfession.None, Armorer, Butcher,
    Cartographer, Cleric, Farmer, Fisherman, Fletcher, Leatherworker, Librarian, Mason, Nitwit,
    Shepherd, Toolsmith, Weaponsmith]
  const MAIN_ARMS: seq<MainArm> := [Left, Right]

  /** `*self as i32`: an implicit discriminant, the variant's zero-based
      position in its declaration.  Each ordinal function states that position
      against the table above, so distinct variants get distinct ordinals. */
  function FacingOrdinal(f: Facing): (i: i32)
    ensures 0 <= i < |FACINGS| as i32 && FACINGS[i] == f
  {
    match f
    case Down => 0 case Up => 1 case North => 2 case South => 3 case West => 4 case East => 5
  }

  function PoseOrdinal(p: Pose): (i: i32)
    ensures 0 <= i < |POSES| as i32 && POSES[i] == p
  {
    match p
    case Standing => 0 case FallFlying => 1 case Sleeping => 2 case Swimming => 3
    case SpinAttack => 4 case Sneaking => 5 case LongJumping => 6 case Dying => 7 case Croaking => 8
    case UsingTongue => 9 case Roaring => 10 case Sniffing => 11 case Emerging => 12
    case Digging => 13
  }

  function BoatKindOrdinal(k: BoatKind): (i: i32)
    ensures 0 <= i < |BOAT_KINDS| as i32 && BOAT_KINDS[i] == k
  {
    match k
    case Oak => 0 case Spruce => 1 case Birch => 2 case Jungle => 3 case Acacia => 4
    case DarkOak => 5
  }

  function CatKindOrdinal(k: CatKind): (i: i32)
    ensures 0 <= i < |CAT_KINDS| as i32 && CAT_KINDS[i] == k
  {
    match k
    case Tabby => 0 case Black => 1 case Red => 2 case Siamese => 3 case BritishShorthair => 4
    case Calico => 5 case Persian => 6 case Ragdoll => 7 case White => 8 case Jellie => 9
    case AllBlack => 10
  }

  function FrogKindOrdinal(k: FrogKind): (i: i32)
    ensures 0 <= i < |FROG_KINDS| as i32 && FROG_KINDS[i] == k
  {
    match k
    case Temperate => 0 case Warm => 1 case Cold => 2
  }

  function PaintingKindOrdinal(k: PaintingKind): (i: i32)
    ensures 0 <= i < |PAINTING_KINDS| as i32 && PAINTING_KINDS[i] == k
  {
    match k
    case Kebab => 0 case Aztec => 1 case Alban => 2 case Aztec2 => 3 case Bomb => 4 case Plant => 5
    case Wasteland => 6 case Pool => 7 case Courbet => 8 case Sea => 9 case Sunset => 10
    case Creebet => 11 case Wanderer => 12 case Graham => 13 case Match => 14 case Bust => 15
    case Stage => 16 case Void => 17 case SkullAndRoses => 18 case Wither => 19 case Fighters => 20
    case Pointer => 21 case Pigscene => 22 case BurningSkull => 23 case Skeleton => 24
    case Earth => 25 case Wind => 26 case Water => 27 case Fire => 28 case DonkeyKong => 29
  }

  function VillagerKindOrdinal(k: VillagerKind): (i: i32)
    ensures 0 <= i < |VILLAGER_KINDS| as i32 && VILLAGER_KINDS[i] == k
  {
    match k
    case Desert => 0 case Jungle => 1 case Plains => 2 case Savanna => 3 case Snow => 4
    case Swamp => 5 case Taiga => 6
  }

  function VillagerProfessionOrdinal(p: VillagerProfession): (i: i32)
    ensures 0 <= i < |VILLAGER_PROFESSIONS| as i32 && VILLAGER_PROFESSIONS[i] == p
  {
    match p
    case None => 0 case Armorer => 1 case Butcher => 2 case Cartographer => 3 case Cleric => 4
    case Farmer => 5 case Fisherman => 6 case Fletcher => 7 case Leatherworker => 8
    case Librarian => 9 case Mason => 10 case Nitwit => 11 case Shepherd => 12 case Toolsmith => 13
    case Weaponsmith => 14
  }

  /** `*self as u8` */
  function MainArmByte(a: MainArm): (x: bv8)
    ensures x < 2 && MAIN_ARMS[x] == a
  {
    match a
    case Left => 0 case Right => 1
  }

  /** `*self as i32`: the explicit discriminant. */
  function ParticleId(p: Particle): (i: i32)
    ensures i == 21
  {
    21
  }

  /** The variant a `#[default]` attribute marks in each enum that has one. */
  const DEFAULT_POSE: Pose := Standing
  const DEFAULT_BOAT_KIND: BoatKind := Oak
  const DEFAULT_CAT_KIND: CatKind := Black
  const DEFAULT_FROG_KIND: FrogKind := Temperate
  const DEFAULT_PAINTING_KIND: PaintingKind := Kebab
  const DEFAULT_VILLAGER_KIND: VillagerKind := Plains
  const DEFAULT_VILLAGER_PROFESSION: VillagerProfession := VillagerProfession.None
  const DEFAULT_MAIN_ARM: MainArm := Right

  /** The defaults sit at their declared positions. */
  lemma DefaultOrdinals()
    ensures PoseOrdinal(DEFAULT_POSE) == 0 && BoatKindOrdinal(DEFAULT_BOAT_KIND) == 0
    ensures CatKindOrdinal(DEFAULT_CAT_KIND) == 1 && FrogKindOrdinal(DEFAULT_FROG_KIND) == 0
    ensures PaintingKindOrdinal(DEFAULT_PAINTING_KIND) == 0
    ensures VillagerKindOrdinal(DEFAULT_VILLAGER_KIND) == 2
    ensures VillagerProfessionOrdinal(DEFAULT_VILLAGER_PROFESSION) == 0
    ensures MainArmByte(DEFAULT_MAIN_ARM) == 1
  {
  }

  // ----- the ordinal encoders -----

  /** `VarInt(*self as i32).encode(w)` for each ordinal enum. */
  function EncodeFacing(varint: Codec<i32>, f: Facing): (b: Bytes)
    ensures RoundTrip(varint) ==> varint.decode(b) == Ok((FacingOrdinal(f), []))
  {
    VarIntBytes(varint, FacingOrdinal(f))
  }

  function EncodePose(varint: Codec<i32>, p: Pose): (b: Bytes)
    ensures RoundTrip(varint) ==> varint.decode(b) == Ok((PoseOrdinal(p), []))
  {
    VarIntBytes(varint, PoseOrdinal(p))
  }

  function EncodeBoatKind(varint: Codec<i32>, k: BoatKind): (b: Bytes)
    ensures RoundTrip(varint) ==> varint.decode(b) == Ok((BoatKindOrdinal(k), []))
  {
    VarIntBytes(varint, BoatKindOrdinal(k))
  }

  function EncodeCatKind(varint: Codec<i32>, k: CatKind): (b: Bytes)
    ensures RoundTrip(varint) ==> varint.decode(b) == Ok((CatKindOrdinal(k), []))
  {
    VarIntBytes(varint, CatKindOrdinal(k))
  }

  function EncodeFrogKind(varint: Codec<i32>, k: FrogKind): (b: Bytes)
    ensures RoundTrip(varint) ==> varint.decode(b) == Ok((FrogKindOrdinal(k), []))
  {
    VarIntBytes(varint, FrogKindOrdinal(k))
  }

  function EncodePaintingKind(varint: Codec<i32>, k: PaintingKind): (b: Bytes)
    ensures RoundTrip(varint) ==> varint.decode(b) == Ok((PaintingKindOrdinal(k), []))
  {
    VarIntBytes(varint, PaintingKindOrdinal(k))
  }

  function EncodeParticle(varint: Codec<i32>, p: Particle): (b: Bytes)
    ensures RoundTrip(varint) ==> varint.decode(b) == Ok((ParticleId(p), []))
  {
    VarIntBytes(varint, ParticleId(p))
  }

  /** `VarInt(*self as i32).encoded_len()`, which is the length of the encoding
      when the VarInt's own `encoded_len` is. */
  function VarIntLen(varint: Codec<i32>, ordinal: i32): (n: nat)
    ensures LenAgrees(varint) ==> n == |varint.encode(ordinal)|
  {
    varint.encodedLen(ordinal)
  }

  /** A lawful VarInt encoder never writes two values the same way. */
  lemma VarIntInjective(varint: Codec<i32>, x: i32, y: i32)
    requires RoundTrip(varint)
    ensures varint.encode(x) == varint.encode(y) ==> x == y
  {
    if varint.encode(x) == varint.encode(y) {
      assert varint.encode(x) + [] == varint.encode(y) + [];
      PrefixDetermined(varint, x, y, [], []);
    }
  }

  /** Distinct variants get distinct ordinals and so distinct encodings. */
  lemma OrdinalEncodingsInjective(varint: Codec<i32>, f: Facing, f': Facing, p: Pose, p': Pose,
                                  b: BoatKind, b': BoatKind, c: CatKind, c': CatKind,
                                  k: FrogKind, k': FrogKind, m: PaintingKind, m': PaintingKind)
    requires RoundTrip(varint)
    ensures EncodeFacing(varint, f) == EncodeFacing(varint, f') ==> f == f'
    ensures EncodePose(varint, p) == EncodePose(varint, p') ==> p == p'
    ensures EncodeBoatKind(varint, b) == EncodeBoatKind(varint, b') ==> b == b'
    ensures EncodeCatKind(varint, c) == EncodeCatKind(varint, c') ==> c == c'
    ensures EncodeFrogKind(varint, k) == EncodeFrogKind(varint, k') ==> k == k'
    ensures EncodePaintingKind(varint, m) == EncodePaintingKind(varint, m') ==> m == m'
  {
    VarIntInjective(varint, FacingOrdinal(f), FacingOrdinal(f'));
    VarIntInjective(varint, PoseOrdinal(p), PoseOrdinal(p'));
    VarIntInjective(varint, BoatKindOrdinal(b), BoatKindOrdinal(b'));
    VarIntInjective(varint, CatKindOrdinal(c), CatKindOrdinal(c'));
    VarIntInjective(varint, FrogKindOrdinal(k), FrogKindOrdinal(k'));
    VarIntInjective(varint, PaintingKindOrdinal(m), PaintingKindOrdinal(m'));
  }

  // ----- MainArm -----

  /** `(*self as u8).encode(w)`: a `u8` is written as its one raw byte. */
  function EncodeMainArm(a: MainArm): (b: Bytes)
    ensures |b| == 1 && b[0] < 2
  {
    [MainArmByte(a)]
  }

  /** `Encode for MainArm`'s `encoded_len`. */
  function MainArmLen(a: MainArm): (n: nat)
    ensures n == |EncodeMainArm(a)|
  {
    1
  }

  /** `encoded_len` agrees with the encoding, and the byte identifies the arm. */
  lemma MainArmEncoding(a: MainArm, a': MainArm)
    ensures MainArmLen(a) == |EncodeMainArm(a)|
    ensures EncodeMainArm(a) == EncodeMainArm(a') ==> a == a'
  {
  }

  method EncodeMainArmTo(a: MainArm, w: Writer)
    modifies w
    ensures w.bytes == old(w.bytes) + EncodeMainArm(a)
  {
    w.WriteU8(MainArmByte(a));
  }

  // ----- VillagerData -----

  /** The datatype's constructor plays `VillagerData::new`. */
  datatype VillagerData = VillagerData(kind: VillagerKind, profession: VillagerProfession, level: i32)

  /** `Default for VillagerData`: the kind's and profession's defaults, level 1. */
  const DEFAULT_VILLAGER_DATA: VillagerData := VillagerData(DEFAULT_VILLAGER_KIND, DEFAULT_VILLAGER_PROFESSION, 1)

  /** `Encode for VillagerData`: VarInts of the kind's index, the profession's
      index and the level, in that order. */
  function EncodeVillagerData(varint: Codec<i32>, v: VillagerData): (b: Bytes)
    ensures RoundTrip(varint) ==>
              ReadThreeVarInts(varint, b) == Ok(((VillagerKindOrdinal(v.kind), VillagerProfessionOrdinal(v.profession), v.level), []))
  {
    ThreeVarIntsReadBack(varint, VillagerKindOrdinal(v.kind), VillagerProfessionOrdinal(v.profession), v.level);
    varint.encode(VillagerKindOrdinal(v.kind)) + varint.encode(VillagerProfessionOrdinal(v.profession))
      + varint.encode(v.level)
  }

  /** Three VarInts read one after the other: the reader a client applies to
      `VillagerData` (the source has no `Decode` for it). */
  function ReadThreeVarInts(varint: Codec<i32>, b: Bytes): Decoded<(i32, i32, i32)> {
    match varint.decode(b)
    case Err(e) => Err(e)
    case Ok((x, r1)) =>
      match varint.decode(r1)
      case Err(e) => Err(e)
      case Ok((y, r2)) =>
        match varint.decode(r2)
        case Err(e) => Err(e)
        case Ok((z, r3)) => Ok(((x, y, z), r3))
  }

  lemma ThreeVarIntsReadBack(varint: Codec<i32>, x: i32, y: i32, z: i32)
    ensures RoundTrip(varint) ==>
              ReadThreeVarInts(varint, varint.encode(x) + varint.encode(y) + varint.encode(z)) == Ok(((x, y, z), []))
  {
    if RoundTrip(varint) {
      var ex, ey, ez := varint.encode(x), varint.encode(y), varint.encode(z);
      assert ex + ey + ez == ex + (ey + ez);
      assert varint.decode(ex + (ey + ez)) == Ok((x, ey + ez));
      assert varint.decode(ey + ez) == Ok((y, ez));
      assert ez + [] == ez;
      assert varint.decode(ez + []) == Ok((z, []));
    }
  }

  /** `encoded_len`: the sum of the three VarInt lengths. */
  function VillagerDataLen(varint: Codec<i32>, v: VillagerData): (n: nat)
    ensures LenAgrees(varint) ==> n == |EncodeVillagerData(varint, v)|
  {
    VarIntLen(varint, VillagerKindOrdinal(v.kind)) + VarIntLen(varint, VillagerProfessionOrdinal(v.profession))
      + VarIntLen(varint, v.level)
  }

  /** The three VarInts can be read back one after the other, so the encoding
      determines the villager data and where it ends. */
  lemma {:induction false} VillagerDataEncodingInjective(varint: Codec<i32>, v: VillagerData, v': VillagerData, rest: Bytes, rest': Bytes)
    requires RoundTrip(varint)
    requires EncodeVillagerData(varint, v) + rest == EncodeVillagerData(varint, v') + rest'
    ensures v == v' && rest == rest'
  {
    var k, p, l := VillagerKindOrdinal(v.kind), VillagerProfessionOrdinal(v.profession), v.level;
    var k', p', l' := VillagerKindOrdinal(v'.kind), VillagerProfessionOrdinal(v'.profession), v'.level;
    assert EncodeVillagerData(varint, v) + rest == varint.encode(k) + (varint.encode(p) + (varint.encode(l) + rest));
    assert EncodeVillagerData(varint, v') + rest' == varint.encode(k') + (varint.encode(p') + (varint.encode(l') + rest'));
    PrefixDetermined(varint, k, k', varint.encode(p) + (varint.encode(l) + rest), varint.encode(p') + (varint.encode(l') + rest'));
    PrefixDetermined(varint, p, p', varint.encode(l) + rest, varint.encode(l') + rest');
    PrefixDetermined(varint, l, l', rest, rest');
  }

  /** The default villager is a level-1 Plains villager without a profession,
      written as the VarInts 2, 0 and 1. */
  lemma DefaultVillagerData(varint: Codec<i32>)
    ensures DEFAULT_VILLAGER_DATA == VillagerData(Plains, VillagerProfession.None, 1)
    ensures EncodeVillagerData(varint, DEFAULT_VILLAGER_DATA) == varint.encode(2) + varint.encode(0) + varint.encode(1)
  {
  }

  method EncodeVillagerDataTo(varint: Codec<i32>, v: VillagerData, w: Writer)
    modifies w
    ensures w.bytes == old(w.bytes) + EncodeVillagerData(varint, v)
  {
    w.Write(varint.encode(VillagerKindOrdinal(v.kind)));
    w.Write(varint.encode(VillagerProfessionOrdinal(v.profession)));
    w.Write(varint.encode(v.level));
  }
}
