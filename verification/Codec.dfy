/**
 The binary format: floats and doubles are packed field by field, values of any registered type carry a tag, packets carry
 the byte of their serializer.  Reading moves a cursor, and fails where it would leave the buffer.
 */
module Codec {
  import opened TokenStates

  type Byte = x: int | 0 <= x < 0x100

  type Bytes = seq<Byte>

  // ---------------------------------------------------------------- floats, as their fields

  type Bits11 = x: int | 0 <= x < 0x800
  type Bits20 = x: int | 0 <= x < 0x10_0000
  type Bits23 = x: int | 0 <= x < 0x80_0000
  type Bits32 = x: int | 0 <= x < 0x1_0000_0000

  datatype Float = Float(sign: bool, mantissa: Bits23, exponent: Byte)

  datatype Double = Double(sign: bool, exponent: Bits11, high: Bits20, low: Bits32)

  function SignBit(sign: bool): Byte {
    if sign then 0x80 else 0
  }

  /** Shifts are divisions, and parts that are put together with `|` have no bit in common. */
  function FloatBytes(f: Float): Bytes {
    [SignBit(f.sign) + f.mantissa / 0x100 / 0x100, f.mantissa / 0x100 % 0x100, f.mantissa % 0x100, f.exponent]
  }

  function FloatOf(b: Bytes): Float
    requires |b| == 4
  {
    Float(b[0] >= 0x80, (b[0] % 0x80 as int) * 0x1_0000 + (b[1] as int) * 0x100 + b[2], b[3])
  }

  function ExponentByte(exponent: Bits11, high: Bits20): Byte {
    exponent * 0x10 % 0x100 + high / 0x100 / 0x100
  }

  /** The bytes of a word, the lowest first. */
  function WordBytes(x: Bits32): Bytes {
    [x % 0x100, x / 0x100 % 0x100, x / 0x100 / 0x100 % 0x100, x / 0x100 / 0x100 / 0x100]
  }

  function Word(b0: Byte, b1: Byte, b2: Byte, b3: Byte): Bits32 {
    (b0 as int) + 0x100 * ((b1 as int) + 0x100 * ((b2 as int) + 0x100 * (b3 as int)))
  }

  function DoubleBytes(d: Double): Bytes {
    var w := WordBytes(d.low);
    [SignBit(d.sign) + d.exponent / 0x10, ExponentByte(d.exponent, d.high), d.high / 0x100 % 0x100, d.high % 0x100,
     w[3], w[2], w[1], w[0]]
  }

  function HighOf(b1: Byte, b2: Byte, b3: Byte): int {
    (b1 % 0x80 as int) * 0x1_0000 + (b2 as int) * 0x100 + b3
  }

  /** The high part of the mantissa is shifted together with three bits of the exponent, which its field cuts off. */
  function DoubleOf(b: Bytes): Double
    requires |b| == 8
  {
    Double(b[0] >= 0x80, (b[0] % 0x80 as int) * 0x10 + (b[1] as int) / 0x10, HighOf(b[1], b[2], b[3]) % 0x10_0000,
           Word(b[7], b[6], b[5], b[4]))
  }

  lemma FloatReadBack(f: Float)
    ensures FloatOf(FloatBytes(f)) == f
  {
  }

  lemma WordReadBack(x: Bits32)
    ensures var w := WordBytes(x); Word(w[0], w[1], w[2], w[3]) == x
  {
  }

  lemma WordWrittenBack(b0: Byte, b1: Byte, b2: Byte, b3: Byte)
    ensures WordBytes(Word(b0, b1, b2, b3)) == [b0, b1, b2, b3]
  {
    var q3: int := b3;
    var q2 := b2 + 0x100 * q3;
    var q1 := b1 + 0x100 * q2;
    Digit(b2, q3);
    Digit(b1, q2);
    Digit(b0, q1);
  }

  lemma Digit(b: int, q: int)
    requires 0 <= b < 0x100 && 0 <= q
    ensures (b + 0x100 * q) % 0x100 == b && (b + 0x100 * q) / 0x100 == q
  {
  }

  lemma ExponentReadBack(e: Bits11, h: Bits20)
    ensures (e / 0x10) * 0x10 + (ExponentByte(e, h) as int) / 0x10 == e
    ensures HighOf(ExponentByte(e, h), h / 0x100 % 0x100, h % 0x100) % 0x10_0000 == h
  {
    assert e * 0x10 % 0x100 == e % 0x10 * 0x10;
    var top := h / 0x100 / 0x100;
    assert ExponentByte(e, h) % 0x80 == e % 8 * 0x10 + top;
    assert HighOf(ExponentByte(e, h), h / 0x100 % 0x100, h % 0x100) == e % 8 * 0x10_0000 + h;
  }

  lemma SignParts(sign: bool, x: int)
    requires 0 <= x < 0x80
    ensures (SignBit(sign) + x >= 0x80) == sign && (SignBit(sign) + x) % 0x80 == x
  {
  }

  lemma DoubleReadBack(d: Double)
    ensures DoubleOf(DoubleBytes(d)) == d
  {
    SignParts(d.sign, d.exponent / 0x10);
    ExponentReadBack(d.exponent, d.high);
    WordReadBack(d.low);
    var b, w := DoubleBytes(d), WordBytes(d.low);
    assert b[1] == ExponentByte(d.exponent, d.high) && b[2] == d.high / 0x100 % 0x100 && b[3] == d.high % 0x100;
    assert b[4] == w[3] && b[5] == w[2] && b[6] == w[1] && b[7] == w[0];
  }

  lemma FloatParts(b0: int, b1: int, b2: int)
    requires 0 <= b0 < 0x100 && 0 <= b1 < 0x100 && 0 <= b2 < 0x100
    ensures var m := b0 % 0x80 * 0x1_0000 + b1 * 0x100 + b2;
            m % 0x100 == b2 && m / 0x100 % 0x100 == b1 && m / 0x100 / 0x100 == b0 % 0x80
  {
    var m := b0 % 0x80 * 0x1_0000 + b1 * 0x100 + b2;
    assert m / 0x100 == b0 % 0x80 * 0x100 + b1;
  }

  /** Every four bytes are some float: the format wastes nothing. */
  lemma FloatWrittenBack(b: Bytes)
    requires |b| == 4
    ensures FloatBytes(FloatOf(b)) == b
  {
    FloatParts(b[0], b[1], b[2]);
  }

  lemma DoubleParts(b1: int, b2: int, b3: int)
    requires 0 <= b1 < 0x100 && 0 <= b2 < 0x100 && 0 <= b3 < 0x100
    ensures var h := HighOf(b1, b2, b3) % 0x10_0000;
            h % 0x100 == b3 && h / 0x100 % 0x100 == b2 && h / 0x100 / 0x100 == b1 % 0x10
  {
    var h := b1 % 0x10 * 0x1_0000 + b2 * 0x100 + b3;
    assert HighOf(b1, b2, b3) == b1 / 0x10 % 8 * 0x10_0000 + h;
    assert h / 0x100 == b1 % 0x10 * 0x100 + b2;
  }

  lemma ExponentParts(b0: int, b1: int, h: int)
    requires 0 <= b0 < 0x100 && 0 <= b1 < 0x100 && 0 <= h < 0x10_0000 && h / 0x100 / 0x100 == b1 % 0x10
    ensures var e := b0 % 0x80 * 0x10 + b1 / 0x10;
            SignBit(b0 >= 0x80) + e / 0x10 == b0 && ExponentByte(e, h) == b1
  {
    assert (b0 % 0x80 * 0x10 + b1 / 0x10) * 0x10 == b0 % 0x80 * 0x100 + b1 / 0x10 * 0x10;
  }

  lemma DoubleWrittenBack(b: Bytes)
    requires |b| == 8
    ensures DoubleBytes(DoubleOf(b)) == b
  {
    var d := DoubleOf(b);
    WordWrittenBack(b[7], b[6], b[5], b[4]);
    DoubleParts(b[1], b[2], b[3]);
    ExponentParts(b[0], b[1], d.high);
    var w := WordBytes(d.low);
    assert w[3] == b[4] && w[2] == b[5] && w[1] == b[6] && w[0] == b[7];
  }

  // ---------------------------------------------------------------- values

  datatype Type = IntT | DoubleT | BoolT | StringT | VectorT(elem: Type) | PairT(first: Type, second: Type)

  datatype Value =
    | Int(i: Bits32)
    | Real(d: Double)
    | Bool(b: bool)
    | Text(s: Bytes)
    | Vector(elem: Type, vs: seq<Value>)
    | Pair(first: Value, second: Value)

  function TypeOf(v: Value): Type {
    match v
    case Int(_) => IntT
    case Real(_) => DoubleT
    case Bool(_) => BoolT
    case Text(_) => StringT
    case Vector(elem, _) => VectorT(elem)
    case Pair(a, b) => PairT(TypeOf(a), TypeOf(b))
  }

  /** The elements have the vector's type, and no length reaches the limit that is asserted when writing. */
  predicate Fits(v: Value) {
    match v
    case Text(s) => |s| < 0xFFFF
    case Vector(elem, vs) => |vs| < 0xFF && forall k | 0 <= k < |vs| :: TypeOf(vs[k]) == elem && Fits(vs[k])
    case Pair(a, b) => Fits(a) && Fits(b)
    case _ => true
  }

  /** The length of a text has two bytes. */
  function ShortBytes(n: nat): Bytes
    requires n < 0x1_0000
  {
    [n % 0x100, n / 0x100]
  }

  function ShortOf(b0: Byte, b1: Byte): nat {
    b0 + b1 * 0x100
  }

  function Encode(v: Value): Bytes
    requires Fits(v)
  {
    match v
    case Int(i) => WordBytes(i)
    case Real(d) => DoubleBytes(d)
    case Bool(b) => [if b then 1 else 0]
    case Text(s) => ShortBytes(|s|) + s
    case Vector(_, vs) => [|vs|] + EncodeAll(vs, |vs|)
    case Pair(a, b) => Encode(a) + Encode(b)
  }

  function EncodeAll(vs: seq<Value>, n: nat): Bytes
    requires n <= |vs| && forall k | 0 <= k < |vs| :: Fits(vs[k])
    decreases vs, n
  {
    if n == 0 then [] else EncodeAll(vs, n - 1) + Encode(vs[n - 1])
  }

  /** What has been read and the position behind it; nothing if the buffer is too short. */
  datatype Reading<T> = Failed | Got(value: T, next: nat)

  function DecodeInt(b: Bytes, p: nat): Reading<Value> {
    if p + 4 <= |b| then Got(Int(Word(b[p], b[p + 1], b[p + 2], b[p + 3])), p + 4) else Failed
  }

  function DecodeReal(b: Bytes, p: nat): Reading<Value> {
    if p + 8 <= |b| then Got(Real(DoubleOf(b[p..p + 8])), p + 8) else Failed
  }

  function DecodeBool(b: Bytes, p: nat): Reading<Value> {
    if p + 1 <= |b| then Got(Bool(b[p] != 0), p + 1) else Failed
  }

  function DecodeText(b: Bytes, p: nat): Reading<Value> {
    if p + 2 > |b| then Failed
    else
      var n := ShortOf(b[p], b[p + 1]);
      if p + 2 + n <= |b| then Got(Text(b[p + 2..p + 2 + n]), p + 2 + n) else Failed
  }

  /** The value of a type at position p. */
  function Decode(t: Type, b: Bytes, p: nat): Reading<Value>
    decreases t, 0
  {
    match t
    case IntT => DecodeInt(b, p)
    case DoubleT => DecodeReal(b, p)
    case BoolT => DecodeBool(b, p)
    case StringT => DecodeText(b, p)
    case VectorT(elem) =>
      if p + 1 > |b| then Failed
      else
        match DecodeAll(elem, b, p + 1, b[p]) {
          case Failed => Failed
          case Got(vs, q) => Got(Vector(elem, vs), q)
        }
    case PairT(first, second) =>
      match Decode(first, b, p) {
        case Failed => Failed
        case Got(x, q) =>
          match Decode(second, b, q) {
            case Failed => Failed
            case Got(y, r) => Got(Pair(x, y), r)
          }
      }
  }

  function DecodeAll(t: Type, b: Bytes, p: nat, n: nat): Reading<seq<Value>>
    decreases t, n + 1
  {
    if n == 0 then Got([], p)
    else
      match DecodeAll(t, b, p, n - 1) {
        case Failed => Failed
        case Got(front, q) =>
          match Decode(t, b, q) {
            case Failed => Failed
            case Got(last, r) => Got(front + [last], r)
          }
      }
  }

  /** The bytes w stand at position p. */
  ghost predicate Holds(b: Bytes, p: nat, w: Bytes) {
    p + |w| <= |b| && b[p..p + |w|] == w
  }

  lemma HoldsConcat(b: Bytes, p: nat, v: Bytes, w: Bytes)
    requires Holds(b, p, v + w)
    ensures Holds(b, p, v) && Holds(b, p + |v|, w)
  {
    assert b[p..p + |v|] == b[p..p + |v + w|][..|v|];
    assert b[p + |v|..p + |v| + |w|] == b[p..p + |v + w|][|v|..];
  }

  lemma HoldsAt(b: Bytes, p: nat, w: Bytes, k: nat)
    requires Holds(b, p, w) && k < |w|
    ensures b[p + k] == w[k]
  {
    assert b[p..p + |w|][k] == b[p + k];
  }

  lemma ShortReadBack(n: nat)
    requires n < 0x1_0000
    ensures ShortOf(ShortBytes(n)[0], ShortBytes(n)[1]) == n
  {
  }

  lemma IntAt(i: Bits32, b: Bytes, p: nat)
    requires Holds(b, p, WordBytes(i))
    ensures Decode(IntT, b, p) == Got(Int(i), p + 4)
  {
    HoldsAt(b, p, WordBytes(i), 0);
    HoldsAt(b, p, WordBytes(i), 1);
    HoldsAt(b, p, WordBytes(i), 2);
    HoldsAt(b, p, WordBytes(i), 3);
    WordReadBack(i);
  }

  lemma RealAt(d: Double, b: Bytes, p: nat)
    requires Holds(b, p, DoubleBytes(d))
    ensures Decode(DoubleT, b, p) == Got(Real(d), p + 8)
  {
    DoubleReadBack(d);
  }

  lemma BoolAt(x: bool, b: Bytes, p: nat)
    requires Holds(b, p, [if x then 1 else 0])
    ensures Decode(BoolT, b, p) == Got(Bool(x), p + 1)
  {
    HoldsAt(b, p, [if x then 1 else 0], 0);
  }

  lemma TextAt(s: Bytes, b: Bytes, p: nat)
    requires |s| < 0xFFFF && Holds(b, p, ShortBytes(|s|) + s)
    ensures Decode(StringT, b, p) == Got(Text(s), p + 2 + |s|)
  {
    var w := ShortBytes(|s|);
    HoldsConcat(b, p, w, s);
    HoldsAt(b, p, w, 0);
    HoldsAt(b, p, w, 1);
    ShortReadBack(|s|);
  }

  lemma VectorAt(elem: Type, vs: seq<Value>, w: Bytes, b: Bytes, p: nat)
    requires |vs| < 0xFF && Holds(b, p, [|vs|]) && DecodeAll(elem, b, p + 1, |vs|) == Got(vs[..|vs|], p + 1 + |w|)
    ensures Decode(VectorT(elem), b, p) == Got(Vector(elem, vs), p + 1 + |w|)
  {
    HoldsAt(b, p, [|vs|], 0);
    assert vs[..|vs|] == vs;
  }

  lemma PairAt(t: Type, u: Type, b: Bytes, p: nat, x: Value, q: nat, y: Value, r: nat)
    requires Decode(t, b, p) == Got(x, q) && Decode(u, b, q) == Got(y, r)
    ensures Decode(PairT(t, u), b, p) == Got(Pair(x, y), r)
  {
  }

  lemma MoreAt(t: Type, b: Bytes, p: nat, n: nat, front: seq<Value>, q: nat, v: Value)
    requires n > 0 && DecodeAll(t, b, p, n - 1) == Got(front, q)
    requires Fits(v) && TypeOf(v) == t && Decode(TypeOf(v), b, q) == Got(v, q + |Encode(v)|)
    ensures DecodeAll(t, b, p, n) == Got(front + [v], q + |Encode(v)|)
  {
  }

  /** A value is read back wherever it stands, and the cursor ends behind it. */
  lemma {:induction false} ReadBack(v: Value, b: Bytes, p: nat)
    requires Fits(v) && Holds(b, p, Encode(v))
    ensures Decode(TypeOf(v), b, p) == Got(v, p + |Encode(v)|)
    decreases v, 1
  {
    match v
    case Vector(elem, vs) => VectorBack(elem, vs, b, p);
    case Pair(x, y) => PairBack(x, y, b, p);
    case _ => SimpleAt(v, b, p);
  }

  lemma {:induction false} VectorBack(elem: Type, vs: seq<Value>, b: Bytes, p: nat)
    requires Fits(Vector(elem, vs)) && Holds(b, p, [|vs|] + EncodeAll(vs, |vs|))
    ensures Decode(VectorT(elem), b, p) == Got(Vector(elem, vs), p + 1 + |EncodeAll(vs, |vs|)|)
    decreases Vector(elem, vs), 0
  {
    HoldsConcat(b, p, [|vs|], EncodeAll(vs, |vs|));
    ReadAllBack(elem, vs, |vs|, b, p + 1);
    VectorAt(elem, vs, EncodeAll(vs, |vs|), b, p);
  }

  lemma {:induction false} PairBack(x: Value, y: Value, b: Bytes, p: nat)
    requires Fits(x) && Fits(y) && Holds(b, p, Encode(x) + Encode(y))
    ensures Decode(PairT(TypeOf(x), TypeOf(y)), b, p) == Got(Pair(x, y), p + |Encode(x)| + |Encode(y)|)
    decreases Pair(x, y), 0
  {
    var q := p + |Encode(x)|;
    HoldsConcat(b, p, Encode(x), Encode(y));
    ReadBack(x, b, p);
    ReadBack(y, b, q);
    PairAt(TypeOf(x), TypeOf(y), b, p, x, q, y, q + |Encode(y)|);
  }

  lemma SimpleAt(v: Value, b: Bytes, p: nat)
    requires Fits(v) && !v.Vector? && !v.Pair? && Holds(b, p, Encode(v))
    ensures Decode(TypeOf(v), b, p) == Got(v, p + |Encode(v)|)
  {
    match v
    case Int(i) => IntAt(i, b, p);
    case Real(d) => RealAt(d, b, p);
    case Bool(x) => BoolAt(x, b, p);
    case Text(s) => TextAt(s, b, p);
  }

  lemma {:induction false} ReadAllBack(elem: Type, vs: seq<Value>, n: nat, b: Bytes, p: nat)
    requires n <= |vs| && forall k | 0 <= k < |vs| :: TypeOf(vs[k]) == elem && Fits(vs[k])
    requires Holds(b, p, EncodeAll(vs, n))
    ensures DecodeAll(elem, b, p, n) == Got(vs[..n], p + |EncodeAll(vs, n)|)
    decreases vs, n
  {
    if n > 0 {
      var v := vs[n - 1];
      var q := p + |EncodeAll(vs, n - 1)|;
      HoldsConcat(b, p, EncodeAll(vs, n - 1), Encode(v));
      ReadAllBack(elem, vs, n - 1, b, p);
      ReadBack(v, b, q);
      MoreAt(elem, b, p, n, vs[..n - 1], q, v);
      assert vs[..n] == vs[..n - 1] + [v];
    }
  }

  // ---------------------------------------------------------------- the registry of types

  /** Each registration takes the next number; the reading side knows it as one byte. */
  datatype Registry = Registry(tags: map<Type, nat>, types: map<Byte, Type>)

  function Registered(ts: seq<Type>, n: nat): Registry
    requires n <= |ts|
  {
    if n == 0 then Registry(map[], map[])
    else
      var r := Registered(ts, n - 1);
      Registry(r.tags[ts[n - 1] := n], r.types[n % 0x100 := ts[n - 1]])
  }

  method Init(ts: seq<Type>) returns (r: Registry)
    ensures r == Registered(ts, |ts|)
  {
    var tags: map<Type, nat>, types: map<Byte, Type> := map[], map[];
    var id := 1;
    while id <= |ts|
      invariant 1 <= id <= |ts| + 1 && Registry(tags, types) == Registered(ts, id - 1)
    {
      tags := tags[ts[id - 1] := id];
      types := types[id % 0x100 := ts[id - 1]];
      id := id + 1;
    }
    r := Registry(tags, types);
  }

  /** The byte that is written for a type is not the one of an empty value, and is read as the same type. */
  ghost predicate Sound(r: Registry) {
    forall t | t in r.tags ::
      r.tags[t] % 0x100 != 0 && r.tags[t] % 0x100 in r.types && r.types[r.tags[t] % 0x100] == t
  }

  /** The last of the first n registrations of this type has the number k. */
  ghost predicate LastAt(ts: seq<Type>, n: nat, k: nat)
    requires n <= |ts|
  {
    0 < k <= n && forall j | k <= j < n :: ts[j] != ts[k - 1]
  }

  lemma {:induction false} TagIsLast(ts: seq<Type>, n: nat, t: Type)
    requires n <= |ts|
    ensures t in Registered(ts, n).tags <==> t in ts[..n]
    ensures t in Registered(ts, n).tags ==>
              LastAt(ts, n, Registered(ts, n).tags[t]) && ts[Registered(ts, n).tags[t] - 1] == t
  {
    if n > 0 {
      TagIsLast(ts, n - 1, t);
      assert ts[..n] == ts[..n - 1] + [ts[n - 1]];
    }
  }

  lemma TagOfLast(ts: seq<Type>, n: nat, k: nat)
    requires n <= |ts| && LastAt(ts, n, k)
    ensures ts[k - 1] in Registered(ts, n).tags && Registered(ts, n).tags[ts[k - 1]] == k
  {
    TagIsLast(ts, n, ts[k - 1]);
    assert ts[..n][k - 1] == ts[k - 1];
  }

  lemma NumbersDiffer(k: nat, n: nat)
    requires k < n < k + 0x100
    ensures k % 0x100 != n % 0x100
  {
  }

  /** A byte is read as the type of the last registration with this byte. */
  lemma {:induction false} ByteIsLast(ts: seq<Type>, n: nat, k: nat)
    requires 0 < k <= n <= |ts| && n < k + 0x100
    ensures k % 0x100 in Registered(ts, n).types && Registered(ts, n).types[k % 0x100] == ts[k - 1]
  {
    if k < n {
      ByteIsLast(ts, n - 1, k);
      NumbersDiffer(k, n);
    }
  }

  /** The last registration of each type is one of the last 256, and its number is not a multiple of 256. */
  ghost predicate Lasting(ts: seq<Type>, n: nat)
    requires n <= |ts|
  {
    forall k: nat | LastAt(ts, n, k) :: k % 0x100 != 0 && n < k + 0x100
  }

  lemma SoundIfLasting(ts: seq<Type>, n: nat)
    requires n <= |ts| && Lasting(ts, n)
    ensures Sound(Registered(ts, n))
  {
    var r := Registered(ts, n);
    forall t | t in r.tags ensures r.tags[t] % 0x100 != 0 && r.tags[t] % 0x100 in r.types && r.types[r.tags[t] % 0x100] == t {
      TagIsLast(ts, n, t);
      ByteIsLast(ts, n, r.tags[t]);
    }
  }

  lemma LastingIfSound(ts: seq<Type>, n: nat, k: nat)
    requires n <= |ts| && Sound(Registered(ts, n)) && LastAt(ts, n, k)
    ensures k % 0x100 != 0 && n < k + 0x100
  {
    TagOfLast(ts, n, k);
    if n >= k + 0x100 {
      var later := n - (n - k) % 0x100;
      LaterSame(n, k);
      ByteIsLast(ts, n, later);
    }
  }

  /** A type may be registered again: the last registration writes, and all of them read. */
  lemma RegistrySound(ts: seq<Type>, n: nat)
    requires n <= |ts|
    ensures Sound(Registered(ts, n)) <==> Lasting(ts, n)
    ensures n < 0x100 ==> Lasting(ts, n)
  {
    if Lasting(ts, n) {
      SoundIfLasting(ts, n);
    }
    if Sound(Registered(ts, n)) {
      forall k: nat | LastAt(ts, n, k) ensures k % 0x100 != 0 && n < k + 0x100 {
        LastingIfSound(ts, n, k);
      }
    }
  }

  lemma LaterSame(n: nat, k: nat)
    requires k + 0x100 <= n
    ensures var later := n - (n - k) % 0x100; k < later <= n < later + 0x100 && later % 0x100 == k % 0x100
  {
    var later := n - (n - k) % 0x100;
    assert later == k + (n - k) / 0x100 * 0x100;
  }

  /** Different types are told apart exactly if there are fewer than 256 of them. */
  lemma RegistryFull(ts: seq<Type>, n: nat)
    requires n <= |ts| && forall i, j | 0 <= i < j < n :: ts[i] != ts[j]
    ensures Sound(Registered(ts, n)) <==> n < 0x100
  {
    RegistrySound(ts, n);
    if n >= 0x100 {
      assert LastAt(ts, n, 0x100);
    }
  }

  // ---------------------------------------------------------------- items

  datatype Any = Nothing | Holding(v: Value)

  datatype Packet = Packet(kind: Byte, content: Value)

  datatype Item = FloatItem(f: Float) | DoubleItem(d: Double) | AnyItem(a: Any) | PacketItem(p: Option<Packet>)

  datatype Kind = FloatKind | DoubleKind | AnyKind | PacketKind

  function KindOf(i: Item): Kind {
    match i
    case FloatItem(_) => FloatKind
    case DoubleItem(_) => DoubleKind
    case AnyItem(_) => AnyKind
    case PacketItem(_) => PacketKind
  }

  /** The registry and, for each kind of packet, the type that its serializer writes and reads. */
  datatype Setup = Setup(registry: Registry, serializers: map<Byte, Type>)

  ghost predicate Writable(s: Setup, i: Item) {
    match i
    case AnyItem(Holding(v)) => Fits(v)
    case PacketItem(Some(p)) => Fits(p.content) && (p.kind in s.serializers ==> TypeOf(p.content) == s.serializers[p.kind])
    case _ => true
  }

  predicate HasSerializer(s: Setup, i: Item) {
    i.PacketItem? && i.p.Some? ==> i.p.value.kind in s.serializers
  }

  function EncodeAny(r: Registry, a: Any): Bytes
    requires a.Holding? ==> Fits(a.v)
  {
    if a.Holding? && TypeOf(a.v) in r.tags then [r.tags[TypeOf(a.v)] % 0x100] + Encode(a.v) else [0]
  }

  /** A byte tells whether there is a packet at all. */
  function EncodePacket(s: Setup, p: Option<Packet>): Bytes
    requires p.Some? ==> Fits(p.value.content)
  {
    if p.None? then [1]
    else if p.value.kind in s.serializers then [0] + ([p.value.kind] + Encode(p.value.content))
    else [0]
  }

  function EncodeItem(s: Setup, i: Item): Bytes
    requires Writable(s, i)
  {
    match i
    case FloatItem(f) => FloatBytes(f)
    case DoubleItem(d) => DoubleBytes(d)
    case AnyItem(a) => EncodeAny(s.registry, a)
    case PacketItem(p) => EncodePacket(s, p)
  }

  /** A tag that nobody has registered is reported, and the value stays empty. */
  function DecodeAny(r: Registry, b: Bytes, p: nat): Reading<Any> {
    if p + 1 > |b| then Failed
    else if b[p] == 0 || b[p] !in r.types then Got(Nothing, p + 1)
    else
      match Decode(r.types[b[p]], b, p + 1) {
        case Failed => Failed
        case Got(v, q) => Got(Holding(v), q)
      }
  }

  function DecodePacket(s: Setup, b: Bytes, p: nat): Reading<Option<Packet>> {
    if p + 1 > |b| then Failed
    else if b[p] != 0 then Got(None, p + 1)
    else if p + 2 > |b| then Failed
    else if b[p + 1] !in s.serializers then Got(None, p + 2)
    else
      match Decode(s.serializers[b[p + 1]], b, p + 2) {
        case Failed => Failed
        case Got(v, q) => Got(Some(Packet(b[p + 1], v)), q)
      }
  }

  function DecodeItem(s: Setup, k: Kind, b: Bytes, p: nat): Reading<Item> {
    match k
    case FloatKind => if p + 4 <= |b| then Got(FloatItem(FloatOf(b[p..p + 4])), p + 4) else Failed
    case DoubleKind => if p + 8 <= |b| then Got(DoubleItem(DoubleOf(b[p..p + 8])), p + 8) else Failed
    case AnyKind => (match DecodeAny(s.registry, b, p) case Failed => Failed case Got(a, q) => Got(AnyItem(a), q))
    case PacketKind => (match DecodePacket(s, b, p) case Failed => Failed case Got(x, q) => Got(PacketItem(x), q))
  }

  /** What arrives: a value of a type that is not registered arrives empty. */
  function Received(r: Registry, i: Item): Item {
    if i.AnyItem? && i.a.Holding? && TypeOf(i.a.v) !in r.tags then AnyItem(Nothing) else i
  }

  lemma AnyReadBack(r: Registry, a: Any, b: Bytes, p: nat)
    requires Sound(r) && (a.Holding? ==> Fits(a.v)) && Holds(b, p, EncodeAny(r, a))
    ensures DecodeAny(r, b, p) ==
            Got(if a.Holding? && TypeOf(a.v) in r.tags then a else Nothing, p + |EncodeAny(r, a)|)
  {
    if a.Holding? && TypeOf(a.v) in r.tags {
      var tag := [r.tags[TypeOf(a.v)] % 0x100];
      HoldsConcat(b, p, tag, Encode(a.v));
      HoldsAt(b, p, tag, 0);
      ReadBack(a.v, b, p + 1);
    } else {
      HoldsAt(b, p, [0], 0);
    }
  }

  lemma PacketReadBack(s: Setup, x: Packet, b: Bytes, p: nat)
    requires x.kind in s.serializers && Fits(x.content) && TypeOf(x.content) == s.serializers[x.kind]
    requires Holds(b, p, [0] + ([x.kind] + Encode(x.content)))
    ensures DecodePacket(s, b, p) == Got(Some(x), p + 2 + |Encode(x.content)|)
  {
    HoldsConcat(b, p, [0], [x.kind] + Encode(x.content));
    HoldsAt(b, p, [0], 0);
    HoldsConcat(b, p + 1, [x.kind], Encode(x.content));
    HoldsAt(b, p + 1, [x.kind], 0);
    ReadBack(x.content, b, p + 2);
  }

  lemma ItemReadBack(s: Setup, i: Item, b: Bytes, p: nat)
    requires Sound(s.registry) && Writable(s, i) && HasSerializer(s, i) && Holds(b, p, EncodeItem(s, i))
    ensures DecodeItem(s, KindOf(i), b, p) == Got(Received(s.registry, i), p + |EncodeItem(s, i)|)
  {
    match i
    case FloatItem(f) => FloatReadBack(f);
    case DoubleItem(d) => DoubleReadBack(d);
    case AnyItem(a) => AnyReadBack(s.registry, a, b, p);
    case PacketItem(x) =>
      if x.None? {
        HoldsAt(b, p, [1], 0);
      } else {
        PacketReadBack(s, x.value, b, p);
      }
  }

  // ---------------------------------------------------------------- lists of items

  function EncodeItems(s: Setup, items: seq<Item>, n: nat): Bytes
    requires n <= |items| && forall k | 0 <= k < |items| :: Writable(s, items[k])
  {
    if n == 0 then [] else EncodeItems(s, items, n - 1) + EncodeItem(s, items[n - 1])
  }

  function DecodeItems(s: Setup, kinds: seq<Kind>, b: Bytes, p: nat, n: nat): Reading<seq<Item>>
    requires n <= |kinds|
  {
    if n == 0 then Got([], p)
    else
      match DecodeItems(s, kinds, b, p, n - 1) {
        case Failed => Failed
        case Got(front, q) =>
          match DecodeItem(s, kinds[n - 1], b, q) {
            case Failed => Failed
            case Got(last, r) => Got(front + [last], r)
          }
      }
  }

  function Kinds(items: seq<Item>): (r: seq<Kind>)
    ensures |r| == |items| && forall k | 0 <= k < |items| :: r[k] == KindOf(items[k])
  {
    seq(|items|, k requires 0 <= k < |items| => KindOf(items[k]))
  }

  function AllReceived(r: Registry, items: seq<Item>, n: nat): seq<Item>
    requires n <= |items|
  {
    if n == 0 then [] else AllReceived(r, items, n - 1) + [Received(r, items[n - 1])]
  }

  lemma {:induction false} ItemsReadBack(s: Setup, items: seq<Item>, n: nat, b: Bytes, p: nat)
    requires Sound(s.registry) && n <= |items|
    requires forall k | 0 <= k < |items| :: Writable(s, items[k]) && HasSerializer(s, items[k])
    requires Holds(b, p, EncodeItems(s, items, n))
    ensures DecodeItems(s, Kinds(items), b, p, n) == Got(AllReceived(s.registry, items, n), p + |EncodeItems(s, items, n)|)
  {
    if n > 0 {
      var i := items[n - 1];
      var q := p + |EncodeItems(s, items, n - 1)|;
      HoldsConcat(b, p, EncodeItems(s, items, n - 1), EncodeItem(s, i));
      ItemsReadBack(s, items, n - 1, b, p);
      ItemReadBack(s, i, b, q);
      MoreItems(s, Kinds(items), b, p, n, AllReceived(s.registry, items, n - 1), q, i);
    }
  }

  lemma MoreItems(s: Setup, kinds: seq<Kind>, b: Bytes, p: nat, n: nat, front: seq<Item>, q: nat, i: Item)
    requires 0 < n <= |kinds| && kinds[n - 1] == KindOf(i) && DecodeItems(s, kinds, b, p, n - 1) == Got(front, q)
    requires Writable(s, i) && DecodeItem(s, KindOf(i), b, q) == Got(Received(s.registry, i), q + |EncodeItem(s, i)|)
    ensures DecodeItems(s, kinds, b, p, n) == Got(front + [Received(s.registry, i)], q + |EncodeItem(s, i)|)
  {
  }

  /** The four bytes of the length stand first. */
  function Framed(w: Bytes): Bytes
    requires |w| + 4 < 0x1_0000_0000
  {
    WordBytes(|w| + 4) + w
  }

  /** Whatever types have been registered, fewer than 256 or more with recent last registrations: a list of items is read
      back, and the cursor ends at the end of the buffer. */
  lemma BufferReadBack(ts: seq<Type>, serializers: map<Byte, Type>, items: seq<Item>)
    requires Lasting(ts, |ts|)
    requires var s := Setup(Registered(ts, |ts|), serializers);
             && (forall k | 0 <= k < |items| :: Writable(s, items[k]) && HasSerializer(s, items[k]))
             && |EncodeItems(s, items, |items|)| + 4 < 0x1_0000_0000
    ensures var s := Setup(Registered(ts, |ts|), serializers);
            var b := Framed(EncodeItems(s, items, |items|));
            DecodeItems(s, Kinds(items), b, 4, |items|) == Got(AllReceived(s.registry, items, |items|), |b|)
  {
    RegistrySound(ts, |ts|);
    var s := Setup(Registered(ts, |ts|), serializers);
    var w := EncodeItems(s, items, |items|);
    assert Framed(w)[4..4 + |w|] == w;
    ItemsReadBack(s, items, |items|, Framed(w), 4);
  }

  /** A packet without a serializer leaves one byte, so reading it fails at the end of the buffer. */
  lemma PacketLost(s: Setup, x: Packet, b: Bytes)
    requires x.kind !in s.serializers && Fits(x.content)
    ensures DecodePacket(s, b + EncodePacket(s, Some(x)), |b|) == Failed
  {
  }

  // ---------------------------------------------------------------- the buffer

  class SerializationBuffer {
    var bytes: Bytes
    var pos: nat

    /** The header is filled in when the buffer is complete. */
    constructor ()
      ensures bytes == [0, 0, 0, 0] && pos == 4
    {
      bytes, pos := [0, 0, 0, 0], 4;
    }

    method Finalize()
      requires 4 <= |bytes| < 0x1_0000_0000
      modifies this`bytes
      ensures bytes == WordBytes(|old(bytes)|) + old(bytes)[4..]
    {
      var length := |bytes|;
      for k := 0 to 4
        invariant bytes == WordBytes(length)[..k] + old(bytes)[k..]
      {
        bytes := bytes[k := WordBytes(length)[k]];
      }
    }

    method Rewind()
      modifies this`pos
      ensures pos == 4
    {
      pos := 4;
    }

    method WriteRaw(w: Bytes)
      modifies this`bytes
      ensures bytes == old(bytes) + w
    {
      for k := 0 to |w|
        invariant bytes == old(bytes) + w[..k]
      {
        bytes := bytes + [w[k]];
      }
    }

    /** Nothing if the cursor would leave the buffer. */
    method ReadRaw(n: nat) returns (w: Option<Bytes>)
      modifies this`pos
      ensures w == if old(pos) + n <= |bytes| then Some(bytes[old(pos)..old(pos) + n]) else None
      ensures w.Some? ==> pos == old(pos) + n
    {
      var r: Bytes := [];
      for k := 0 to n
        invariant pos == old(pos) + k && pos <= old(pos) + n
        invariant k > 0 ==> pos <= |bytes|
        invariant r == if k == 0 then [] else bytes[old(pos)..pos]
      {
        if pos >= |bytes| {
          return None;
        }
        r := r + [bytes[pos]];
        pos := pos + 1;
      }
      w := if n == 0 && pos > |bytes| then None else Some(r);
    }

    method WriteValue(v: Value)
      requires Fits(v)
      modifies this`bytes
      ensures bytes == old(bytes) + Encode(v)
      decreases v, 0
    {
      match v
      case Int(i) => WriteRaw(WordBytes(i));
      case Real(d) => WriteRaw(DoubleBytes(d));
      case Bool(x) => WriteRaw([if x then 1 else 0]);
      case Text(s) =>
        WriteRaw(ShortBytes(|s|));
        WriteRaw(s);
      case Vector(_, vs) =>
        WriteRaw([|vs|]);
        WriteAll(vs);
      case Pair(x, y) =>
        WriteValue(x);
        WriteValue(y);
    }

    method WriteAll(vs: seq<Value>)
      requires forall k | 0 <= k < |vs| :: Fits(vs[k])
      modifies this`bytes
      ensures bytes == old(bytes) + EncodeAll(vs, |vs|)
      decreases vs, |vs|
    {
      for k := 0 to |vs|
        invariant bytes == old(bytes) + EncodeAll(vs, k)
      {
        WriteValue(vs[k]);
      }
    }

    method ReadValue(t: Type) returns (v: Option<Value>)
      modifies this`pos
      ensures match Decode(t, bytes, old(pos))
              case Failed => v == None
              case Got(x, q) => v == Some(x) && pos == q
      decreases t
    {
      match t
      case IntT =>
        var w := ReadRaw(4);
        v := if w.None? then None else Some(Int(Word(w.value[0], w.value[1], w.value[2], w.value[3])));
      case DoubleT =>
        var w := ReadRaw(8);
        v := if w.None? then None else Some(Real(DoubleOf(w.value)));
      case BoolT =>
        var w := ReadRaw(1);
        v := if w.None? then None else Some(Bool(w.value[0] != 0));
      case StringT =>
        var n := ReadRaw(2);
        if n.None? {
          return None;
        }
        var w := ReadRaw(ShortOf(n.value[0], n.value[1]));
        v := if w.None? then None else Some(Text(w.value));
      case VectorT(elem) =>
        var n := ReadRaw(1);
        if n.None? {
          return None;
        }
        var vs: seq<Value> := [];
        for k := 0 to n.value[0]
          invariant DecodeAll(elem, bytes, old(pos) + 1, k) == Got(vs, pos)
        {
          var x := ReadValue(elem);
          if x.None? {
            FailsBefore(elem, bytes, old(pos) + 1, k + 1, n.value[0]);
            return None;
          }
          vs := vs + [x.value];
        }
        v := Some(Vector(elem, vs));
      case PairT(first, second) =>
        var x := ReadValue(first);
        if x.None? {
          return None;
        }
        var y := ReadValue(second);
        v := if y.None? then None else Some(Pair(x.value, y.value));
    }

    method WriteAny(r: Registry, a: Any)
      requires a.Holding? ==> Fits(a.v)
      modifies this`bytes
      ensures bytes == old(bytes) + EncodeAny(r, a)
    {
      if a.Holding? && TypeOf(a.v) in r.tags {
        WriteRaw([r.tags[TypeOf(a.v)] % 0x100]);
        WriteValue(a.v);
      } else {
        WriteRaw([0]);
      }
    }

    method ReadAny(r: Registry) returns (a: Option<Any>)
      modifies this`pos
      ensures match DecodeAny(r, bytes, old(pos))
              case Failed => a == None
              case Got(x, q) => a == Some(x) && pos == q
    {
      var tag := ReadRaw(1);
      if tag.None? {
        return None;
      }
      if tag.value[0] == 0 || tag.value[0] !in r.types {
        return Some(Nothing);
      }
      var v := ReadValue(r.types[tag.value[0]]);
      a := if v.None? then None else Some(Holding(v.value));
    }

    method Write(s: Setup, p: Option<Packet>)
      requires p.Some? ==> Fits(p.value.content)
      modifies this`bytes
      ensures bytes == old(bytes) + EncodePacket(s, p)
    {
      WriteRaw([if p.None? then 1 else 0]);
      if p.Some? && p.value.kind in s.serializers {
        WriteRaw([p.value.kind]);
        WriteValue(p.value.content);
      }
    }

    method Read(s: Setup) returns (p: Option<Option<Packet>>)
      modifies this`pos
      ensures match DecodePacket(s, bytes, old(pos))
              case Failed => p == None
              case Got(x, q) => p == Some(x) && pos == q
    {
      var none := ReadRaw(1);
      if none.None? {
        return None;
      }
      if none.value[0] != 0 {
        return Some(None);
      }
      var kind := ReadRaw(1);
      if kind.None? {
        return None;
      }
      if kind.value[0] !in s.serializers {
        return Some(None);
      }
      var v := ReadValue(s.serializers[kind.value[0]]);
      p := if v.None? then None else Some(Some(Packet(kind.value[0], v.value)));
    }
  }

  lemma {:induction false} FailsBefore(t: Type, b: Bytes, p: nat, k: nat, n: nat)
    requires k <= n && DecodeAll(t, b, p, k) == Failed
    ensures DecodeAll(t, b, p, n) == Failed
  {
    if k < n {
      FailsBefore(t, b, p, k, n - 1);
    }
  }
}
