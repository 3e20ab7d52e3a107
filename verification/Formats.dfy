/** Which bytes are written, told by the numbers that they stand for. */
module Formats {
  import opened TokenStates
  import opened Codec

  /** The number with these digits to the base of 256, the lowest first. */
  function Little(w: Bytes): nat {
    if w == [] then 0 else Little(w[1..]) * 0x100 + w[0]
  }

  /** The highest first. */
  function Big(w: Bytes): nat {
    if w == [] then 0 else Big(w[..|w| - 1]) * 0x100 + w[|w| - 1]
  }

  lemma LittleMore(x: Byte, w: Bytes)
    ensures Little([x] + w) == Little(w) * 0x100 + x
  {
    assert ([x] + w)[1..] == w;
  }

  lemma LittleTwo(a: int, b: int)
    requires 0 <= a < 0x100 && 0 <= b < 0x100
    ensures Little([a, b]) == b * 0x100 + a
  {
    LittleMore(b, []);
    LittleMore(a, [b]);
    assert [b] + [] == [b] && [a] + [b] == [a, b];
  }

  lemma LittleFour(a: int, b: int, c: int, d: int)
    requires 0 <= a < 0x100 && 0 <= b < 0x100 && 0 <= c < 0x100 && 0 <= d < 0x100
    ensures Little([a, b, c, d]) == ((d * 0x100 + c) * 0x100 + b) * 0x100 + a
  {
    LittleTwo(c, d);
    LittleMore(b, [c, d]);
    LittleMore(a, [b, c, d]);
    assert [b] + [c, d] == [b, c, d] && [a] + [b, c, d] == [a, b, c, d];
  }

  lemma BigMore(w: Bytes, x: Byte)
    ensures Big(w + [x]) == Big(w) * 0x100 + x
  {
    assert (w + [x])[..|w|] == w;
  }

  lemma BigFour(a: int, b: int, c: int, d: int)
    requires 0 <= a < 0x100 && 0 <= b < 0x100 && 0 <= c < 0x100 && 0 <= d < 0x100
    ensures Big([a, b, c, d]) == ((a * 0x100 + b) * 0x100 + c) * 0x100 + d
  {
    BigMore([], a);
    BigMore([a], b);
    BigMore([a, b], c);
    BigMore([a, b, c], d);
    assert [] + [a] == [a] && [a] + [b] == [a, b] && [a, b] + [c] == [a, b, c] && [a, b, c] + [d] == [a, b, c, d];
  }

  lemma BigJoined(u: Bytes, a: Byte, b: Byte, c: Byte, d: Byte)
    ensures Big(u + [a, b, c, d]) == Big(u) * 0x1_0000_0000 + Big([a, b, c, d])
  {
    BigFour(a, b, c, d);
    BigMore(u, a);
    BigMore(u + [a], b);
    BigMore(u + [a, b], c);
    BigMore(u + [a, b, c], d);
    assert (u + [a]) + [b] == u + [a, b] && (u + [a, b]) + [c] == u + [a, b, c] && (u + [a, b, c]) + [d] == u + [a, b, c, d];
  }

  // ---------------------------------------------------------------- numbers

  /** An integer has four bytes, the lowest first. */
  lemma IntFormat(i: Bits32)
    ensures |WordBytes(i)| == 4 && Little(WordBytes(i)) == i
  {
    var w := WordBytes(i);
    LittleFour(w[0], w[1], w[2], w[3]);
    WordReadBack(i);
  }

  /** A float is the sign, the mantissa and then the exponent, the highest bits first. */
  lemma FloatFormat(f: Float)
    ensures |FloatBytes(f)| == 4
    ensures Big(FloatBytes(f)) == (if f.sign then 0x8000_0000 else 0) + f.mantissa * 0x100 + f.exponent
  {
    var b := FloatBytes(f);
    BigFour(b[0], b[1], b[2], b[3]);
    var m := f.mantissa / 0x100;
    assert m == m / 0x100 * 0x100 + m % 0x100;
    assert f.mantissa == m * 0x100 + f.mantissa % 0x100;
  }

  /** A double is the bit pattern of section 3.4 of IEEE 754, sign, exponent and mantissa, the highest bits first. */
  lemma DoubleFormat(d: Double)
    ensures |DoubleBytes(d)| == 8
    ensures Big(DoubleBytes(d)) ==
            ((if d.sign then 0x800 else 0) + d.exponent) * 0x10_0000_0000_0000 + d.high * 0x1_0000_0000 + d.low
  {
    var b := DoubleBytes(d);
    HighWord(d);
    LowWord(d);
    assert b == b[..4] + [b[4], b[5], b[6], b[7]];
    BigJoined(b[..4], b[4], b[5], b[6], b[7]);
    assert b[..4] == [b[0], b[1], b[2], b[3]];
  }

  lemma LowWord(d: Double)
    ensures var b := DoubleBytes(d); Big([b[4], b[5], b[6], b[7]]) == d.low
  {
    var b := DoubleBytes(d);
    BigFour(b[4], b[5], b[6], b[7]);
    WordReadBack(d.low);
  }

  lemma HighWord(d: Double)
    ensures var b := DoubleBytes(d);
            Big([b[0], b[1], b[2], b[3]]) == ((if d.sign then 0x800 else 0) + d.exponent) * 0x10_0000 + d.high
  {
    var b := DoubleBytes(d);
    BigFour(b[0], b[1], b[2], b[3]);
    Upper(if d.sign then 0x80 else 0, d.exponent, d.high, d.high / 0x100 / 0x100);
    Lower(d.high);
  }

  lemma Lower(high: int)
    requires 0 <= high < 0x10_0000
    ensures high == (high / 0x100 / 0x100 * 0x100 + high / 0x100 % 0x100) * 0x100 + high % 0x100
  {
    var h := high / 0x100;
    assert high == h * 0x100 + high % 0x100;
    assert h == h / 0x100 * 0x100 + h % 0x100;
  }

  lemma Upper(sign: int, exponent: int, high: int, top: int)
    requires 0 <= exponent
    ensures (sign + exponent / 0x10) * 0x100 + (exponent * 0x10 % 0x100 + top) == (sign * 0x10 + exponent) * 0x10 + top
  {
    assert exponent * 0x10 % 0x100 == exponent % 0x10 * 0x10;
    assert exponent == exponent / 0x10 * 0x10 + exponent % 0x10;
  }

  // ---------------------------------------------------------------- values

  /** A text is its length in two bytes, the lowest first, and its characters. */
  lemma TextFormat(s: Bytes)
    requires |s| < 0xFFFF
    ensures var w := Encode(Text(s)); |w| == 2 + |s| && Little(w[..2]) == |s| && w[2..] == s
  {
    var w := Encode(Text(s));
    assert w[..2] == [|s| % 0x100, |s| / 0x100];
    LittleTwo(|s| % 0x100, |s| / 0x100);
  }

  lemma BoolFormat(b: bool)
    ensures Encode(Bool(b)) == [if b then 1 else 0]
  {
  }

  lemma {:induction false} AllFormat(vs: seq<Value>, n: nat, k: nat)
    requires k < n <= |vs| && forall j | 0 <= j < |vs| :: Fits(vs[j])
    ensures EncodeAll(vs, k + 1) == EncodeAll(vs, k) + Encode(vs[k])
    ensures EncodeAll(vs, k + 1) <= EncodeAll(vs, n) && EncodeAll(vs, 0) == []
  {
    if k < n - 1 {
      AllFormat(vs, n - 1, k);
    }
  }

  /** A vector is the number of its elements in one byte and then the elements, one behind the other in their order. */
  lemma VectorFormat(elem: Type, vs: seq<Value>, k: nat)
    requires Fits(Vector(elem, vs)) && k < |vs|
    ensures Encode(Vector(elem, vs))[0] == |vs| && Encode(Vector(elem, vs))[1..] == EncodeAll(vs, |vs|)
    ensures EncodeAll(vs, k + 1) == EncodeAll(vs, k) + Encode(vs[k])
    ensures EncodeAll(vs, k + 1) <= EncodeAll(vs, |vs|) && EncodeAll(vs, 0) == []
  {
    AllFormat(vs, |vs|, k);
  }

  lemma PairFormat(x: Value, y: Value)
    requires Fits(x) && Fits(y)
    ensures var w := Encode(Pair(x, y));
            |w| == |Encode(x)| + |Encode(y)| && w[..|Encode(x)|] == Encode(x) && w[|Encode(x)|..] == Encode(y)
  {
  }

  /** A value of any registered type is the number of the last registration of its type, in one byte, and the value. */
  lemma AnyFormat(ts: seq<Type>, n: nat, k: nat, v: Value)
    requires n <= |ts| && LastAt(ts, n, k) && ts[k - 1] == TypeOf(v) && Fits(v)
    ensures EncodeAny(Registered(ts, n), Holding(v)) == [k % 0x100] + Encode(v)
  {
    TagOfLast(ts, n, k);
  }

  lemma NoAnyFormat(ts: seq<Type>, n: nat, v: Value)
    requires n <= |ts| && TypeOf(v) !in ts[..n] && Fits(v)
    ensures EncodeAny(Registered(ts, n), Holding(v)) == [0] && EncodeAny(Registered(ts, n), Nothing) == [0]
  {
    TagIsLast(ts, n, TypeOf(v));
  }

  /** A packet is a byte that tells whether there is none, the byte of its serializer and its contents. */
  lemma PacketFormat(s: Setup, x: Packet)
    requires Fits(x.content)
    ensures EncodePacket(s, None) == [1]
    ensures x.kind in s.serializers ==> EncodePacket(s, Some(x)) == [0, x.kind] + Encode(x.content)
    ensures x.kind !in s.serializers ==> EncodePacket(s, Some(x)) == [0]
  {
  }

  /** Items stand one behind the other in their order. */
  lemma {:induction false} ItemsFormat(s: Setup, items: seq<Item>, n: nat, k: nat)
    requires k < n <= |items| && forall j | 0 <= j < |items| :: Writable(s, items[j])
    ensures EncodeItems(s, items, k + 1) == EncodeItems(s, items, k) + EncodeItem(s, items[k])
    ensures EncodeItems(s, items, k + 1) <= EncodeItems(s, items, n) && EncodeItems(s, items, 0) == []
  {
    if k < n - 1 {
      ItemsFormat(s, items, n - 1, k);
    }
  }

  /** In front of them stands the length of the whole buffer, in four bytes, the lowest first. */
  lemma HeaderFormat(w: Bytes)
    requires |w| + 4 < 0x1_0000_0000
    ensures |Framed(w)| == |w| + 4 && Little(Framed(w)[..4]) == |Framed(w)| && Framed(w)[4..] == w
  {
    IntFormat(|w| + 4);
    assert Framed(w)[..4] == WordBytes(|w| + 4);
  }

  // ---------------------------------------------------------------- what cannot be read

  /** A tag that nobody has registered leaves the value empty, and nothing behind it is read. */
  lemma UnknownTag(r: Registry, b: Bytes, p: nat)
    requires p < |b| && (b[p] == 0 || b[p] !in r.types)
    ensures DecodeAny(r, b, p) == Got(Nothing, p + 1)
  {
  }

  /** A packet whose serializer is not known is left out, as one that is not there. */
  lemma UnknownPacket(s: Setup, b: Bytes, p: nat)
    ensures p < |b| && b[p] != 0 ==> DecodePacket(s, b, p) == Got(None, p + 1)
    ensures p + 1 < |b| && b[p] == 0 && b[p + 1] !in s.serializers ==> DecodePacket(s, b, p) == Got(None, p + 2)
  {
  }

  /** Nothing is read beyond the end: what has been read of a buffer lies in it. */
  lemma {:induction false} WithinBuffer(t: Type, b: Bytes, p: nat)
    requires p <= |b|
    ensures Decode(t, b, p).Got? ==> p < Decode(t, b, p).next <= |b|
    decreases t, 0
  {
    match t
    case VectorT(elem) =>
      if p < |b| {
        AllWithinBuffer(elem, b, p + 1, b[p]);
      }
    case PairT(first, second) =>
      WithinBuffer(first, b, p);
      if Decode(first, b, p).Got? {
        WithinBuffer(second, b, Decode(first, b, p).next);
      }
    case _ =>
  }

  lemma {:induction false} AllWithinBuffer(t: Type, b: Bytes, p: nat, n: nat)
    requires p <= |b|
    ensures DecodeAll(t, b, p, n).Got? ==> p <= DecodeAll(t, b, p, n).next <= |b| && |DecodeAll(t, b, p, n).value| == n
    decreases t, n + 1
  {
    if n > 0 {
      AllWithinBuffer(t, b, p, n - 1);
      if DecodeAll(t, b, p, n - 1).Got? {
        WithinBuffer(t, b, DecodeAll(t, b, p, n - 1).next);
      }
    }
  }
}
