/** Little-endian byte fields, and what a reader sees when a field is half overwritten. */
module Bytes {
  type Byte = b: int | 0 <= b < 0x100
  type UInt32 = v: int | 0 <= v < 0x1_0000_0000
  type UInt64 = v: int | 0 <= v < 0x1_0000_0000_0000_0000
  type Int64 = v: int | -0x8000_0000_0000_0000 <= v < 0x8000_0000_0000_0000

  function Pow256(k: nat): (p: nat)
    ensures p >= 1
  {
    if k == 0 then 1 else 256 * Pow256(k - 1)
  }

  /** The number a little-endian field denotes. */
  function Le(b: seq<Byte>): nat {
    if b == [] then 0 else b[0] + 256 * Le(b[1..])
  }

  /** The `width` low bytes of `v`, lowest first. */
  function ToLe(v: nat, width: nat): (b: seq<Byte>)
    ensures |b| == width
  {
    if width == 0 then [] else [v % 256] + ToLe(v / 256, width - 1)
  }

  lemma {:induction false} DecodeEncode(v: nat, width: nat)
    requires v < Pow256(width)
    ensures Le(ToLe(v, width)) == v
  {
    if width > 0 {
      DecodeEncode(v / 256, width - 1);
      assert ToLe(v, width)[1..] == ToLe(v / 256, width - 1);
    }
  }

  lemma {:induction false} EncodeDecode(b: seq<Byte>)
    ensures ToLe(Le(b), |b|) == b
  {
    if b != [] {
      EncodeDecode(b[1..]);
      LowByte(b[0], Le(b[1..]));
      assert b == [b[0]] + b[1..];
    }
  }

  lemma LowByte(low: Byte, high: nat)
    ensures (low + 256 * high) % 256 == low && (low + 256 * high) / 256 == high
  {
  }

  lemma {:induction false} LeBound(b: seq<Byte>)
    ensures Le(b) < Pow256(|b|)
  {
    if b != [] {
      LeBound(b[1..]);
    }
  }

  /** The `i`-th byte of an encoding is a shift and a mask of the value. */
  lemma {:induction false} EncodedByte(v: nat, width: nat, i: nat)
    requires i < width
    ensures ToLe(v, width)[i] == v / Pow256(i) % 256
  {
    if i > 0 {
      EncodedByte(v / 256, width - 1, i - 1);
      DivideTwice(v, Pow256(i - 1));
    }
  }

  lemma DivideTwice(v: nat, p: nat)
    requires p > 0
    ensures v / 256 / p == v / (256 * p)
  {
    var a, b := v / 256, v % 256;
    var q, r := a / p, a % p;
    Regroup(p, q);
    assert v == (256 * p) * q + (256 * r + b);
    DivideByPart(256 * p, q, 256 * r + b);
  }

  lemma Regroup(p: nat, q: nat)
    ensures (256 * p) * q == 256 * (p * q)
  {
  }

  lemma DivideByPart(p: nat, q: nat, r: nat)
    requires r < p
    ensures (p * q + r) / p == q && (p * q + r) % p == r
  {
    var x := p * q + r;
    var d := x / p - q;
    assert p * d == r - x % p by {
      assert p * (x / p) == p * q + p * d;
    }
    MultipleIsFar(p, d);
  }

  lemma MultipleIsFar(p: int, d: int)
    requires p >= 0
    ensures d >= 1 ==> p * d >= p
    ensures d <= -1 ==> p * d <= -p
  {
    if d >= 1 {
      assert p * d == p + p * (d - 1);
    } else if d <= -1 {
      assert p * d == -p + p * (d + 1);
    }
  }

  /** A field whose first `k` bytes have been overwritten by those of `new`. */
  function Torn(before: seq<Byte>, after: seq<Byte>, k: nat): (t: seq<Byte>)
    requires |before| == |after| && k <= |before|
    ensures |t| == |before|
  {
    after[..k] + before[k..]
  }

  /** Low bytes first means a torn field never overshoots a growing value. */
  lemma {:induction false} TornStaysBelow(before: seq<Byte>, after: seq<Byte>, k: nat)
    requires |before| == |after| && k <= |before|
    requires Le(before) <= Le(after)
    ensures Le(Torn(before, after, k)) <= Le(after)
  {
    if k == 0 {
      assert Torn(before, after, k) == before;
    } else {
      TornStaysBelow(before[1..], after[1..], k - 1);
      assert Torn(before, after, k)[1..] == Torn(before[1..], after[1..], k - 1);
    }
  }

  // ----- fields loaded byte by byte while they are overwritten

  /** What a reader gets that loads byte `i` when `stores[i]` bytes have been overwritten. */
  function Loaded(before: seq<Byte>, after: seq<Byte>, stores: seq<nat>): (b: seq<Byte>)
    requires |before| == |after| == |stores|
    ensures |b| == |before|
  {
    seq(|before|, i requires 0 <= i < |before| => if stores[i] > i then after[i] else before[i])
  }

  /** The bytes loaded after they were overwritten are the lowest ones. */
  ghost predicate FreshBelow(stores: seq<nat>) {
    forall i, j :: 0 <= i < j < |stores| && stores[j] > j ==> stores[i] > i
  }

  /** How many of the low bytes are loaded after they were overwritten. */
  function FreshBytes(stores: seq<nat>, i: nat): (k: nat)
    requires i <= |stores|
    ensures i <= k <= |stores|
    ensures forall j :: i <= j < k ==> stores[j] > j
    ensures k < |stores| ==> stores[k] <= k
    decreases |stores| - i
  {
    if i == |stores| || stores[i] <= i then i else FreshBytes(stores, i + 1)
  }

  /** Then the load is as good as seeing the whole field at one moment, and one that has passed
      when the highest fresh byte is loaded. */
  lemma FreshBelowIsOneMoment(before: seq<Byte>, after: seq<Byte>, stores: seq<nat>) returns (k: nat)
    requires |before| == |after| == |stores| && FreshBelow(stores)
    ensures k <= |before| && Loaded(before, after, stores) == Torn(before, after, k)
    ensures k > 0 ==> stores[k - 1] >= k
  {
    k := FreshBytes(stores, 0);
  }

  /** Loading the higher bytes no later than the lower ones, against the order of the stores, is
      enough for that. */
  lemma HighByteFirstIsFreshBelow(stores: seq<nat>)
    requires forall i, j :: 0 <= i < j < |stores| ==> stores[j] <= stores[i]
    ensures FreshBelow(stores)
  {
  }

  /** Whatever the field held, at least `gap` below the new value, the load does not exceed the
      new value. */
  ghost predicate NeverOvershoots(stores: seq<nat>, gap: nat) {
    forall before: seq<Byte>, after: seq<Byte> ::
      |before| == |after| == |stores| && Le(before) + gap <= Le(after) ==>
        Le(Loaded(before, after, stores)) <= Le(after)
  }

  lemma {:induction false} LeIsZero(b: seq<Byte>)
    ensures Le(b) == 0 <==> forall i :: 0 <= i < |b| ==> b[i] == 0
  {
    if b != [] {
      LeIsZero(b[1..]);
      assert forall i :: 1 <= i < |b| ==> b[i] == b[1..][i - 1];
    }
  }

  /** The field with the one byte `v` at `i`. */
  function OneByte(width: nat, i: nat, v: Byte): (b: seq<Byte>)
    ensures |b| == width
  {
    seq(width, k requires 0 <= k < width => if k == i then v else 0)
  }

  /** A low part, and a high part that starts with a byte 2. */
  lemma HighPartCounts(low: seq<Byte>, width: nat, j: nat)
    requires j < width && |low| == j
    ensures Le(low + OneByte(width, j, 2)[j..]) == Le(low) + Pow256(j) * Le(OneByte(width, j, 2)[j..])
    ensures Le(OneByte(width, j, 2)[j..]) >= 2
  {
    LeOfConcat(low, OneByte(width, j, 2)[j..]);
  }

  /** A byte loaded too early below one loaded late: a value for which the load overshoots. */
  lemma StaleByteOvershoots(stores: seq<nat>, i: nat, j: nat) returns (before: seq<Byte>, after: seq<Byte>)
    requires i < j < |stores| && stores[i] <= i && stores[j] > j
    ensures before == OneByte(|stores|, i, 255) && after == OneByte(|stores|, j, 2)
    ensures 0 < Le(before) && Le(before) + 256 <= Le(after) < Le(Loaded(before, after, stores))
  {
    var n := |stores|;
    before, after := OneByte(n, i, 255), OneByte(n, j, 2);
    var low, high := before[..j], after[j..];
    var none := after[..j];
    assert Loaded(before, after, stores) == low + high;
    assert after == none + high && before == low + before[j..];
    LeIsZero(none);
    LeIsZero(low);
    LeIsZero(before[j..]);
    assert low[i] == 255;
    HighPartCounts(low, n, j);
    HighPartCounts(none, n, j);
    LeOfConcat(low, before[j..]);
    LeBound(low);
    FarBelow(Le(low), Pow256(j), Le(high), j);
  }

  lemma FarBelow(l: nat, p: nat, h: nat, j: nat)
    requires l < p == Pow256(j) && h >= 2 && j > 0
    ensures l + 256 <= p * h
  {
    assert p == 256 * Pow256(j - 1);
    assert p * h == p + p + p * (h - 2);
  }

  /** Exactly: no load overshoots if and only if the bytes loaded after they were overwritten are
      the lowest ones; and a distance between old and new value does not help. */
  lemma OvershootsUnlessFreshBelow(stores: seq<nat>, gap: nat)
    requires gap <= 256
    ensures NeverOvershoots(stores, gap) <==> FreshBelow(stores)
  {
    if FreshBelow(stores) {
      forall before: seq<Byte>, after: seq<Byte> | |before| == |after| == |stores| && Le(before) + gap <= Le(after)
        ensures Le(Loaded(before, after, stores)) <= Le(after)
      {
        var k := FreshBelowIsOneMoment(before, after, stores);
        TornStaysBelow(before, after, k);
      }
    } else {
      var i, j :| 0 <= i < j < |stores| && stores[j] > j && stores[i] <= i;
      var before, after := StaleByteOvershoots(stores, i, j);
    }
  }

  lemma FieldParts(b: seq<Byte>, k: nat)
    requires k <= |b|
    ensures Le(b) == Le(b[..k]) + Pow256(k) * Le(b[k..])
  {
    LeOfConcat(b[..k], b[k..]);
    assert b == b[..k] + b[k..];
  }

  lemma Quotient(v: nat, p: nat, high: nat, low: nat)
    requires low < p && v == low + p * high
    ensures v / p == high && v % p == low
  {
    DivideByPart(p, high, low);
  }

  /** The low `k` bytes of a field are its value modulo 256^k, the rest its quotient. */
  lemma SplitField(b: seq<Byte>, k: nat)
    requires k <= |b|
    ensures Le(b[..k]) == Le(b) % Pow256(k) && Le(b[k..]) == Le(b) / Pow256(k)
  {
    FieldParts(b, k);
    LeBound(b[..k]);
    Quotient(Le(b), Pow256(k), Le(b[k..]), Le(b[..k]));
  }

  /** A torn field reads as zero exactly when both of its halves are zero. */
  lemma TornIsZero(before: seq<Byte>, after: seq<Byte>, k: nat)
    requires |before| == |after| && k <= |before|
    ensures Le(Torn(before, after, k)) == 0 <==> Le(after) % Pow256(k) == 0 && Le(before) < Pow256(k)
  {
    TornHalvesAreZero(before, after, k);
    SplitField(after, k);
    SplitField(before, k);
    QuotientIsZero(Le(before), Pow256(k));
  }

  /** A torn field reads as the new value exactly when the bytes not yet overwritten are equal. */
  lemma TornIsNew(before: seq<Byte>, after: seq<Byte>, k: nat)
    requires |before| == |after| && k <= |before|
    ensures Le(Torn(before, after, k)) == Le(after) <==> Le(before) / Pow256(k) == Le(after) / Pow256(k)
  {
    TornHighIsNew(before, after, k);
    SplitField(after, k);
    SplitField(before, k);
  }

  lemma TornHighIsNew(before: seq<Byte>, after: seq<Byte>, k: nat)
    requires |before| == |after| && k <= |before|
    ensures Le(Torn(before, after, k)) == Le(after) <==> Le(before[k..]) == Le(after[k..])
  {
    LeOfConcat(after[..k], before[k..]);
    LeOfConcat(after[..k], after[k..]);
    assert after == after[..k] + after[k..];
    SameMultiple(Pow256(k), Le(before[k..]), Le(after[k..]));
  }

  lemma SameMultiple(p: nat, x: nat, y: nat)
    requires p > 0
    ensures p * x == p * y <==> x == y
  {
    MultipleIsFar(p, x - y);
    assert p * x == p * y + p * (x - y);
  }

  lemma TornHalvesAreZero(before: seq<Byte>, after: seq<Byte>, k: nat)
    requires |before| == |after| && k <= |before|
    ensures Le(Torn(before, after, k)) == 0 <==> Le(after[..k]) == 0 && Le(before[k..]) == 0
  {
    LeOfConcat(after[..k], before[k..]);
    var high := Le(before[k..]);
    if high > 0 {
      MultipleIsFar(Pow256(k), high);
    }
  }

  lemma QuotientIsZero(x: nat, p: nat)
    requires p > 0
    ensures x / p == 0 <==> x < p
  {
    MultipleIsFar(p, x / p);
  }

  /** Two's complement view of an unsigned 64-bit word. */
  function AsInt64(v: UInt64): Int64 {
    if v < 0x8000_0000_0000_0000 then v else v - 0x1_0000_0000_0000_0000
  }

  /** A byte shifted to its place. */
  function Place(b: Byte, weight: nat): int {
    b * weight
  }

  /** Four bytes joined by shifts, as the source writes it out. */
  function U8ToU32(b: seq<Byte>): (v: UInt32)
    requires |b| == 4
  {
    Place(b[0], 1) + Place(b[1], 0x100) + Place(b[2], 0x1_0000) + Place(b[3], 0x100_0000)
  }

  function U8ToU64(b: seq<Byte>): (v: UInt64)
    requires |b| == 8
  {
    Place(b[0], 1) + Place(b[1], 0x100) + Place(b[2], 0x1_0000) + Place(b[3], 0x100_0000)
    + Place(b[4], 0x1_0000_0000) + Place(b[5], 0x100_0000_0000)
    + Place(b[6], 0x1_0000_0000_0000) + Place(b[7], 0x100_0000_0000_0000)
  }

  lemma JoinedBytes32(b: seq<Byte>)
    requires |b| == 4
    ensures U8ToU32(b) == Le(b)
  {
    assert Le(b[3..]) == b[3];
    assert Le(b[2..]) == b[2] + 256 * Le(b[3..]) by { assert b[2..][1..] == b[3..]; }
    assert Le(b[1..]) == b[1] + 256 * Le(b[2..]) by { assert b[1..][1..] == b[2..]; }
  }

  lemma JoinedBytes64(b: seq<Byte>)
    requires |b| == 8
    ensures U8ToU64(b) == Le(b)
  {
    var low, high := b[..4], b[4..];
    JoinedBytes32(low);
    JoinedBytes32(high);
    LeOfConcat(low, high);
    assert b == low + high;
    assert Pow256(4) == 0x1_0000_0000;
  }

  lemma {:induction false} LeOfConcat(a: seq<Byte>, b: seq<Byte>)
    ensures Le(a + b) == Le(a) + Pow256(|a|) * Le(b)
  {
    if a == [] {
      assert a + b == b;
    } else {
      LeOfConcat(a[1..], b);
      assert (a + b)[1..] == a[1..] + b;
      assert Pow256(|a|) * Le(b) == 256 * (Pow256(|a| - 1) * Le(b));
    }
  }
}
