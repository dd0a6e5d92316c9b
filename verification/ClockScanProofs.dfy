/** What a scan of the clock ring finds that is not atomic: writes go on while it looks at the
    slots, or even while it loads the bytes of one time. */
module ClockScanProofs {
  import opened Bytes
  import opened ClockRing
  import opened ClockRingProofs

  // ----- scans that overlap writes

  /** The memory at a moment counted in byte stores, twelve to a write. */
  ghost function AtTime(size: nat, us: seq<ClockUnit>, t: nat): Memory
    requires size >= RING_SIZE && AllValid(us) && t <= STORES * |us|
  {
    var w := t / STORES;
    if w == |us| then Written(size, us) else MidWrite(Written(size, us[..w]), us[..w], us[w], t % STORES)
  }

  /** The writes begun by then. */
  ghost function Begun(t: nat): nat {
    (t + STORES - 1) / STORES
  }

  /** Between two writes the memory is the one after the writes so far. */
  lemma AtBoundary(size: nat, us: seq<ClockUnit>, t: nat)
    requires size >= RING_SIZE && AllValid(us) && t <= STORES * |us| && t % STORES == 0
    ensures AtTime(size, us, t) == Written(size, us[..t / STORES])
  {
    var w := t / STORES;
    assert w == |us| ==> us[..w] == us;
  }

  lemma BoundedSlot(us: seq<ClockUnit>, m: Memory, slot: nat)
    requires Represents(m, us) && Increasing(us) && slot < SLOTS
    ensures 0 <= PtsAt(m, slot) <= if us == [] then 0 else us[|us| - 1].pts
  {
    assert Holds(m, us, slot);
  }

  /** At any moment no slot shows a time above that of the last write begun. */
  lemma SlotAtTime(size: nat, us: seq<ClockUnit>, t: nat, slot: nat)
    requires size >= RING_SIZE && AllValid(us) && Increasing(us) && t <= STORES * |us| && slot < SLOTS
    ensures 0 <= PtsAt(AtTime(size, us, t), slot)
    ensures PtsAt(AtTime(size, us, t), slot) <= if Begun(t) == 0 then 0 else us[Begun(t) - 1].pts
  {
    var w, k := t / STORES, t % STORES;
    var done := us[..w];
    WrittenRepresents(size, done);
    if k == 0 {
      AtBoundary(size, us, t);
      BoundedSlot(done, Written(size, done), slot);
    } else {
      MidWriteSlots(Written(size, done), done, us[w], k, slot);
    }
  }

  /** A completed write stays in its slot, frame number and time, until the ring has gone
      round. */
  lemma KeptUntilLap(size: nat, us: seq<ClockUnit>, t: nat, w: nat)
    requires size >= RING_SIZE && AllValid(us) && t <= STORES * |us|
    requires 1 <= w && STORES * w <= t <= STORES * (w + SLOTS - 1)
    ensures UnitAt(AtTime(size, us, t), (w - 1) % SLOTS) == us[w - 1]
  {
    var v, k := t / STORES, t % STORES;
    var done := us[..v];
    var m := Written(size, done);
    WrittenRepresents(size, done);
    WindowIsStored(m, done, w - 1);
    if k == 0 {
      AtBoundary(size, us, t);
    } else {
      SlotsApart(v, w - 1);
      OtherSlotKept(m, v % SLOTS, us[v], k, (w - 1) % SLOTS);
    }
  }

  lemma SlotsApart(a: nat, b: nat)
    requires b < a < b + SLOTS
    ensures a % SLOTS != b % SLOTS
  {
  }

  /** The time that a reader saw in a slot was there at some moment of the scan. */
  ghost predicate SeenAt(seen: Memory, size: nat, us: seq<ClockUnit>, slot: nat, t: nat)
    requires size >= RING_SIZE && AllValid(us) && slot < SLOTS
  {
    t <= STORES * |us| && PtsAt(seen, slot) == PtsAt(AtTime(size, us, t), slot)
  }

  ghost predicate SeenDuring(seen: Memory, size: nat, us: seq<ClockUnit>, slot: nat, begin: nat, end: nat)
    requires size >= RING_SIZE && AllValid(us) && slot < SLOTS
  {
    exists t: nat :: begin <= t <= end && SeenAt(seen, size, us, slot, t)
  }

  /** What a reader assembles that looks at every slot at its own moment from `begin` to `end`. */
  ghost predicate Assembled(seen: Memory, size: nat, us: seq<ClockUnit>, begin: nat, end: nat)
    requires size >= RING_SIZE && AllValid(us)
  {
    forall slot: nat :: slot < SLOTS ==> SeenDuring(seen, size, us, slot, begin, end)
  }

  lemma SeenAnchor(seen: Memory, size: nat, us: seq<ClockUnit>, w: nat, end: nat)
    requires size >= RING_SIZE && AllValid(us) && Assembled(seen, size, us, STORES * w, end)
    requires 1 <= w <= |us| && end <= STORES * (w + SLOTS - 1)
    ensures PtsAt(seen, (w - 1) % SLOTS) == us[w - 1].pts > 0
  {
    var anchor := (w - 1) % SLOTS;
    assert SeenDuring(seen, size, us, anchor, STORES * w, end);
    var t: nat :| STORES * w <= t <= end && SeenAt(seen, size, us, anchor, t);
    KeptUntilLap(size, us, t, w);
    assert us[w - 1].Valid();
  }

  lemma SeenBound(seen: Memory, size: nat, us: seq<ClockUnit>, b: nat, begin: nat, end: nat)
    requires size >= RING_SIZE && AllValid(us) && Increasing(us) && Assembled(seen, size, us, begin, end)
    requires b < SLOTS && 0 < end <= STORES * |us|
    ensures PtsAt(seen, b) <= us[Begun(end) - 1].pts
  {
    assert SeenDuring(seen, size, us, b, begin, end);
    var t: nat :| begin <= t <= end && SeenAt(seen, size, us, b, t);
    SlotAtTime(size, us, t, b);
    BegunGrows(t, end);
    assert us[Begun(end) - 1].Valid();
  }

  lemma BegunGrows(t: nat, end: nat)
    requires t <= end
    ensures Begun(t) <= Begun(end)
  {
  }

  /** A scan that is not atomic: every slot is looked at at its own moment, in any order, while
      further writes go on. As long as fewer than 50 writes begin after the `w` completed
      before the scan, what it finds lies between the last of those and the last begun. */
  lemma OverlappingScanBound(seen: Memory, size: nat, us: seq<ClockUnit>, w: nat, end: nat)
    requires size >= RING_SIZE && AllValid(us) && Increasing(us) && Assembled(seen, size, us, STORES * w, end)
    requires 1 <= w && STORES * w <= end <= STORES * |us| && end <= STORES * (w + SLOTS - 1)
    ensures exists b: nat :: b < SLOTS && IsLatest(seen, b)
    ensures forall b: nat :: b < SLOTS && IsLatest(seen, b) ==>
      us[w - 1].pts <= PtsAt(seen, b) <= us[Begun(end) - 1].pts
  {
    SeenAnchor(seen, size, us, w, end);
    var n := SLOTS;
    assert IsLatest(seen, BestSlot(seen, n));
    forall b: nat | b < SLOTS && IsLatest(seen, b)
      ensures us[w - 1].pts <= PtsAt(seen, b) <= us[Begun(end) - 1].pts
    {
      SeenBound(seen, size, us, b, STORES * w, end);
    }
  }

  // ----- scans that load byte by byte

  /** The first write to `slot` from write `w` on. */
  function NextWriteTo(w: nat, slot: nat): (x: nat)
    requires slot < SLOTS
    ensures w <= x < w + SLOTS && x % SLOTS == slot
  {
    var r := w % SLOTS;
    if slot >= r then w + (slot - r) else w + SLOTS - (r - slot)
  }

  /** Within a lap only that write goes to the slot. */
  lemma OnlyWriteTo(w: nat, slot: nat, v: nat)
    requires slot < SLOTS && w <= v < w + SLOTS
    ensures v % SLOTS == slot <==> v == NextWriteTo(w, slot)
  {
    var x := NextWriteTo(w, slot);
    if v < x {
      SlotsApart(x, v);
    } else if x < v {
      SlotsApart(v, x);
    }
  }

  /** The bytes of a slot's time when `v` writes are complete, `w` of them before the lap. */
  lemma {:induction false} LapBytes(size: nat, us: seq<ClockUnit>, w: nat, v: nat, slot: nat)
    requires size >= RING_SIZE && AllValid(us) && slot < SLOTS && w <= v <= |us| && v < w + SLOTS
    ensures var x := NextWriteTo(w, slot);
      PtsBytes(Written(size, us[..v]), slot) ==
        if v <= x then PtsBytes(Written(size, us[..w]), slot) else ToLe(us[x].pts, 8)
    decreases v
  {
    if v > w {
      LapBytes(size, us, w, v - 1, slot);
      OnlyWriteTo(w, slot, v - 1);
      var m, k := Written(size, us[..v - 1]), STORES;
      assert us[..v][..v - 1] == us[..v - 1] && us[..v][v - 1] == us[v - 1];
      WrittenStep(size, us[..v], k);
      if (v - 1) % SLOTS == slot {
        ViewOfPts(m, slot, us[v - 1], k);
        FullyTorn(PtsBytes(m, slot), ToLe(us[v - 1].pts, 8), 8);
      } else {
        ViewOfOtherSlot(m, (v - 1) % SLOTS, us[v - 1], k, slot);
      }
    }
  }

  /** `k` stands for the number of stores, so that the verifier does not unfold them all. */
  lemma WrittenStep(size: nat, us: seq<ClockUnit>, k: nat)
    requires size >= RING_SIZE && AllValid(us) && us != [] && k == STORES
    ensures var n := |us| - 1;
      Written(size, us) == View(Written(size, us[..n]), n % SLOTS, us[n], k)
  {
  }

  /** How many bytes of the time are stored at moment `t` by the write that begins at `begin`. */
  function StoredBytes(t: nat, begin: nat): (k: nat)
    ensures k <= 8
  {
    if t <= begin then 0 else if t - begin >= 8 then 8 else t - begin
  }

  /** The bytes of a slot's time at any moment of a lap. */
  lemma BytesAtTime(size: nat, us: seq<ClockUnit>, w: nat, t: nat, slot: nat)
    requires size >= RING_SIZE && AllValid(us) && slot < SLOTS && w <= |us|
    requires STORES * w <= t <= STORES * |us| && t <= STORES * (w + SLOTS - 1)
    ensures var x, before := NextWriteTo(w, slot), PtsBytes(Written(size, us[..w]), slot);
      PtsBytes(AtTime(size, us, t), slot) ==
        if t <= STORES * x then before else Torn(before, ToLe(us[x].pts, 8), StoredBytes(t, STORES * x))
  {
    var v, k := t / STORES, t % STORES;
    var x := NextWriteTo(w, slot);
    var m := Written(size, us[..v]);
    LapBytes(size, us, w, v, slot);
    if k == 0 {
      AtBoundary(size, us, t);
    } else {
      OnlyWriteTo(w, slot, v);
      if v == x {
        ViewOfPts(m, slot, us[v], k);
      } else {
        ViewOfOtherSlot(m, v % SLOTS, us[v], k, slot);
      }
    }
    if v > x {
      FullyTorn(PtsBytes(Written(size, us[..w]), slot), ToLe(us[x].pts, 8), 8);
    }
  }

  /** Byte `j` of the time in `slot` is loaded at moment `moments[j]` of the scan. */
  ghost predicate LoadsAt(
    seen: Memory, size: nat, us: seq<ClockUnit>, slot: nat, moments: seq<nat>, begin: nat, end: nat)
    requires size >= RING_SIZE && AllValid(us) && slot < SLOTS && end <= STORES * |us|
  {
    && |moments| == 8
    && (forall j :: 0 <= j < 8 ==> begin <= moments[j] <= end)
    && (forall j :: 0 <= j < 8 ==> PtsBytes(seen, slot)[j] == PtsBytes(AtTime(size, us, moments[j]), slot)[j])
  }

  /** The stores of the write that begins at `begin` that are done at each of the moments. */
  function StoresAt(moments: seq<nat>, begin: nat): (stores: seq<nat>)
    ensures |stores| == |moments|
    ensures forall j :: 0 <= j < |stores| ==> stores[j] == StoredBytes(moments[j], begin)
  {
    seq(|moments|, j requires 0 <= j < |moments| => StoredBytes(moments[j], begin))
  }

  /** The order of the loads: if the slot is rewritten during the scan, the bytes of its time
      loaded after they were overwritten are the lowest ones. */
  ghost predicate OrderedLoads(moments: seq<nat>, slot: nat, w: nat)
    requires slot < SLOTS
  {
    FreshBelow(StoresAt(moments, STORES * NextWriteTo(w, slot)))
  }

  lemma LoadedByte(size: nat, us: seq<ClockUnit>, slot: nat, w: nat, t: nat, j: nat)
    requires size >= RING_SIZE && AllValid(us) && slot < SLOTS && w <= |us| && j < 8 && NextWriteTo(w, slot) < |us|
    requires STORES * w <= t <= STORES * |us| && t <= STORES * (w + SLOTS - 1)
    ensures var x := NextWriteTo(w, slot);
      PtsBytes(AtTime(size, us, t), slot)[j] ==
        if StoredBytes(t, STORES * x) > j then ToLe(us[x].pts, 8)[j] else PtsBytes(Written(size, us[..w]), slot)[j]
  {
    BytesAtTime(size, us, w, t, slot);
  }

  /** The slot is not written during the scan. */
  lemma UntouchedSlot(seen: Memory, size: nat, us: seq<ClockUnit>, slot: nat, moments: seq<nat>, w: nat, end: nat)
    requires size >= RING_SIZE && AllValid(us) && slot < SLOTS && NextWriteTo(w, slot) >= |us|
    requires STORES * w <= end <= STORES * |us| && end <= STORES * (w + SLOTS - 1)
    requires LoadsAt(seen, size, us, slot, moments, STORES * w, end)
    ensures SeenDuring(seen, size, us, slot, STORES * w, end)
  {
    forall j | 0 <= j < 8 ensures PtsBytes(seen, slot)[j] == PtsBytes(Written(size, us[..w]), slot)[j] {
      BytesAtTime(size, us, w, moments[j], slot);
    }
    SeenOld(seen, size, us, slot, w, end);
  }

  lemma LoadedBytes(seen: Memory, size: nat, us: seq<ClockUnit>, slot: nat, moments: seq<nat>, w: nat, end: nat)
    requires size >= RING_SIZE && AllValid(us) && slot < SLOTS && NextWriteTo(w, slot) < |us|
    requires STORES * w <= end <= STORES * |us| && end <= STORES * (w + SLOTS - 1)
    requires LoadsAt(seen, size, us, slot, moments, STORES * w, end)
    ensures var x := NextWriteTo(w, slot);
      PtsBytes(seen, slot)
        == Loaded(PtsBytes(Written(size, us[..w]), slot), ToLe(us[x].pts, 8), StoresAt(moments, STORES * x))
  {
    var x := NextWriteTo(w, slot);
    var loaded := Loaded(PtsBytes(Written(size, us[..w]), slot), ToLe(us[x].pts, 8), StoresAt(moments, STORES * x));
    forall j | 0 <= j < 8 ensures PtsBytes(seen, slot)[j] == loaded[j] {
      LoadedByte(size, us, slot, w, moments[j], j);
    }
  }

  /** Such a load is as good as a look at one moment of the scan. */
  lemma LoadIsOneMoment(seen: Memory, size: nat, us: seq<ClockUnit>, slot: nat, moments: seq<nat>, w: nat, end: nat)
    requires size >= RING_SIZE && AllValid(us) && slot < SLOTS
    requires STORES * w <= end <= STORES * |us| && end <= STORES * (w + SLOTS - 1)
    requires LoadsAt(seen, size, us, slot, moments, STORES * w, end) && OrderedLoads(moments, slot, w)
    ensures SeenDuring(seen, size, us, slot, STORES * w, end)
  {
    var x, before := NextWriteTo(w, slot), PtsBytes(Written(size, us[..w]), slot);
    if x >= |us| {
      UntouchedSlot(seen, size, us, slot, moments, w, end);
    } else {
      LoadedBytes(seen, size, us, slot, moments, w, end);
      var k := FreshBelowIsOneMoment(before, ToLe(us[x].pts, 8), StoresAt(moments, STORES * x));
      if k == 0 {
        SeenOld(seen, size, us, slot, w, end);
      } else {
        SeenTorn(seen, size, us, slot, w, end, k, moments[k - 1]);
      }
    }
  }

  lemma SeenOld(seen: Memory, size: nat, us: seq<ClockUnit>, slot: nat, w: nat, end: nat)
    requires size >= RING_SIZE && AllValid(us) && slot < SLOTS && STORES * w <= end <= STORES * |us|
    requires PtsBytes(seen, slot) == PtsBytes(Written(size, us[..w]), slot)
    ensures SeenDuring(seen, size, us, slot, STORES * w, end)
  {
    BytesAtTime(size, us, w, STORES * w, slot);
    assert SeenAt(seen, size, us, slot, STORES * w);
  }

  lemma SeenTorn(seen: Memory, size: nat, us: seq<ClockUnit>, slot: nat, w: nat, end: nat, k: nat, t: nat)
    requires size >= RING_SIZE && AllValid(us) && slot < SLOTS && NextWriteTo(w, slot) < |us| && 0 < k <= 8
    requires STORES * w <= end <= STORES * |us| && end <= STORES * (w + SLOTS - 1)
    requires t <= end && StoredBytes(t, STORES * NextWriteTo(w, slot)) >= k
    requires PtsBytes(seen, slot)
      == Torn(PtsBytes(Written(size, us[..w]), slot), ToLe(us[NextWriteTo(w, slot)].pts, 8), k)
    ensures SeenDuring(seen, size, us, slot, STORES * w, end)
  {
    var at := STORES * NextWriteTo(w, slot) + k;
    BytesAtTime(size, us, w, at, slot);
    assert SeenAt(seen, size, us, slot, at);
  }

  /** A scan that loads every byte of every time at its own moment while writes go on keeps the
      same bound, if in each slot the bytes loaded after they were overwritten are the lowest
      ones; loading the higher bytes of a time first is enough for that. */
  lemma ByteWiseScanBound(seen: Memory, size: nat, us: seq<ClockUnit>, moments: seq<seq<nat>>, w: nat, end: nat)
    requires size >= RING_SIZE && AllValid(us) && Increasing(us) && |moments| == SLOTS
    requires 1 <= w && STORES * w <= end <= STORES * |us| && end <= STORES * (w + SLOTS - 1)
    requires forall slot: nat :: slot < SLOTS ==>
      LoadsAt(seen, size, us, slot, moments[slot], STORES * w, end) && OrderedLoads(moments[slot], slot, w)
    ensures exists b: nat :: b < SLOTS && IsLatest(seen, b)
    ensures forall b: nat :: b < SLOTS && IsLatest(seen, b) ==>
      us[w - 1].pts <= PtsAt(seen, b) <= us[Begun(end) - 1].pts
  {
    forall slot: nat | slot < SLOTS ensures SeenDuring(seen, size, us, slot, STORES * w, end) {
      LoadIsOneMoment(seen, size, us, slot, moments[slot], w, end);
    }
    OverlappingScanBound(seen, size, us, w, end);
  }

  // ----- loads in another order overshoot

  /** The memory `m` with other bytes in the time of slot 0. */
  ghost function WithTime(m: Memory, time: seq<Byte>): (v: Memory)
    requires |time| == 8
    ensures PtsBytes(v, 0) == time
  {
    m[..4] + time + m[12..]
  }

  /** A first lap whose times start at `first` and grow by one, and one more write at `last`. */
  function LapAndOne(first: nat, last: nat): (us: seq<ClockUnit>)
    requires 0 < first && first + SLOTS <= last < 0x8000_0000_0000_0000
    ensures |us| == SLOTS + 1 && AllValid(us)
  {
    seq(SLOTS + 1, i requires 0 <= i < SLOTS + 1 =>
      if i < SLOTS then ClockUnit(i + 1, first + i) else ClockUnit(i + 1, last))
  }

  lemma LapGrows(first: nat, last: nat)
    requires 0 < first && first + SLOTS <= last < 0x8000_0000_0000_0000
    ensures Increasing(LapAndOne(first, last))
    ensures LapAndOne(first, last)[0].pts == first && LapAndOne(first, last)[SLOTS].pts == last
  {
  }

  /** What slot 0 holds before the rewrite. */
  lemma FirstOfLap(size: nat, us: seq<ClockUnit>, n: nat)
    requires size >= RING_SIZE && AllValid(us) && |us| == n + 1 && n == SLOTS
    ensures PtsBytes(Written(size, us[..n]), 0) == ToLe(us[0].pts, 8)
  {
    LapBytes(size, us, 0, SLOTS - 1, 0);
    assert NextWriteTo(0, 0) == 0;
    var k := STORES;
    assert us[..n][..n - 1] == us[..n - 1];
    WrittenStep(size, us[..n], k);
    ViewOfOtherSlot(Written(size, us[..n - 1]), SLOTS - 1, us[n - 1], k, 0);
  }

  lemma LoadedTime(time: seq<Byte>, m: Memory)
    requires |time| == 8 && time[7] <= 2
    ensures PtsAt(WithTime(m, time), 0) == Le(time) < 0x8000_0000_0000_0000
  {
    TopByteBounds(time);
    DecodeSlot(WithTime(m, time), 0);
  }

  lemma TopByteBounds(b: seq<Byte>)
    requires |b| == 8 && b[7] <= 2
    ensures Le(b) < 0x8000_0000_0000_0000
  {
    assert b == b[..7] + b[7..];
    LeOfConcat(b[..7], b[7..]);
    LeBound(b[..7]);
    assert Le(b[7..]) == b[7];
    assert Pow256(7) == 256 * 256 * 256 * Pow256(4);
    ConstantPowers();
  }

  /** The condition cannot be dropped: for every order of loads of slot 0 that breaks it, while
      the slot is rewritten at the start of the second lap, there are growing times for which
      the load gives more than the newest of them. */
  lemma OtherOrdersOvershoot(size: nat, moments: seq<nat>, n: nat) returns (us: seq<ClockUnit>, seen: Memory)
    requires size >= RING_SIZE && n == SLOTS && |moments| == 8 && !OrderedLoads(moments, 0, n)
    requires forall j :: 0 <= j < 8 ==> STORES * n <= moments[j] <= STORES * (n + 1)
    ensures |us| == n + 1 && AllValid(us) && Increasing(us)
    ensures LoadsAt(seen, size, us, 0, moments, STORES * n, STORES * (n + 1))
    ensures PtsAt(seen, 0) > us[n].pts
  {
    assert NextWriteTo(n, 0) == n;
    var stores := StoresAt(moments, STORES * n);
    var i, j :| 0 <= i < j < |stores| && stores[j] > j && stores[i] <= i;
    var before, after := StaleByteOvershoots(stores, i, j);
    TopByteBounds(after);
    us := LapAndOne(Le(before), Le(after));
    LapGrows(Le(before), Le(after));
    EncodeDecode(before);
    EncodeDecode(after);
    FirstOfLap(size, us, n);
    var loaded := Loaded(before, after, stores);
    seen := WithTime(Written(size, us), loaded);
    LoadedTime(loaded, Written(size, us));
    forall k | 0 <= k < 8 ensures PtsBytes(seen, 0)[k] == PtsBytes(AtTime(size, us, moments[k]), 0)[k] {
      LoadedByte(size, us, 0, n, moments[k], k);
    }
  }

  lemma OtherTimeKept(m: Memory, time: seq<Byte>, slot: nat)
    requires |time| == 8 && 0 < slot < SLOTS
    ensures PtsBytes(WithTime(m, time), slot) == PtsBytes(m, slot)
  {
  }

  /** The moments at which a scan loads the bytes of a slot: all after the write that is complete
      at `end`, except the lowest byte of slot 0, before it. */
  function LowByteEarly(slot: nat, end: nat): (moments: seq<nat>)
    requires end >= STORES
    ensures |moments| == 8
  {
    seq(8, j => if slot == 0 && j == 0 then end - STORES else end)
  }

  /** 305 with the lowest byte of 255. */
  lemma MixedTime(first: nat, last: nat, mixed: nat)
    requires first == 255 && last == 305 && mixed == 511
    ensures Le(ToLe(mixed, 8)) == mixed && ToLe(mixed, 8)[7] == 0
    ensures forall j :: 0 <= j < 8 ==> ToLe(mixed, 8)[j] == if j == 0 then ToLe(first, 8)[0] else ToLe(last, 8)[j]
  {
    ConstantPowers();
    DecodeEncode(mixed, 8);
    EncodedByte(mixed, 8, 7);
    assert Pow256(7) == 256 * 256 * Pow256(5);
    QuotientIsZero(mixed, Pow256(7));
    assert mixed / 256 == last / 256;
  }

  /** What a scan gets from a slot that loads in that way around write `n`. */
  ghost predicate LoadsLowByteEarly(seen: Memory, size: nat, us: seq<ClockUnit>, slot: nat, n: nat)
    requires size >= RING_SIZE && AllValid(us) && slot < SLOTS && |us| == n + 1
  {
    LoadsAt(seen, size, us, slot, LowByteEarly(slot, STORES * (n + 1)), STORES * n, STORES * (n + 1))
  }

  /** Slot 0, at the start of the second lap. */
  lemma SlotZeroLoads(size: nat, us: seq<ClockUnit>, seen: Memory, n: nat)
    requires size >= RING_SIZE && AllValid(us) && n == SLOTS && |us| == n + 1
    requires PtsBytes(seen, 0)[0] == ToLe(us[0].pts, 8)[0]
    requires forall j :: 0 < j < 8 ==> PtsBytes(seen, 0)[j] == ToLe(us[n].pts, 8)[j]
    ensures LoadsLowByteEarly(seen, size, us, 0, n)
  {
    FirstOfLap(size, us, n);
    assert NextWriteTo(n, 0) == n;
    var moments := LowByteEarly(0, STORES * (n + 1));
    forall j | 0 <= j < 8 ensures PtsBytes(seen, 0)[j] == PtsBytes(AtTime(size, us, moments[j]), 0)[j] {
      LoadedByte(size, us, 0, n, moments[j], j);
    }
  }

  /** The other slots. */
  lemma OtherLoads(size: nat, us: seq<ClockUnit>, m: Memory, time: seq<Byte>, slot: nat, n: nat)
    requires size >= RING_SIZE && AllValid(us) && |us| == n + 1 && |time| == 8 && 0 < slot < SLOTS
    requires m == AtTime(size, us, STORES * (n + 1))
    ensures LoadsLowByteEarly(WithTime(m, time), size, us, slot, n)
  {
    OtherTimeKept(m, time, slot);
    var moments := LowByteEarly(slot, STORES * (n + 1));
    assert forall j :: 0 <= j < 8 ==> moments[j] == STORES * (n + 1);
  }

  lemma OtherTimes(us: seq<ClockUnit>, m: Memory, time: seq<Byte>, slot: nat)
    requires Represents(m, us) && |us| == SLOTS + 1 && |time| == 8 && 0 < slot < SLOTS
    ensures PtsAt(WithTime(m, time), slot) == us[slot].pts
  {
    OtherTimeKept(m, time, slot);
    WindowIsStored(m, us, slot);
  }

  /** A scan that gives 511 while the newest of the growing times 255 to 305 is being written.
      The numbers are parameters so that the verifier does not compute with them. */
  lemma ScanOvershoots(size: nat, n: nat, first: nat, last: nat, mixed: nat) returns (us: seq<ClockUnit>, seen: Memory)
    requires size >= RING_SIZE && n == SLOTS && first == 255 && last == 305 && mixed == 511
    ensures |us| == n + 1 && AllValid(us) && Increasing(us) && us[0].pts == first && us[n].pts == last < mixed
    ensures forall slot: nat :: slot < SLOTS ==> LoadsLowByteEarly(seen, size, us, slot, n)
    ensures IsLatest(seen, 0) && PtsAt(seen, 0) == mixed
  {
    us := LapAndOne(first, last);
    LapGrows(first, last);
    MixedTime(first, last, mixed);
    seen := MixedScan(size, us, n, ToLe(mixed, 8));
  }

  lemma MixedScan(size: nat, us: seq<ClockUnit>, n: nat, time: seq<Byte>) returns (seen: Memory)
    requires size >= RING_SIZE && n == SLOTS && |us| == n + 1 && AllValid(us) && Increasing(us)
    requires |time| == 8 && time[7] == 0 && us[n].pts < Le(time) && time[0] == ToLe(us[0].pts, 8)[0]
    requires forall j :: 0 < j < 8 ==> time[j] == ToLe(us[n].pts, 8)[j]
    ensures forall slot: nat :: slot < SLOTS ==> LoadsLowByteEarly(seen, size, us, slot, n)
    ensures IsLatest(seen, 0) && PtsAt(seen, 0) == Le(time)
  {
    var m := Written(size, us);
    seen := WithTime(m, time);
    AtBoundary(size, us, STORES * (n + 1));
    assert us[..n + 1] == us;
    WrittenRepresents(size, us);
    LoadedTime(time, m);
    SlotZeroLoads(size, us, seen, n);
    forall slot: nat | slot < SLOTS
      ensures LoadsLowByteEarly(seen, size, us, slot, n) && (slot > 0 ==> PtsAt(seen, slot) < Le(time))
    {
      if slot > 0 {
        OtherLoads(size, us, m, time, slot, n);
        OtherTimes(us, m, time, slot);
      }
    }
  }
}
