/** What readers of the clock ring can rely on, between writes and in the middle of one. */
module ClockRingProofs {
  import opened Bytes
  import opened ClockRing

  // ----- the effect of some of the stores of a write

  function PtsStores(k: nat): nat { if k <= 8 then k else 8 }
  function FrameStores(k: nat): nat { if k <= 8 then 0 else k - 8 }

  /** After `k` stores the slot holds a torn time and a torn frame number. */
  lemma {:induction false} ViewOfPts(m: Memory, slot: nat, u: ClockUnit, k: nat)
    requires slot < SLOTS && u.Valid() && k <= STORES
    ensures PtsBytes(View(m, slot, u, k), slot) == Torn(PtsBytes(m, slot), ToLe(u.pts, 8), PtsStores(k))
  {
    if k > 0 {
      ViewOfPts(m, slot, u, k - 1);
      if k <= 8 {
        EncodedByte(u.pts, 8, k - 1);
      }
    }
  }

  lemma {:induction false} ViewOfFrame(m: Memory, slot: nat, u: ClockUnit, k: nat)
    requires slot < SLOTS && u.Valid() && k <= STORES
    ensures FrameBytes(View(m, slot, u, k), slot) == Torn(FrameBytes(m, slot), ToLe(u.frame, 4), FrameStores(k))
  {
    if k > 0 {
      ViewOfFrame(m, slot, u, k - 1);
      if k > 8 {
        EncodedByte(u.frame, 4, k - 9);
      }
    }
  }

  lemma {:induction false} ViewOfOtherSlot(m: Memory, slot: nat, u: ClockUnit, k: nat, other: nat)
    requires slot < SLOTS && u.Valid() && k <= STORES && other < SLOTS && other != slot
    ensures PtsBytes(View(m, slot, u, k), other) == PtsBytes(m, other)
    ensures FrameBytes(View(m, slot, u, k), other) == FrameBytes(m, other)
  {
    if k > 0 {
      ViewOfOtherSlot(m, slot, u, k - 1, other);
    }
  }

  // ----- decoding a slot

  lemma ConstantPowers()
    ensures Pow256(4) == 0x1_0000_0000
    ensures Pow256(8) == 0x1_0000_0000_0000_0000
  {
    assert Pow256(4) == 256 * Pow256(3);
    assert Pow256(8) == 256 * 256 * 256 * 256 * Pow256(4);
  }

  lemma DecodeSlot(m: Memory, slot: nat)
    requires slot < SLOTS
    ensures FrameAt(m, slot) == Le(FrameBytes(m, slot))
    ensures Le(PtsBytes(m, slot)) < 0x8000_0000_0000_0000 ==> PtsAt(m, slot) == Le(PtsBytes(m, slot))
  {
    JoinedBytes32(FrameBytes(m, slot));
    JoinedBytes64(PtsBytes(m, slot));
  }

  /** A complete write is read back as it was given. Here and below `k` stands for the number of
      stores, so that the verifier does not unfold twelve of them. */
  lemma CompleteView(m: Memory, slot: nat, u: ClockUnit, k: nat)
    requires slot < SLOTS && u.Valid() && k == STORES
    ensures FrameAt(View(m, slot, u, k), slot) == u.frame
    ensures PtsAt(View(m, slot, u, k), slot) == u.pts
  {
    ViewOfPts(m, slot, u, k);
    ViewOfFrame(m, slot, u, k);
    DecodeSlot(View(m, slot, u, k), slot);
    EncodedUnit(u);
    FullyTorn(PtsBytes(m, slot), ToLe(u.pts, 8), PtsStores(k));
    FullyTorn(FrameBytes(m, slot), ToLe(u.frame, 4), FrameStores(k));
  }

  lemma FullyTorn(before: seq<Byte>, after: seq<Byte>, k: nat)
    requires |before| == |after| == k
    ensures Torn(before, after, k) == after
  {
  }

  lemma EncodedUnit(u: ClockUnit)
    requires u.Valid()
    ensures Le(ToLe(u.pts, 8)) == u.pts && Le(ToLe(u.frame, 4)) == u.frame
  {
    ConstantPowers();
    DecodeEncode(u.pts, 8);
    DecodeEncode(u.frame, 4);
  }

  lemma OtherSlotKept(m: Memory, slot: nat, u: ClockUnit, k: nat, other: nat)
    requires slot < SLOTS && u.Valid() && k <= STORES && other < SLOTS && other != slot
    ensures FrameAt(View(m, slot, u, k), other) == FrameAt(m, other)
    ensures PtsAt(View(m, slot, u, k), other) == PtsAt(m, other)
  {
    ViewOfOtherSlot(m, slot, u, k, other);
  }

  // ----- which write a slot holds

  /** The last of `n` writes that went to `slot`, for a slot already used. */
  function LastWriteTo(n: nat, slot: nat): (i: nat)
    requires slot < SLOTS && slot < n
    ensures i < n && i % SLOTS == slot && n - SLOTS <= i
  {
    n - 1 - (n - 1 - slot) % SLOTS
  }

  lemma LastWriteStep(n: nat, slot: nat)
    requires slot < SLOTS
    ensures slot == n % SLOTS ==> slot <= n && LastWriteTo(n + 1, slot) == n
    ensures slot != n % SLOTS ==> slot != n && (slot < n ==> LastWriteTo(n + 1, slot) == LastWriteTo(n, slot))
  {
  }

  /** The slot reads as `us[i]` for the last write `i` that went there, or as zeroes. */
  ghost predicate Holds(m: Memory, us: seq<ClockUnit>, slot: nat)
    requires slot < SLOTS
  {
    if slot < |us| then
      var w := us[LastWriteTo(|us|, slot)];
      FrameAt(m, slot) == w.frame && PtsAt(m, slot) == w.pts
    else
      FrameAt(m, slot) == 0 && PtsAt(m, slot) == 0
  }

  lemma HoldsAfterWrite(m: Memory, us: seq<ClockUnit>, u: ClockUnit, slot: nat, k: nat)
    requires slot < SLOTS && u.Valid() && k == STORES
    requires Holds(m, us, slot)
    ensures Holds(View(m, |us| % SLOTS, u, k), us + [u], slot)
  {
    LastWriteStep(|us|, slot);
    if slot == |us| % SLOTS {
      CompleteView(m, slot, u, k);
    } else {
      OtherSlotKept(m, |us| % SLOTS, u, k, slot);
    }
  }

  /** Every slot of the memory holds the last write that went to it. */
  ghost predicate Represents(m: Memory, us: seq<ClockUnit>) {
    && AllValid(us)
    && (forall slot :: 0 <= slot < SLOTS ==> Holds(m, us, slot))
  }

  lemma ZeroedRepresentsNothing(m: Memory)
    requires forall i :: 0 <= i < |m| ==> m[i] == 0
    ensures Represents(m, [])
  {
    forall slot | 0 <= slot < SLOTS ensures Holds(m, [], slot) {
      assert forall i :: 0 <= i < 4 ==> FrameBytes(m, slot)[i] == 0;
      assert forall i :: 0 <= i < 8 ==> PtsBytes(m, slot)[i] == 0;
    }
  }

  lemma WriteExtends(m: Memory, us: seq<ClockUnit>, u: ClockUnit, k: nat)
    requires Represents(m, us) && u.Valid() && k == STORES
    ensures Represents(View(m, |us| % SLOTS, u, k), us + [u])
  {
    forall slot | 0 <= slot < SLOTS ensures Holds(View(m, |us| % SLOTS, u, k), us + [u], slot) {
      HoldsAfterWrite(m, us, u, slot, k);
    }
  }

  /** Over every run of accepted writes from a zeroed region at index 0. */
  lemma {:induction false} WrittenRepresents(size: nat, us: seq<ClockUnit>)
    requires size >= RING_SIZE
    requires AllValid(us)
    ensures Represents(Written(size, us), us)
  {
    if us == [] {
      ZeroedRepresentsNothing(Written(size, us));
    } else {
      var n := |us| - 1;
      WrittenRepresents(size, us[..n]);
      WriteExtends(Written(size, us[..n]), us[..n], us[n], STORES);
      assert us == us[..n] + [us[n]];
    }
  }

  // ----- reads between writes

  /** The lowest slot with the largest time among the first `n`. */
  ghost function BestSlot(m: Memory, n: nat): (b: nat)
    requires 1 <= n <= SLOTS
    ensures b < n
    ensures forall i :: 0 <= i < n ==> PtsAt(m, i) <= PtsAt(m, b)
    ensures forall i :: 0 <= i < b ==> PtsAt(m, i) < PtsAt(m, b)
  {
    if n == 1 then 0
    else
      var b := BestSlot(m, n - 1);
      if PtsAt(m, n - 1) > PtsAt(m, b) then n - 1 else b
  }

  /** A read of a ready memory in which some slot has a positive time. */
  lemma ReadsSomeSlot(m: Memory, unit: ClockUnit, positive: nat)
    requires FrameAt(m, 0) != 0
    requires positive < SLOTS && PtsAt(m, positive) > 0
    ensures exists b: nat :: b < SLOTS && IsLatest(m, b) && Read(m, unit) == Ready(UnitAt(m, b))
  {
    var n := SLOTS;
    var b := BestSlot(m, n);
    assert IsLatest(m, b);
    ReadsLatest(m, unit, b);
  }

  /** `w` is one of the last 50 writes, none of those has a larger time, and none in a lower
      slot has an equal one. */
  ghost predicate RecentMaximum(us: seq<ClockUnit>, w: nat) {
    && |us| - SLOTS <= w < |us|
    && (forall i: nat :: |us| - SLOTS <= i < |us| ==>
          us[i].pts <= us[w].pts && (i % SLOTS < w % SLOTS ==> us[i].pts < us[w].pts))
  }

  lemma WindowIsStored(m: Memory, us: seq<ClockUnit>, i: nat)
    requires Represents(m, us) && |us| - SLOTS <= i < |us|
    ensures FrameAt(m, i % SLOTS) == us[i].frame && PtsAt(m, i % SLOTS) == us[i].pts
  {
    LastWriteInWindow(|us|, i);
    assert Holds(m, us, i % SLOTS);
  }

  lemma LastWriteInWindow(n: nat, i: nat)
    requires n - SLOTS <= i < n
    ensures i % SLOTS < n && LastWriteTo(n, i % SLOTS) == i
  {
  }

  /** The ring refines "the recent writes": it reports not-ready exactly before the first
      write, and otherwise returns one single write, the largest of the last 50. */
  lemma RingRefinesRecentWrites(m: Memory, us: seq<ClockUnit>, unit: ClockUnit)
    requires Represents(m, us)
    ensures Read(m, unit) == NotReady <==> us == []
    ensures us != [] ==> exists w: nat :: RecentMaximum(us, w) && Read(m, unit) == Ready(us[w])
  {
    assert Holds(m, us, 0);
    if us != [] {
      var n := |us|;
      WindowIsStored(m, us, n - 1);
      ReadsSomeSlot(m, unit, (n - 1) % SLOTS);
      var b: nat :| b < SLOTS && IsLatest(m, b) && Read(m, unit) == Ready(UnitAt(m, b));
      assert Holds(m, us, b);
      LatestSlotIsRecentMaximum(m, us, b);
    }
  }

  lemma LatestSlotIsRecentMaximum(m: Memory, us: seq<ClockUnit>, b: nat)
    requires Represents(m, us) && b < SLOTS && IsLatest(m, b)
    ensures b < |us| && RecentMaximum(us, LastWriteTo(|us|, b))
  {
    var n := |us|;
    assert Holds(m, us, b);
    var w := LastWriteTo(n, b);
    forall i: nat | n - SLOTS <= i < n
      ensures us[i].pts <= us[w].pts && (i % SLOTS < w % SLOTS ==> us[i].pts < us[w].pts)
    {
      WindowIsStored(m, us, i);
    }
  }

  ghost predicate Increasing(us: seq<ClockUnit>) {
    forall i, j :: 0 <= i < j < |us| ==> us[i].pts < us[j].pts
  }

  /** With growing times the read is always the newest write. */
  lemma NewestWriteIsRead(m: Memory, us: seq<ClockUnit>, unit: ClockUnit)
    requires Represents(m, us) && us != [] && Increasing(us)
    ensures Read(m, unit) == Ready(us[|us| - 1])
  {
    RingRefinesRecentWrites(m, us, unit);
    var w: nat :| RecentMaximum(us, w) && Read(m, unit) == Ready(us[w]);
    assert us[|us| - 1].pts <= us[w].pts;
  }

  // ----- reads in the middle of a write

  /** The time field of the slot being written never exceeds the time being written, if the
      time that was there does not. */
  lemma TornPtsBound(m: Memory, slot: nat, u: ClockUnit, k: nat)
    requires slot < SLOTS && u.Valid() && k <= STORES
    requires 0 <= PtsAt(m, slot) <= u.pts
    ensures 0 <= PtsAt(View(m, slot, u, k), slot) <= u.pts
    ensures k >= 8 ==> PtsAt(View(m, slot, u, k), slot) == u.pts
  {
    ViewOfPts(m, slot, u, k);
    DecodeSlot(View(m, slot, u, k), slot);
    DecodeSlot(m, slot);
    JoinedBytes64(PtsBytes(m, slot));
    EncodedUnit(u);
    TornStaysBelow(PtsBytes(m, slot), ToLe(u.pts, 8), PtsStores(k));
    if k >= 8 {
      FullyTorn(PtsBytes(m, slot), ToLe(u.pts, 8), PtsStores(k));
    }
  }

  lemma TornFrameIsZero(m: Memory, slot: nat, u: ClockUnit, k: nat)
    requires slot < SLOTS && u.Valid() && k <= STORES
    ensures FrameAt(View(m, slot, u, k), slot) == 0 <==>
      u.frame % Pow256(FrameStores(k)) == 0 && FrameAt(m, slot) < Pow256(FrameStores(k))
  {
    ViewOfFrame(m, slot, u, k);
    DecodeSlot(View(m, slot, u, k), slot);
    DecodeSlot(m, slot);
    EncodedUnit(u);
    TornIsZero(FrameBytes(m, slot), ToLe(u.frame, 4), FrameStores(k));
  }

  /** The memory a reader sees when `k` of the stores of the next write, of `u`, are done. */
  ghost function MidWrite(m: Memory, us: seq<ClockUnit>, u: ClockUnit, k: nat): Memory
    requires k <= STORES && u.Valid()
  {
    View(m, |us| % SLOTS, u, k)
  }

  ghost predicate GrowsTo(us: seq<ClockUnit>, u: ClockUnit) {
    Increasing(us) && forall i :: 0 <= i < |us| ==> us[i].pts < u.pts
  }

  /** Every slot of the memory in the middle of a write. */
  lemma MidWriteSlots(m: Memory, us: seq<ClockUnit>, u: ClockUnit, k: nat, slot: nat)
    requires Represents(m, us) && u.Valid() && GrowsTo(us, u) && k <= STORES && slot < SLOTS
    ensures 0 <= PtsAt(MidWrite(m, us, u, k), slot) <= u.pts
    ensures slot == |us| % SLOTS && k >= 8 ==> PtsAt(MidWrite(m, us, u, k), slot) == u.pts
    ensures slot != |us| % SLOTS ==> PtsAt(MidWrite(m, us, u, k), slot) == PtsAt(m, slot)
  {
    assert Holds(m, us, slot);
    if slot == |us| % SLOTS {
      TornPtsBound(m, slot, u, k);
    } else {
      OtherSlotKept(m, |us| % SLOTS, u, k, slot);
    }
  }

  /** The slot that bounds a successful read from below: the newest complete one, or, on the
      very first write, the one being written, whose time is then complete. */
  ghost function AnchorSlot(us: seq<ClockUnit>): nat {
    if us == [] then 0 else (|us| - 1) % SLOTS
  }

  /** On the very first write the memory is ready only when the time is complete. */
  lemma FirstWriteTime(m: Memory, us: seq<ClockUnit>, u: ClockUnit, k: nat)
    requires Represents(m, us) && us == [] && u.Valid() && k <= STORES
    requires FrameAt(MidWrite(m, us, u, k), 0) != 0
    ensures k >= 8
  {
    assert Holds(m, us, 0);
    TornFrameIsZero(m, 0, u, k);
    assert k < 8 ==> Pow256(FrameStores(k)) == 1;
  }

  /** A later write leaves the newest complete one readable. */
  lemma NewestShows(m: Memory, us: seq<ClockUnit>, u: ClockUnit, k: nat)
    requires Represents(m, us) && us != [] && u.Valid() && k <= STORES
    ensures UnitAt(MidWrite(m, us, u, k), (|us| - 1) % SLOTS) == us[|us| - 1]
  {
    SlotBefore(|us|);
    WindowIsStored(m, us, |us| - 1);
    OtherSlotKept(m, |us| % SLOTS, u, k, (|us| - 1) % SLOTS);
  }

  lemma AnchorTime(m: Memory, us: seq<ClockUnit>, u: ClockUnit, k: nat)
    requires Represents(m, us) && u.Valid() && GrowsTo(us, u) && k <= STORES
    requires FrameAt(MidWrite(m, us, u, k), 0) != 0
    ensures PtsAt(MidWrite(m, us, u, k), AnchorSlot(us)) == if us == [] then u.pts else us[|us| - 1].pts
  {
    if us == [] {
      FirstWriteTime(m, us, u, k);
      MidWriteSlots(m, us, u, k, 0);
    } else {
      NewestShows(m, us, u, k);
    }
  }

  /** A read that falls between any two byte stores of a write, on any lap, and succeeds
      returns a time between the last completed one and the one being written. */
  lemma TornReadBound(m: Memory, us: seq<ClockUnit>, u: ClockUnit, k: nat, unit: ClockUnit)
    requires Represents(m, us) && u.Valid() && GrowsTo(us, u) && k <= STORES
    requires Read(MidWrite(m, us, u, k), unit).Ready?
    ensures Read(MidWrite(m, us, u, k), unit).unit.pts <= u.pts
    ensures us != [] ==> us[|us| - 1].pts <= Read(MidWrite(m, us, u, k), unit).unit.pts
    ensures us == [] ==> Read(MidWrite(m, us, u, k), unit).unit.pts == u.pts
  {
    var v := MidWrite(m, us, u, k);
    AnchorTime(m, us, u, k);
    assert us != [] ==> us[|us| - 1].Valid();
    ReadsSomeSlot(v, unit, AnchorSlot(us));
    var b: nat :| b < SLOTS && IsLatest(v, b) && Read(v, unit) == Ready(UnitAt(v, b));
    MidWriteSlots(m, us, u, k, b);
  }

  // ----- which frame number comes with the time

  /** The slot being written shows a later time than the newest complete write, or as late a one
      in a lower slot. */
  ghost predicate Ahead(v: Memory, us: seq<ClockUnit>)
    requires us != []
  {
    var slot, newest := |us| % SLOTS, us[|us| - 1].pts;
    PtsAt(v, slot) > newest || (PtsAt(v, slot) == newest && slot == 0)
  }

  /** The newest complete write beats all other slots. */
  lemma NewestBeatsOthers(m: Memory, us: seq<ClockUnit>, slot: nat)
    requires Represents(m, us) && us != [] && Increasing(us) && slot < SLOTS && slot != (|us| - 1) % SLOTS
    ensures PtsAt(m, slot) < us[|us| - 1].pts
  {
    assert Holds(m, us, slot);
    assert us[|us| - 1].Valid();
  }

  /** With all others behind, the latest slot is one of two. */
  lemma LatestOfTwo(v: Memory, slot: nat, anchor: nat)
    requires slot < SLOTS && anchor < SLOTS && slot != anchor && PtsAt(v, anchor) > 0
    requires forall i :: 0 <= i < SLOTS && i != slot && i != anchor ==> PtsAt(v, i) < PtsAt(v, anchor)
    ensures var ahead := PtsAt(v, slot) > PtsAt(v, anchor) || (PtsAt(v, slot) == PtsAt(v, anchor) && slot < anchor);
      IsLatest(v, if ahead then slot else anchor)
  {
  }

  lemma SlotBefore(n: nat)
    requires n > 0
    ensures n % SLOTS != (n - 1) % SLOTS && (n % SLOTS < (n - 1) % SLOTS <==> n % SLOTS == 0)
  {
  }

  lemma OthersBehind(m: Memory, us: seq<ClockUnit>, u: ClockUnit, k: nat, i: nat)
    requires Represents(m, us) && us != [] && u.Valid() && GrowsTo(us, u) && k <= STORES
    requires i < SLOTS && i != |us| % SLOTS && i != (|us| - 1) % SLOTS
    ensures PtsAt(MidWrite(m, us, u, k), i) < us[|us| - 1].pts
  {
    OtherSlotKept(m, |us| % SLOTS, u, k, i);
    NewestBeatsOthers(m, us, i);
  }

  lemma LatestInTheMiddle(m: Memory, us: seq<ClockUnit>, u: ClockUnit, k: nat)
    requires Represents(m, us) && us != [] && u.Valid() && GrowsTo(us, u) && k <= STORES
    ensures var v := MidWrite(m, us, u, k);
      IsLatest(v, if Ahead(v, us) then |us| % SLOTS else (|us| - 1) % SLOTS)
  {
    var v, slot, anchor := MidWrite(m, us, u, k), |us| % SLOTS, (|us| - 1) % SLOTS;
    SlotBefore(|us|);
    NewestShows(m, us, u, k);
    forall i | 0 <= i < SLOTS && i != slot && i != anchor ensures PtsAt(v, i) < us[|us| - 1].pts {
      OthersBehind(m, us, u, k, i);
    }
    assert us[|us| - 1].Valid();
    LatestOfTwo(v, slot, anchor);
  }

  /** A ready memory is read at its latest slot. */
  lemma ReadsLatest(v: Memory, unit: ClockUnit, b: nat)
    requires b < SLOTS && IsLatest(v, b) && FrameAt(v, 0) != 0
    ensures Read(v, unit) == Ready(UnitAt(v, b))
  {
    forall c: nat | c < SLOTS && IsLatest(v, c) ensures c == b {
      LatestIsUnique(v, c, b);
    }
  }

  /** What a read in the middle of a write returns. */
  lemma ReadInTheMiddle(m: Memory, us: seq<ClockUnit>, u: ClockUnit, k: nat, unit: ClockUnit)
    requires Represents(m, us) && us != [] && u.Valid() && GrowsTo(us, u) && k <= STORES
    requires Read(MidWrite(m, us, u, k), unit).Ready?
    ensures var v := MidWrite(m, us, u, k);
      Read(v, unit).unit == if Ahead(v, us) then UnitAt(v, |us| % SLOTS) else us[|us| - 1]
  {
    var v := MidWrite(m, us, u, k);
    LatestInTheMiddle(m, us, u, k);
    NewestShows(m, us, u, k);
    ReadsLatest(v, unit, if Ahead(v, us) then |us| % SLOTS else (|us| - 1) % SLOTS);
  }

  /** Frame number and time of one single write, complete or not. */
  ghost predicate IsOneWrite(r: ClockUnit, us: seq<ClockUnit>, u: ClockUnit) {
    r in us || r == u
  }

  /** Exactly when a read in the middle of a write returns frame number and time of one single
      write: the slot being written is not ahead, or it shows the new write or the newest
      complete one as a whole. */
  lemma PairIsOneWrite(m: Memory, us: seq<ClockUnit>, u: ClockUnit, k: nat, unit: ClockUnit)
    requires Represents(m, us) && us != [] && u.Valid() && GrowsTo(us, u) && k <= STORES
    requires Read(MidWrite(m, us, u, k), unit).Ready?
    ensures var v := MidWrite(m, us, u, k);
      IsOneWrite(Read(v, unit).unit, us, u) <==>
        !Ahead(v, us) || UnitAt(v, |us| % SLOTS) == u || UnitAt(v, |us| % SLOTS) == us[|us| - 1]
  {
    ReadInTheMiddle(m, us, u, k, unit);
    MidWriteSlots(m, us, u, k, |us| % SLOTS);
  }

  /** The frame number that was in the slot being written: that of 50 writes before, or zero. */
  ghost function OldFrame(us: seq<ClockUnit>): nat {
    if |us| < SLOTS then 0 else us[|us| - SLOTS].frame
  }

  lemma SlotOfLap(n: nat)
    ensures if n < SLOTS then n % SLOTS == n else (n - SLOTS) % SLOTS == n % SLOTS
  {
  }

  lemma SlotHeld(m: Memory, us: seq<ClockUnit>)
    requires Represents(m, us)
    ensures FrameAt(m, |us| % SLOTS) == OldFrame(us)
  {
    SlotOfLap(|us|);
    if |us| < SLOTS {
      assert Holds(m, us, |us| % SLOTS);
    } else {
      WindowIsStored(m, us, |us| - SLOTS);
    }
  }

  /** Once the time is stored, the read returns it with a torn frame number: the pair is one
      write's exactly if the bytes of the frame number still to be stored are equal in the new
      number and in that of 50 writes before. */
  lemma NewTimeWithOldFrame(m: Memory, us: seq<ClockUnit>, u: ClockUnit, k: nat, unit: ClockUnit)
    requires Represents(m, us) && us != [] && u.Valid() && GrowsTo(us, u) && 8 <= k <= STORES
    requires Read(MidWrite(m, us, u, k), unit).Ready?
    ensures var r, rest := Read(MidWrite(m, us, u, k), unit).unit, Pow256(FrameStores(k));
      && r.pts == u.pts && (k == 8 ==> r.frame == OldFrame(us))
      && (IsOneWrite(r, us, u) <==> OldFrame(us) / rest == u.frame / rest)
  {
    var v, slot := MidWrite(m, us, u, k), |us| % SLOTS;
    PairIsOneWrite(m, us, u, k, unit);
    ReadInTheMiddle(m, us, u, k, unit);
    MidWriteSlots(m, us, u, k, slot);
    SlotHeld(m, us);
    TornFrameIsNew(m, slot, u, k);
  }

  /** Such a pair exists: when the second lap begins, and the time of frame 51 is stored but not
      its number, the read returns that time with frame number 1. */
  lemma MixedPairHappens(m: Memory, us: seq<ClockUnit>, u: ClockUnit, k: nat, unit: ClockUnit)
    requires Represents(m, us) && |us| == SLOTS && u.Valid() && GrowsTo(us, u) && k == 8
    requires us[0].frame == 1 && u.frame == 51
    ensures var r := Read(MidWrite(m, us, u, k), unit);
      r == Ready(ClockUnit(1, u.pts)) && !IsOneWrite(r.unit, us, u)
  {
    SlotHeld(m, us);
    TornFrameIsNew(m, 0, u, k);
    NewTimeWithOldFrame(m, us, u, k, unit);
    assert Pow256(FrameStores(k)) == 1;
  }

  lemma TornFrameIsNew(m: Memory, slot: nat, u: ClockUnit, k: nat)
    requires slot < SLOTS && u.Valid() && 8 <= k <= STORES
    ensures var rest := Pow256(FrameStores(k));
      FrameAt(View(m, slot, u, k), slot) == u.frame <==> FrameAt(m, slot) / rest == u.frame / rest
    ensures k == 8 ==> FrameAt(View(m, slot, u, k), slot) == FrameAt(m, slot)
  {
    ViewOfFrame(m, slot, u, k);
    DecodeSlot(View(m, slot, u, k), slot);
    DecodeSlot(m, slot);
    EncodedUnit(u);
    TornIsNew(FrameBytes(m, slot), ToLe(u.frame, 4), FrameStores(k));
    if k == 8 {
      assert Torn(FrameBytes(m, slot), ToLe(u.frame, 4), 0) == FrameBytes(m, slot);
    }
  }

  /** Exactly when a read in the middle of a write reports not-ready although a write was
      completed: slot 0 is being overwritten, the bytes of the frame number stored so far are
      zero in the new number, and the others are zero in the old one. */
  lemma NotReadyInTheMiddle(m: Memory, us: seq<ClockUnit>, u: ClockUnit, k: nat, unit: ClockUnit)
    requires Represents(m, us) && us != [] && u.Valid() && k <= STORES
    ensures Read(MidWrite(m, us, u, k), unit) == NotReady <==>
      && |us| % SLOTS == 0
      && u.frame % Pow256(FrameStores(k)) == 0
      && us[|us| - SLOTS].frame < Pow256(FrameStores(k))
  {
    var slot := |us| % SLOTS;
    if slot == 0 {
      SlotHeld(m, us);
      TornFrameIsZero(m, slot, u, k);
    } else {
      FirstSlotIsUsed(m, us);
      OtherSlotKept(m, slot, u, k, 0);
    }
  }

  lemma FirstSlotIsUsed(m: Memory, us: seq<ClockUnit>)
    requires Represents(m, us) && us != []
    ensures FrameAt(m, 0) != 0
  {
    assert Holds(m, us, 0);
  }

  /** Such a read exists: a second lap that replaces frame 206 by frame 256. */
  lemma NotReadyHappens(m: Memory, us: seq<ClockUnit>, unit: ClockUnit)
    requires Represents(m, us) && |us| == SLOTS && us[0].frame == 206
    ensures Read(MidWrite(m, us, ClockUnit(256, 1000), 9), unit) == NotReady
  {
    NotReadyInTheMiddle(m, us, ClockUnit(256, 1000), 9, unit);
    assert Pow256(1) == 256;
  }
}
