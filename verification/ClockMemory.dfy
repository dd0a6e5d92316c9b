/** The operations on the mapped clock memory, as the source performs them: byte stores into
    an array, a wrapping write index, and one scan over all slots. */
module ClockMemory {
  import opened Errno
  import opened Bytes
  import opened ClockRing
  import opened ClockRingProofs

  datatype SharedMemory = SharedMemory(fd: int, size: int, name: string) {
    predicate Invalid() { fd <= 0 || size <= 0 || name == "" }
  }

  /** What the operating system answers: setting the protection, and mapping. */
  datatype Mapping = Mapping(protectOk: bool, mapOk: bool)

  class AVSyncClockUnit {
    var index: UInt32
    var frameNum: UInt32
    var pts: Int64

    constructor (index: UInt32, frameNum: UInt32, pts: Int64)
      ensures this.index == index && this.frameNum == frameNum && this.pts == pts
    {
      this.index, this.frameNum, this.pts := index, frameNum, pts;
    }

    predicate Invalid()
      reads this
    {
      index < 0 || index >= SLOTS || frameNum <= 0 || pts <= 0
    }

    function Unit(): ClockUnit
      reads this
    {
      ClockUnit(frameNum, pts)
    }
  }

  /** The checks shared by all operations once their own arguments are accepted. */
  function MapStatus(memory: SharedMemory, actualSize: nat, mapping: Mapping): int {
    if actualSize != memory.size || !mapping.protectOk || !mapping.mapOk
    then ERR_DH_AVT_SHARED_MEMORY_FAILED
    else DH_AVT_SUCCESS
  }

  function AccessStatus(memory: SharedMemory, argumentsBad: bool, actualSize: nat, mapping: Mapping): int {
    if memory.Invalid() || argumentsBad then ERR_DH_AVT_INVALID_PARAM
    else MapStatus(memory, actualSize, mapping)
  }

  /** Exactly when a region may be accessed, and what is reported otherwise. */
  lemma AccessIsGranted(memory: SharedMemory, argumentsBad: bool, actualSize: nat, mapping: Mapping)
    ensures var status := AccessStatus(memory, argumentsBad, actualSize, mapping);
      var named := memory.fd > 0 && memory.size > 0 && memory.name != "" && !argumentsBad;
      && (status == DH_AVT_SUCCESS <==> named && actualSize == memory.size && mapping.protectOk && mapping.mapOk)
      && (status == ERR_DH_AVT_INVALID_PARAM <==> !named)
  {
  }

  // ----- byte stores

  /** The memory after the first `k` bytes of `value`, lowest first, were stored at `at`. */
  ghost function Stored(m: seq<Byte>, at: nat, value: nat, k: nat): (s: seq<Byte>)
    requires at + k <= |m|
    ensures |s| == |m|
  {
    if k == 0 then m else Stored(m, at, value, k - 1)[at + k - 1 := value / Pow256(k - 1) % 256]
  }

  /** What a concurrent reader can see after each of the first `k` stores of a field. */
  ghost predicate FieldViews(views: seq<seq<Byte>>, m: seq<Byte>, at: nat, value: nat, k: nat)
    requires at + k <= |m|
  {
    |views| == k && forall j :: 0 <= j < k ==> views[j] == Stored(m, at, value, j + 1)
  }

  /** One more byte of a field. */
  method StoreByte(region: array<Byte>, at: nat, value: nat, k: nat, ghost before: seq<Byte>,
                   ghost views: seq<seq<Byte>>) returns (ghost views': seq<seq<Byte>>)
    requires at + k < region.Length && |before| == region.Length
    requires region[..] == Stored(before, at, value, k) && FieldViews(views, before, at, value, k)
    modifies region
    ensures region[..] == Stored(before, at, value, k + 1) && FieldViews(views', before, at, value, k + 1)
  {
    region[at + k] := value / Pow256(k) % 256;
    views' := views + [region[..]];
  }

  method U32ToU8(region: array<Byte>, at: nat, value: UInt32) returns (ghost views: seq<seq<Byte>>)
    requires at + 4 <= region.Length
    modifies region
    ensures FieldViews(views, old(region[..]), at, value, 4)
    ensures region[..] == Stored(old(region[..]), at, value, 4)
  {
    ghost var before := region[..];
    views := StoreByte(region, at, value, 0, before, []);
    views := StoreByte(region, at, value, 1, before, views);
    views := StoreByte(region, at, value, 2, before, views);
    views := StoreByte(region, at, value, 3, before, views);
  }

  method U64ToU8(region: array<Byte>, at: nat, value: UInt64) returns (ghost views: seq<seq<Byte>>)
    requires at + 8 <= region.Length
    modifies region
    ensures FieldViews(views, old(region[..]), at, value, 8)
    ensures region[..] == Stored(old(region[..]), at, value, 8)
  {
    ghost var before := region[..];
    views := StoreByte(region, at, value, 0, before, []);
    views := StoreByte(region, at, value, 1, before, views);
    views := StoreByte(region, at, value, 2, before, views);
    views := StoreByte(region, at, value, 3, before, views);
    views := StoreByte(region, at, value, 4, before, views);
    views := StoreByte(region, at, value, 5, before, views);
    views := StoreByte(region, at, value, 6, before, views);
    views := StoreByte(region, at, value, 7, before, views);
  }

  lemma {:induction false} PtsViews(m: Memory, slot: nat, u: ClockUnit, k: nat)
    requires slot < SLOTS && u.Valid() && k <= 8
    ensures View(m, slot, u, k) == Stored(m, UNIT_SIZE * slot + 4, u.pts, k)
  {
    if k > 0 {
      PtsViews(m, slot, u, k - 1);
    }
  }

  /** `eight`, the number of stores of the time, is a parameter so that the verifier does not
      unfold them. */
  lemma {:induction false} FrameViews(m: Memory, slot: nat, u: ClockUnit, k: nat, eight: nat)
    requires slot < SLOTS && u.Valid() && k <= 4 && eight == 8
    ensures View(m, slot, u, eight + k) == Stored(View(m, slot, u, eight), UNIT_SIZE * slot, u.frame, k)
  {
    if k > 0 {
      FrameViews(m, slot, u, k - 1, eight);
    }
  }

  lemma ViewsOfWrite(m: Memory, slot: nat, u: ClockUnit, ptsViews: seq<seq<Byte>>, frameViews: seq<seq<Byte>>,
                     eight: nat)
    requires slot < SLOTS && u.Valid() && eight == 8
    requires FieldViews(ptsViews, m, UNIT_SIZE * slot + 4, u.pts, eight)
    requires |ptsViews[7]| == |m| && FieldViews(frameViews, ptsViews[7], UNIT_SIZE * slot, u.frame, 4)
    ensures WriteViews([m] + ptsViews + frameViews, m, slot, u)
  {
    var views := [m] + ptsViews + frameViews;
    PtsViews(m, slot, u, eight);
    forall k | 0 <= k <= STORES ensures views[k] == View(m, slot, u, k) {
      if k <= 8 {
        PtsViews(m, slot, u, k);
      } else {
        FrameViews(m, slot, u, k - 8, eight);
      }
    }
  }

  /** What a concurrent reader can see, from before the first store of a write to after the
      last. */
  ghost predicate WriteViews(views: seq<seq<Byte>>, m: Memory, slot: nat, u: ClockUnit)
    requires slot < SLOTS && u.Valid()
  {
    |views| == STORES + 1 && forall k :: 0 <= k <= STORES ==> views[k] == View(m, slot, u, k)
  }

  /** Whatever run of writes the memory and index stood for, they now stand for one more. */
  ghost predicate Appends(m: Memory, index: nat, m': Memory, index': nat, u: ClockUnit) {
    forall us :: Represents(m, us) && |us| % SLOTS == index ==>
      Represents(m', us + [u]) && (|us| + 1) % SLOTS == index'
  }

  lemma WriteAppends(m: Memory, slot: nat, u: ClockUnit, m': Memory, k: nat, slot': nat)
    requires slot < SLOTS && u.Valid() && k == STORES
    requires m' == View(m, slot, u, k)
    requires slot' == if slot + 1 == SLOTS then 0 else slot + 1
    ensures Appends(m, slot, m', slot', u)
  {
    forall us | Represents(m, us) && |us| % SLOTS == slot
      ensures Represents(m', us + [u]) && (|us| + 1) % SLOTS == slot'
    {
      WriteExtends(m, us, u, k);
      NextIndex(|us|);
    }
  }

  lemma NextIndex(n: nat)
    ensures (n + 1) % SLOTS == if n % SLOTS + 1 == SLOTS then 0 else n % SLOTS + 1
  {
  }

  // ----- write, read, reset

  /** The stores of one write, time before frame number. */
  method StoreUnit(region: array<Byte>, slot: UInt32, u: ClockUnit) returns (ghost views: seq<seq<Byte>>)
    requires region.Length >= RING_SIZE && slot < SLOTS && u.Valid()
    modifies region
    ensures WriteViews(views, old(region[..]), slot, u)
    ensures region[..] == views[|views| - 1]
  {
    ghost var m := region[..];
    var frameOffset := UNIT_SIZE * slot;
    var ptsOffset := frameOffset + 4;
    ghost var ptsViews := U64ToU8(region, ptsOffset, u.pts);
    assert region[..] == ptsViews[7];
    ghost var frameViews := U32ToU8(region, frameOffset, u.frame);
    views := [m] + ptsViews + frameViews;
    ViewsOfWrite(m, slot, u, ptsViews, frameViews, 8);
  }

  /** Writes one unit and advances the index. `views` are the memory contents a concurrent
      reader can observe on the way. */
  method WriteClockUnit(memory: SharedMemory, region: array<Byte>, clockUnit: AVSyncClockUnit, mapping: Mapping)
    returns (ret: int, ghost views: seq<seq<Byte>>)
    requires AccessStatus(memory, clockUnit.Invalid(), region.Length, mapping) == DH_AVT_SUCCESS ==>
      region.Length >= RING_SIZE
    modifies region, clockUnit`index
    ensures ret == AccessStatus(memory, old(clockUnit.Invalid()), region.Length, mapping)
    ensures ret != DH_AVT_SUCCESS ==> region[..] == old(region[..]) && clockUnit.index == old(clockUnit.index)
    ensures ret == DH_AVT_SUCCESS ==>
      && WriteViews(views, old(region[..]), old(clockUnit.index), clockUnit.Unit())
      && region[..] == views[|views| - 1]
      && Appends(old(region[..]), old(clockUnit.index), region[..], clockUnit.index, clockUnit.Unit())
  {
    views := [];
    if memory.Invalid() {
      return ERR_DH_AVT_INVALID_PARAM, views;
    }
    if clockUnit.Invalid() {
      return ERR_DH_AVT_INVALID_PARAM, views;
    }
    if region.Length != memory.size || !mapping.protectOk || !mapping.mapOk {
      return ERR_DH_AVT_SHARED_MEMORY_FAILED, views;
    }
    ghost var m := region[..];
    var slot := clockUnit.index;
    views := StoreUnit(region, slot, clockUnit.Unit());
    clockUnit.index := clockUnit.index + 1;
    if clockUnit.index == SLOTS {
      clockUnit.index := 0;
    }
    WriteAppends(m, slot, clockUnit.Unit(), region[..], |views| - 1, clockUnit.index);
    ret := DH_AVT_SUCCESS;
  }

  /** Decodes the two fields of a slot. */
  method LoadSlot(region: array<Byte>, index: nat) returns (frameNum: UInt32, pts: Int64)
    requires region.Length >= RING_SIZE && index < SLOTS
    ensures frameNum == FrameAt(region[..], index) && pts == PtsAt(region[..], index)
  {
    var offset := index * UNIT_SIZE;
    assert FrameBytes(region[..], index) == region[offset..offset + 4];
    assert PtsBytes(region[..], index) == region[offset + 4..offset + 12];
    frameNum := U8ToU32(region[offset..offset + 4]);
    pts := AsInt64(U8ToU64(region[offset + 4..offset + 12]));
  }

  /** Scans all slots for the largest time, and reports it through `clockUnit`. */
  method ReadClockUnit(memory: SharedMemory, region: array<Byte>, clockUnit: AVSyncClockUnit, mapping: Mapping)
    returns (ret: int)
    requires AccessStatus(memory, clockUnit.frameNum <= 0, region.Length, mapping) == DH_AVT_SUCCESS ==>
      region.Length >= RING_SIZE
    modifies clockUnit`frameNum, clockUnit`pts
    ensures
      var status := AccessStatus(memory, old(clockUnit.frameNum) <= 0, region.Length, mapping);
      if status != DH_AVT_SUCCESS then ret == status && clockUnit.Unit() == old(clockUnit.Unit())
      else
        match Read(region[..], old(clockUnit.Unit()))
        case NotReady => ret == ERR_DH_AVT_MASTER_NOT_READY && clockUnit.Unit() == old(clockUnit.Unit())
        case Ready(unit) => ret == DH_AVT_SUCCESS && clockUnit.Unit() == unit
  {
    if memory.Invalid() {
      return ERR_DH_AVT_INVALID_PARAM;
    }
    if clockUnit.frameNum <= 0 {
      return ERR_DH_AVT_INVALID_PARAM;
    }
    if region.Length != memory.size || !mapping.protectOk || !mapping.mapOk {
      return ERR_DH_AVT_SHARED_MEMORY_FAILED;
    }
    var firstUnit, _ := LoadSlot(region, 0);
    if firstUnit == 0 {
      return ERR_DH_AVT_MASTER_NOT_READY;
    }
    ghost var best := ScanSlots(region, clockUnit);
    ret := DH_AVT_SUCCESS;
    ReadIsScan(region[..], old(clockUnit.Unit()), best);
  }

  /** The scan: `best` is the slot it settled on, or -1 if no slot has a positive time. */
  method ScanSlots(region: array<Byte>, clockUnit: AVSyncClockUnit) returns (ghost best: int)
    requires region.Length >= RING_SIZE
    modifies clockUnit`frameNum, clockUnit`pts
    ensures -1 <= best < SLOTS
    ensures best >= 0 ==> IsLatest(region[..], best) && clockUnit.Unit() == UnitAt(region[..], best)
    ensures best == -1 ==> clockUnit.Unit() == old(clockUnit.Unit())
    ensures best == -1 ==> forall i :: 0 <= i < SLOTS ==> PtsAt(region[..], i) <= 0
  {
    ghost var m := region[..];
    var index := 0;
    var latestPts := 0;
    best := -1;
    while index < SLOTS
      invariant 0 <= index <= SLOTS && region[..] == m
      invariant -1 <= best < index
      invariant best == -1 ==> latestPts == 0 && clockUnit.Unit() == old(clockUnit.Unit())
      invariant best >= 0 ==> clockUnit.Unit() == UnitAt(m, best) && latestPts == PtsAt(m, best) > 0
      invariant forall i :: 0 <= i < index ==> PtsAt(m, i) <= latestPts
      invariant forall i :: 0 <= i < best ==> PtsAt(m, i) < latestPts
    {
      var frameNum, pts := LoadSlot(region, index);
      if pts > latestPts {
        latestPts := pts;
        clockUnit.pts := pts;
        clockUnit.frameNum := frameNum;
        best := index;
      }
      index := index + 1;
    }
  }

  /** The read of a ready memory is what the scan over all slots ended with. */
  lemma ReadIsScan(m: Memory, unit: ClockUnit, best: int)
    requires FrameAt(m, 0) != 0 && -1 <= best < SLOTS
    requires best >= 0 ==> IsLatest(m, best)
    requires best == -1 ==> forall i :: 0 <= i < SLOTS ==> PtsAt(m, i) <= 0
    ensures Read(m, unit) == Ready(if best >= 0 then UnitAt(m, best) else unit)
  {
    if best >= 0 {
      forall c: nat | c < SLOTS && IsLatest(m, c) ensures c == best {
        LatestIsUnique(m, c, best);
      }
    }
  }

  /** Clears a region of any size; a ring then represents no write at all. */
  method ResetSharedMemory(memory: SharedMemory, region: array<Byte>, mapping: Mapping) returns (ret: int)
    modifies region
    ensures ret == AccessStatus(memory, false, region.Length, mapping)
    ensures ret == DH_AVT_SUCCESS ==> forall i :: 0 <= i < region.Length ==> region[i] == 0
    ensures ret == DH_AVT_SUCCESS && region.Length >= RING_SIZE ==> Represents(region[..], [])
    ensures ret != DH_AVT_SUCCESS ==> region[..] == old(region[..])
  {
    if memory.Invalid() {
      return ERR_DH_AVT_INVALID_PARAM;
    }
    if region.Length != memory.size || !mapping.protectOk || !mapping.mapOk {
      return ERR_DH_AVT_SHARED_MEMORY_FAILED;
    }
    for i := 0 to region.Length
      invariant forall j :: 0 <= j < i ==> region[j] == 0
    {
      region[i] := 0;
    }
    ret := DH_AVT_SUCCESS;
    if region.Length >= RING_SIZE {
      ZeroedRepresentsNothing(region[..]);
    }
  }
}
