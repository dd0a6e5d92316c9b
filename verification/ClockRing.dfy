/** The shared-memory clock ring: 50 slots of 12 bytes, a frame number followed by a
    presentation time, both little-endian. The memory is a sequence of bytes; a write is
    twelve byte stores in the order the source issues them, so that every state a reader
    can observe between two stores is a value of `View`. */
module ClockRing {
  import opened Bytes

  const SLOTS := 50
  const UNIT_SIZE := 12
  const RING_SIZE := 600

  type Memory = m: seq<Byte> | |m| >= RING_SIZE witness seq(600, i => 0)

  /** What one write stores: a frame number and a presentation time, both positive. */
  datatype ClockUnit = ClockUnit(frame: UInt32, pts: Int64) {
    predicate Valid() { frame > 0 && pts > 0 }
  }

  predicate AllValid(us: seq<ClockUnit>) {
    forall i :: 0 <= i < |us| ==> us[i].Valid()
  }

  datatype ReadResult = NotReady | Ready(unit: ClockUnit)

  // ----- fields of a slot

  function FrameBytes(m: Memory, slot: nat): (b: seq<Byte>)
    requires slot < SLOTS
    ensures |b| == 4
  {
    m[UNIT_SIZE * slot..UNIT_SIZE * slot + 4]
  }

  function PtsBytes(m: Memory, slot: nat): (b: seq<Byte>)
    requires slot < SLOTS
    ensures |b| == 8
  {
    m[UNIT_SIZE * slot + 4..UNIT_SIZE * slot + 12]
  }

  function FrameAt(m: Memory, slot: nat): UInt32
    requires slot < SLOTS
  {
    U8ToU32(FrameBytes(m, slot))
  }

  function PtsAt(m: Memory, slot: nat): Int64
    requires slot < SLOTS
  {
    AsInt64(U8ToU64(PtsBytes(m, slot)))
  }

  function UnitAt(m: Memory, slot: nat): ClockUnit
    requires slot < SLOTS
  {
    ClockUnit(FrameAt(m, slot), PtsAt(m, slot))
  }

  // ----- writing, store by store

  const STORES := 12

  /** Where the `k`-th store of a write goes: first the eight bytes of the time, then the
      four of the frame number. */
  function StoreAddress(slot: nat, k: nat): nat
    requires slot < SLOTS && k < STORES
  {
    if k < 8 then UNIT_SIZE * slot + 4 + k else UNIT_SIZE * slot + (k - 8)
  }

  function StoreValue(u: ClockUnit, k: nat): Byte
    requires u.Valid() && k < STORES
  {
    if k < 8 then u.pts / Pow256(k) % 256 else u.frame / Pow256(k - 8) % 256
  }

  /** The memory after the first `k` stores of writing `u` to `slot`. */
  function View(m: Memory, slot: nat, u: ClockUnit, k: nat): (v: Memory)
    requires slot < SLOTS && u.Valid() && k <= STORES
    ensures |v| == |m|
  {
    if k == 0 then m
    else View(m, slot, u, k - 1)[StoreAddress(slot, k - 1) := StoreValue(u, k - 1)]
  }

  /** The memory after `us` was written, in order, to a zeroed region from index 0. */
  function Written(size: nat, us: seq<ClockUnit>): (m: Memory)
    requires size >= RING_SIZE
    requires AllValid(us)
    ensures |m| == size
  {
    if us == [] then seq(size, i => 0)
    else
      var n := |us| - 1;
      View(Written(size, us[..n]), n % SLOTS, us[n], STORES)
  }

  // ----- reading

  /** `slot` holds the largest positive time, and no lower slot holds as large a one. */
  predicate IsLatest(m: Memory, slot: nat)
    requires slot < SLOTS
  {
    && PtsAt(m, slot) > 0
    && (forall i :: 0 <= i < SLOTS ==> PtsAt(m, i) <= PtsAt(m, slot))
    && (forall i :: 0 <= i < slot ==> PtsAt(m, i) < PtsAt(m, slot))
  }

  lemma LatestIsUnique(m: Memory, a: nat, b: nat)
    requires a < SLOTS && b < SLOTS && IsLatest(m, a) && IsLatest(m, b)
    ensures a == b
  {
    assert PtsAt(m, a) == PtsAt(m, b);
  }

  /** What a reader that holds `unit` gets from the memory. */
  ghost function Read(m: Memory, unit: ClockUnit): ReadResult {
    if FrameAt(m, 0) == 0 then NotReady
    else if slot: nat :| slot < SLOTS && IsLatest(m, slot) then
      Ready(UnitAt(m, slot))
    else Ready(unit)
  }
}
