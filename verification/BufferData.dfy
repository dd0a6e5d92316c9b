/** The bounded byte buffer: writes that do not fit are cut short. */
module Buffers {
  import opened Bytes

  const INVALID_POSITION := 0xffff_ffff_ffff_ffff
  const CAPACITY_MAX_LENGTH := 8192

  function Min(a: nat, b: nat): nat {
    if a <= b then a else b
  }

  /** The first `n` elements, or all if there are fewer. */
  function Take(s: seq<Byte>, n: nat): seq<Byte> {
    s[..Min(|s|, n)]
  }

  // ----- appending writes

  /** The content after one appending write: as much of the chunk as still fits. */
  function Append(content: seq<Byte>, chunk: seq<Byte>, capacity: nat): seq<Byte>
    requires |content| <= capacity
  {
    content + Take(chunk, capacity - |content|)
  }

  /** The content after appending `chunks` to an empty buffer. */
  function Appended(capacity: nat, chunks: seq<seq<Byte>>): (content: seq<Byte>)
    ensures |content| <= capacity
  {
    if chunks == [] then []
    else
      var n := |chunks| - 1;
      Append(Appended(capacity, chunks[..n]), chunks[n], capacity)
  }

  /** The lengths that the writes report, added up. */
  function Reported(capacity: nat, chunks: seq<seq<Byte>>): nat {
    if chunks == [] then 0
    else
      var n := |chunks| - 1;
      Reported(capacity, chunks[..n]) + |Take(chunks[n], capacity - |Appended(capacity, chunks[..n])|)|
  }

  function Joined(chunks: seq<seq<Byte>>): seq<Byte> {
    if chunks == [] then [] else Joined(chunks[..|chunks| - 1]) + chunks[|chunks| - 1]
  }

  /** Appending to a cut content is cutting the longer one. */
  lemma TakeAppend(s: seq<Byte>, chunk: seq<Byte>, capacity: nat)
    ensures Append(Take(s, capacity), chunk, capacity) == Take(s + chunk, capacity)
  {
  }

  /** After any sequence of appending writes the content is the first `capacity` bytes of the
      chunks joined, and the reported lengths add up to its size. */
  lemma {:induction false} AppendsAreTruncatedConcatenation(capacity: nat, chunks: seq<seq<Byte>>)
    ensures Appended(capacity, chunks) == Take(Joined(chunks), capacity)
    ensures Reported(capacity, chunks) == |Take(Joined(chunks), capacity)|
  {
    if chunks != [] {
      var n := |chunks| - 1;
      AppendsAreTruncatedConcatenation(capacity, chunks[..n]);
      TakeAppend(Joined(chunks[..n]), chunks[n], capacity);
    }
  }

  lemma SliceOfContent(s: seq<Byte>, size: nat, start: nat, length: nat)
    requires start + length <= size <= |s|
    ensures s[..size][start..][..length] == s[start..start + length]
  {
  }

  class BufferData {
    const capacity: nat
    const address: array?<Byte>
    var size: nat

    /** Storage is allocated up to the limit only, and the size stays within the capacity. */
    ghost predicate Valid()
      reads this
    {
      size <= capacity && (address != null ==> address.Length == capacity) && (address == null ==> size == 0)
    }

    ghost function Content(): seq<Byte>
      requires Valid()
      reads this, address
    {
      if address == null then [] else address[..size]
    }

    constructor (capacity: nat)
      ensures Valid() && this.capacity == capacity && size == 0
      ensures address != null <==> capacity <= CAPACITY_MAX_LENGTH
      ensures address != null ==> fresh(address)
    {
      this.capacity, size := capacity, 0;
      if capacity <= CAPACITY_MAX_LENGTH {
        address := new Byte[capacity];
      } else {
        address := null;
      }
    }

    /** Copies `source[..length]` to the storage at `start`; copying nothing, or to the null
        address, counts as a failure. Without storage any other address is not to be written:
        there the copy faults. */
    method CopyIn(start: nat, length: nat, source: array<Byte>) returns (ok: bool, faults: bool)
      requires Valid() && start + length <= capacity && length <= source.Length && source != address
      modifies address
      ensures faults <==> address == null && start > 0 && length > 0
      ensures ok <==> address != null && length > 0
      ensures address != null ==>
        address[..] == old(address[..start]) + source[..length] + old(address[start + length..])
    {
      if length == 0 {
        return false, false;
      }
      if address == null {
        return false, start > 0;
      }
      for i := 0 to length
        invariant forall j :: 0 <= j < i ==> address[start + j] == source[j]
        invariant forall j :: 0 <= j < address.Length && !(start <= j < start + i) ==> address[j] == old(address[j])
        invariant source[..] == old(source[..])
      {
        address[start + i] := source[i];
      }
      return true, false;
    }

    /** `faults` says that the write goes past a null address, where the program ends. */
    method Write(source: array<Byte>, writeSize: nat, position: nat) returns (length: nat, faults: bool)
      requires Valid() && writeSize <= source.Length && source != address
      modifies this`size, address
      ensures Valid()
      ensures var start := if position == INVALID_POSITION then old(size) else Min(position, capacity);
        var fits := Min(writeSize, capacity - start);
        && (faults <==> address == null && start > 0 && fits > 0)
        && if address == null || fits == 0 then
             length == 0 && size == old(size) && (address != null ==> address[..] == old(address[..]))
           else
             && length == fits && size == start + fits
             && address[..] == old(address[..start]) + source[..fits] + old(address[start + fits..])
      ensures position == INVALID_POSITION && address != null ==>
        && Content() == Append(old(Content()), source[..writeSize], capacity)
        && length == |Take(source[..writeSize], capacity - |old(Content())|)|
    {
      var start := if position == INVALID_POSITION then size else Min(position, capacity);
      length := Min(writeSize, capacity - start);
      var ok;
      ok, faults := CopyIn(start, length, source);
      if !ok {
        return 0, faults;
      }
      size := start + length;
      assert address[..size] == old(address[..start]) + source[..length];
    }

    /** The bytes a read of `readSize` at `position` delivers. */
    ghost function Slice(readSize: nat, position: nat): seq<Byte>
      requires Valid()
      reads this, address
    {
      var start := if position == INVALID_POSITION then 0 else Min(position, size);
      Take(Content()[start..], readSize)
    }

    method Read(target: array<Byte>, readSize: nat, position: nat) returns (length: nat)
      requires Valid() && target.Length >= readSize && target != address
      modifies target
      ensures length == |Slice(readSize, position)|
      ensures target[..length] == Slice(readSize, position)
      ensures target[length..] == old(target[length..])
    {
      var start := 0;
      var maxLength := size;
      if position != INVALID_POSITION {
        start := Min(position, size);
        maxLength := size - start;
      }
      length := Min(readSize, maxLength);
      if address == null || length == 0 {
        return 0;
      }
      for i := 0 to length
        invariant forall j :: 0 <= j < i ==> target[j] == address[start + j]
        invariant forall j :: length <= j < target.Length ==> target[j] == old(target[j])
        invariant address[..] == old(address[..])
      {
        target[i] := address[start + i];
      }
      assert target[..length] == address[start..start + length];
      SliceOfContent(address[..], size, start, length);
    }

    method Reset()
      requires Valid()
      modifies this`size
      ensures Valid() && size == 0
    {
      size := 0;
    }
  }
}
