/** One allocation carved into buffers of equal size. */
module BufferArena {
  import opened Device
  import opened Pipeline

  /** Buffer ranges lie inside the arena and apart from each other. */
  lemma RangesApart(block: nat, count: nat, i: nat, j: nat)
    requires i < count && j < count
    ensures 0 <= i * block <= i * block + block <= block * count
    ensures i != j ==> i * block + block <= j * block || j * block + block <= i * block
  {
    MulMonotone(i + 1, count, block);
    Distribute(i, 1, block);
    if i < j {
      MulMonotone(i + 1, j, block);
    } else if j < i {
      MulMonotone(j + 1, i, block);
      Distribute(j, 1, block);
    }
  }

  /** `d` with `data` in place of what it has at `at`. */
  function Patch(d: seq<byte>, at: nat, data: seq<byte>): (p: seq<byte>)
    requires at + |data| <= |d|
    ensures |p| == |d|
  {
    d[..at] + data + d[at + |data|..]
  }

  lemma PatchOutside(d: seq<byte>, at: nat, data: seq<byte>, from: nat, to: nat)
    requires at + |data| <= |d| && from <= to <= |d| && (to <= at || at + |data| <= from)
    ensures Patch(d, at, data)[from..to] == d[from..to]
  {}

  lemma PatchInside(d: seq<byte>, from: nat, at: nat, data: seq<byte>, n: nat)
    requires at + |data| <= n && from + n <= |d|
    ensures Patch(d, from + at, data)[from..from + n] == Patch(d[from..from + n], at, data)
  {}

  method Fill(a: array<byte>, start: nat, data: seq<byte>)
    requires start + |data| <= a.Length
    modifies a
    ensures a[..] == Patch(old(a[..]), start, data)
  {
    var n := 0;
    while n < |data|
      invariant n <= |data|
      invariant a[..] == Patch(old(a[..]), start, data[..n])
    {
      a[start + n] := data[n];
      n := n + 1;
    }
    assert data[..n] == data;
  }

  /** At least four buffers, and otherwise as many whole ones as the requested size holds. */
  function BufferCount(total: nat, block: nat): (n: nat)
    requires block > 0
    ensures n >= 4 && total < (n + 1) * block
    ensures n > 4 ==> n * block <= total
  {
    assert total == block * (total / block) + total % block;
    Distribute(total / block, 1, block);
    MulMonotone(total / block, if total / block >= 4 then total / block else 4, block);
    Distribute(4, 1, block);
    if total / block >= 4 then total / block else 4
  }

  class Arena {
    const block: nat
    const count: nat
    const memory: array<byte>

    ghost predicate Valid() {
      memory.Length == block * count
    }

    constructor (block: nat, count: nat)
      ensures Valid() && this.block == block && this.count == count && fresh(memory)
    {
      this.block, this.count := block, count;
      memory := new byte[block * count];
    }

    /** Where buffer `idx` starts. */
    function Ptr(idx: nat): (start: nat)
      requires Valid() && idx < count
      ensures start + block <= memory.Length
      ensures forall other: nat :: other < count && other != idx ==>
                start + block <= other * block || other * block + block <= start
    {
      RangesApart(block, count, idx, idx);
      assert forall other: nat :: other < count && other != idx ==>
          idx * block + block <= other * block || other * block + block <= idx * block by {
        forall other: nat | other < count && other != idx
          ensures idx * block + block <= other * block || other * block + block <= idx * block
        {
          RangesApart(block, count, idx, other);
        }
      }
      idx * block
    }

    function Buffer(idx: nat): (b: seq<byte>)
      requires Valid() && idx < count
      reads memory
      ensures |b| == block
    {
      memory[Ptr(idx)..Ptr(idx) + block]
    }

    ghost function Buffers(): (bs: seq<seq<byte>>)
      requires Valid()
      reads memory
      ensures |bs| == count && forall i: nat :: i < count ==> bs[i] == Buffer(i)
    {
      seq(count, i requires 0 <= i < count reads memory => Buffer(i))
    }

    /** Overwrite part of one buffer; no other buffer changes. */
    method Store(idx: nat, at: nat, data: seq<byte>)
      requires Valid() && idx < count && at + |data| <= block
      modifies memory
      ensures Buffers() == old(Buffers())[idx := Patch(old(Buffer(idx)), at, data)]
    {
      var start := Ptr(idx);
      ghost var before := memory[..];
      ghost var buffers := Buffers();
      Fill(memory, start + at, data);
      assert memory[..] == Patch(before, start + at, data);
      forall j: nat | j < count ensures Buffer(j) == if j == idx then Patch(buffers[j], at, data) else buffers[j] {
        assert Buffer(j) == memory[..][Ptr(j)..Ptr(j) + block];
        assert buffers[j] == before[Ptr(j)..Ptr(j) + block];
        BufferPatched(before, idx, at, data, j);
      }
    }

    lemma BufferPatched(before: seq<byte>, idx: nat, at: nat, data: seq<byte>, j: nat)
      requires Valid() && |before| == memory.Length && idx < count && j < count && at + |data| <= block
      ensures Patch(before, Ptr(idx) + at, data)[Ptr(j)..Ptr(j) + block]
           == if j == idx then Patch(before[Ptr(j)..Ptr(j) + block], at, data) else before[Ptr(j)..Ptr(j) + block]
    {
      var start, from := Ptr(idx), Ptr(j);
      assert j != idx ==> start + block <= from || from + block <= start;
      hide Ptr; hide Patch; hide Valid;
      if j == idx {
        PatchInside(before, start, at, data, block);
      } else {
        PatchOutside(before, start + at, data, from, from + block);
      }
    }

    /** A device fills the front of a buffer. */
    method Load(idx: nat, data: seq<byte>)
      requires Valid() && idx < count && |data| <= block
      modifies memory
      ensures Buffers() == old(Buffers())[idx := data + old(Buffers())[idx][|data|..]]
    {
      Store(idx, 0, data);
      assert Patch(old(Buffer(idx)), 0, data) == data + old(Buffers())[idx][|data|..];
    }

    /** Zero what lies from `from` up to `to`, if anything does. */
    method Clear(idx: nat, from: nat, to: nat)
      requires Valid() && idx < count && from <= to <= block
      modifies memory
      ensures Buffers() == old(Buffers())[idx :=
                old(Buffers())[idx][..from] + Zeros(to - from) + old(Buffers())[idx][to..]]
    {
      if from < to {
        Store(idx, from, Zeros(to - from));
      } else {
        assert Zeros(0) == [];
        assert Buffer(idx) == Buffers()[idx][..from] + Zeros(0) + Buffers()[idx][to..];
      }
    }
  }
}
