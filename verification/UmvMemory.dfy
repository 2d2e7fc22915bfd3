/** The memory manager as the program keeps it: one array of bytes and one list
    of segments, both changed in place. Every method is tied to the function of
    the same purpose on values, about which modules Compaction, Placement and
    UmvRuns prove what the program promises. */
module UmvMemory {
  import opened Bytes
  import opened Segments
  import opened Compaction
  import opened Placement
  import opened UmvRuns

  lemma UsedSnoc(list: seq<Segment>, i: nat)
    requires i < |list|
    ensures Used(list[..i + 1]) == Used(list[..i]) + (if list[i].Live() then list[i].size else 0)
  {
    assert list[..i + 1] == list[..i] + [list[i]];
    LiveConcat(list[..i], [list[i]]);
    SizeConcat(Live(list[..i]), Live([list[i]]));
  }

  lemma LiveOne(s: Segment)
    ensures Live([s]) == if s.Live() then [s] else []
  {
  }

  /** One round of the loop that removes the holes. */
  lemma FilterKeep(a: seq<Segment>, h: Segment)
    requires Live(a) == a && h.Live()
    ensures Live(a + [h]) == a + [h]
  {
    LiveOne(h);
    LiveConcat(a, [h]);
  }

  lemma FilterDrop(a: seq<Segment>, h: Segment, c: seq<Segment>)
    requires !h.Live()
    ensures Live(a + c) == Live(a + [h] + c)
  {
    hide Live;
    LiveOne(h);
    LiveConcat(a, [h]);
    LiveConcat(a + [h], c);
    LiveConcat(a, c);
    assert Live(a) + [] == Live(a);
  }

  /** One round of the loop that lowers the live entries. */
  lemma PackStep(mem: seq<byte>, done: seq<Segment>, end: int, rest: seq<Segment>)
    requires rest != []
    ensures var s := Lowered(end, rest[0]);
      && done + PackList(end, rest) == done + [s] + PackList(s.End(), rest[1..])
      && PackMem(mem, end, rest) == PackMem(LoweredMem(mem, end, rest[0]), s.End(), rest[1..])
  {
    hide PackList, PackMem, LoweredMem, Lowered;
    var s := Lowered(end, rest[0]);
    PackListUnfold(end, rest, s);
    PackMemUnfold(mem, end, rest, s);
    Regroup(done, [s], PackList(s.End(), rest[1..]));
  }

  /** Entries up to position i are packed; the rest has not been reached. */
  ghost predicate PackedSoFar(was: seq<byte>, live: seq<Segment>, mem: seq<byte>, list: seq<Segment>, i: nat)
    requires i < |list|
  {
    var done, rest, at := list[..i + 1], list[i + 1..], list[i].End();
    && |mem| == |was| && 0 <= at && AllInside(rest, |mem|)
    && done + PackList(at, rest) == PackList(0, live)
    && PackMem(mem, at, rest) == PackMem(was, 0, live)
  }

  lemma PackStart(was: seq<byte>, live: seq<Segment>, mem: seq<byte>, list: seq<Segment>)
    requires live != [] && AllInside(live, |was|)
    requires list == live[0 := Lowered(0, live[0])] && mem == LoweredMem(was, 0, live[0])
    ensures PackedSoFar(was, live, mem, list, 0)
  {
    PackStep(was, [], 0, live);
    hide PackList, PackMem;
    InsideTail(live, |was|);
    assert list[..1] == [] + [Lowered(0, live[0])] && list[1..] == live[1..];
    assert [] + PackList(0, live) == PackList(0, live);
  }

  lemma PackNext(was: seq<byte>, live: seq<Segment>, mem: seq<byte>, list: seq<Segment>, i: nat)
    requires i + 1 < |list| && PackedSoFar(was, live, mem, list, i)
    ensures 0 <= list[i].End() && |mem| == |was| && list[i + 1].Inside(|mem|)
  {
    InsideTail(list[i + 1..], |mem|);
  }

  lemma PackRound(was: seq<byte>, live: seq<Segment>, mem: seq<byte>, list: seq<Segment>, i: nat,
                  mem1: seq<byte>, list1: seq<Segment>)
    requires i + 1 < |list| && PackedSoFar(was, live, mem, list, i)
    requires list1 == list[i + 1 := Lowered(list[i].End(), list[i + 1])]
    requires mem1 == LoweredMem(mem, list[i].End(), list[i + 1])
    ensures PackedSoFar(was, live, mem1, list1, i + 1)
  {
    var done, rest, at := list[..i + 1], list[i + 1..], list[i].End();
    var s := Lowered(at, rest[0]);
    PackStep(mem, done, at, rest);
    hide PackList, PackMem, LoweredMem;
    InsideTail(rest, |mem|);
    assert rest[0] == list[i + 1] && list1[i + 1] == s;
    assert list1[..i + 2] == done + [s];
    assert list1[i + 2..] == rest[1..];
  }

  lemma PackFinish(was: seq<byte>, live: seq<Segment>, mem: seq<byte>, list: seq<Segment>)
    requires list != [] && PackedSoFar(was, live, mem, list, |list| - 1)
    ensures list == PackList(0, live) && mem == PackMem(was, 0, live)
  {
    var at := list[|list| - 1].End();
    PackNil(at);
    PackMemNil(mem, at);
    assert list[..|list|] == list && list[|list|..] == [];
    assert list + [] == list;
  }

  lemma CompactedEmpty(u: Umv)
    requires Live(u.list) == []
    ensures Compacted(u) == Umv(u.mem, [Segment(u.nextId + 1, -1, 0, |u.mem|, 0)], u.nextId + 1, u.firstFit)
  {
  }

  lemma CompactedPacked(u: Umv, packed: seq<Segment>, mem: seq<byte>)
    requires Live(u.list) != [] && packed == PackList(0, Live(u.list)) && mem == PackMem(u.mem, 0, Live(u.list))
    ensures packed != [] && |mem| == |u.mem|
    ensures Used(packed) >= |mem| ==> Compacted(u) == Umv(mem, packed, u.nextId, u.firstFit)
    ensures Used(packed) < |mem| ==>
      var last, id := packed[|packed| - 1], u.nextId + 1;
      Compacted(u) == Umv(mem, packed + [Segment(id, -1, 0, |mem| - Used(packed), last.addr + last.size)], id, u.firstFit)
  {
    PackLength(0, Live(u.list));
  }

  lemma WorstHoleSnoc(list: seq<Segment>, i: nat)
    requires i < |list|
    ensures var best, next := WorstHole(list[..i]), WorstHole(list[..i + 1]);
      next == if list[i].pid <= 0 && list[i].size > (if best >= 0 then list[best].size else 0) then i else best
  {
    assert list[..i + 1][..i] == list[..i];
  }

  lemma FirstHoleIs(list: seq<Segment>, size: int, i: nat)
    requires i < |list| && list[i].pid <= 0 && list[i].size >= size
    requires forall j :: 0 <= j < i ==> list[j].pid > 0 || list[j].size < size
    ensures FirstHole(list, size) == i
  {
  }

  /** Appending before removing, as both fits do, leaves the split list. */
  lemma AppendThenRemove(list: seq<Segment>, i: nat, f: Segment, r: Segment)
    requires i < |list|
    ensures Without(list + [f], i) + [r] == Without(list, i) + [f] + [r]
  {
  }

  /** Creation replaces the list it found with one made from its argument. */
  lemma ListIsReplaced(u: Umv, order: seq<Segment>, pid: int, size: int, virt: int)
    ensures FirstPair(u.(list := order), pid, size, virt) == FirstPair(u, pid, size, virt)
    ensures forall i :: 0 <= i < |order| ==>
      SplitAt(u.(list := order), order, i, pid, size, virt) == SplitAt(u, order, i, pid, size, virt)
  {
  }

  class Memory {
    const mem: array<byte>
    var list: seq<Segment>
    var nextId: int
    var algorithm: int

    ghost function State(): Umv
      reads this, mem
    {
      Umv(mem[..], list, nextId, algorithm == 1)
    }

    constructor (size: nat)
      ensures fresh(mem) && mem.Length == size
      ensures list == [] && nextId == 0 && algorithm == 1
      ensures Valid(State()) && View(State()) == map[]
    {
      mem := new byte[size](_ => 0);
      list, nextId, algorithm := [], 0, 1;
    }

    /** memcpy to a lower address, lowest byte first, and the entry follows. */
    method MoveDown(dst: int, k: nat)
      requires k < |list| && 0 <= dst < list[k].addr && list[k].Inside(mem.Length)
      modifies this`list, mem
      ensures list == old(list)[k := Lowered(dst, old(list)[k])]
      ensures mem[..] == LoweredMem(old(mem[..]), dst, old(list)[k])
    {
      var s := list[k];
      ghost var was, up := mem[..], s.addr - dst;
      var x := 0;
      while x < s.size
        modifies mem
        invariant 0 <= x <= s.size
        invariant forall y :: dst <= y < dst + x ==> mem[y] == was[y + up]
        invariant forall y :: 0 <= y < mem.Length && !(dst <= y < dst + x) ==> mem[y] == was[y]
      {
        assert mem[s.addr + x] == was[(dst + x) + up];
        mem[dst + x] := mem[s.addr + x];
        x := x + 1;
      }
      list := list[k := s.(addr := dst)];
      ghost var want := LoweredMem(was, dst, s);
      forall y | 0 <= y < mem.Length ensures mem[y] == want[y] {
        assert dst <= y < dst + s.size ==> y + up == s.addr + (y - dst);
      }
      assert mem[..] == want;
    }

    /** The loop lowers its own index and bound; it still is a filter. */
    method RemoveHoles()
      modifies this`list
      ensures list == Live(old(list))
    {
      var n, i := |list|, 0;
      while i < n
        invariant 0 <= i <= n == |list| && Live(list) == Live(old(list))
        invariant Live(list[..i]) == list[..i]
        decreases n - i
      {
        var node := list[i];
        assert list == list[..i] + [node] + list[i + 1..];
        assert list[..i + 1] == list[..i] + [node];
        if node.pid == -1 {
          FilterDrop(list[..i], node, list[i + 1..]);
          list := list[..i] + list[i + 1..];
          i := i - 1;
          n := n - 1;
        } else {
          FilterKeep(list[..i], node);
        }
        i := i + 1;
      }
      assert list[..i] == list;
    }

    method UsedBytes() returns (total: int)
      ensures total == Used(list)
    {
      var i := 0;
      total := 0;
      while i < |list|
        invariant 0 <= i <= |list| && total == Used(list[..i])
      {
        UsedSnoc(list, i);
        var node := list[i];
        if node.pid != -1 {
          total := total + node.size;
        }
        i := i + 1;
      }
      assert list[..i] == list;
    }

    /** Live entries are lowered one after the other, each to the end of the
        one before it, and what remains becomes one hole at the end. */
    method Compact()
      requires AllInside(list, mem.Length)
      modifies this`list, this`nextId, mem
      ensures State() == Compacted(old(State()))
    {
      hide Compacted, PackList, PackMem, Live, Used;
      ghost var u := State();
      InsideLive(list, mem.Length);
      RemoveHoles();
      if |list| > 0 {
        PackAll();
        CompactedPacked(u, list, mem[..]);
        var last := list[|list| - 1];
        var used := UsedBytes();
        if used < mem.Length {
          nextId := nextId + 1;
          list := list + [Segment(nextId, -1, 0, mem.Length - used, last.addr + last.size)];
        }
      } else {
        CompactedEmpty(u);
        nextId := nextId + 1;
        list := [Segment(nextId, -1, 0, mem.Length, 0)];
      }
    }

    /** An entry moves only when it lies above the end of the one before it. */
    method LowerEntry(end: int, k: nat)
      requires k < |list| && 0 <= end && list[k].Inside(mem.Length)
      modifies this`list, mem
      ensures list == old(list)[k := Lowered(end, old(list)[k])]
      ensures mem[..] == LoweredMem(old(mem[..]), end, old(list)[k])
    {
      if end < list[k].addr {
        MoveDown(end, k);
      } else {
        LoweredInPlace(mem[..], end, list[k]);
      }
    }

    method PackAll()
      requires list != [] && AllInside(list, mem.Length)
      modifies this`list, mem
      ensures list == PackList(0, old(list)) && mem[..] == PackMem(old(mem[..]), 0, old(list))
    {
      hide PackedSoFar, PackList, PackMem, LoweredMem, Lowered;
      ghost var was, live := mem[..], list;
      LowerEntry(0, 0);
      PackStart(was, live, mem[..], list);
      var i := 0;
      while i + 1 < |list|
        invariant 0 <= i < |list| == |live| && PackedSoFar(was, live, mem[..], list, i)
      {
        ghost var mem0, list0 := mem[..], list;
        PackNext(was, live, mem0, list0, i);
        var end := list[i].addr + list[i].size;
        LowerEntry(end, i + 1);
        PackRound(was, live, mem0, list0, i, mem[..], list);
        i := i + 1;
      }
      PackFinish(was, live, mem[..], list);
    }

    /** The first segment of all, and the hole after it. */
    method PlaceFirst(pid: int, size: int, virt: int)
      requires list == []
      modifies this`list, this`nextId
      ensures State() == FirstPair(old(State()), pid, size, virt)
    {
      var id := nextId;
      nextId := nextId + 1;
      list := list + [Segment(id, pid, virt, size, 0)];
      list := list + [Segment(nextId, -1, 0, mem.Length - size, size)];
      assert list == FirstPair(old(State()), pid, size, virt).list;
    }

    /** The new segment is appended, the hole removed, and its rest appended. */
    method PlaceIn(i: nat, pid: int, size: int, virt: int)
      requires i < |list|
      modifies this`list, this`nextId
      ensures State() == SplitAt(old(State()), old(list), i, pid, size, virt)
    {
      ghost var before := list;
      var node := list[i];
      nextId := nextId + 1;
      list := list + [Segment(nextId, pid, virt, size, node.addr)];
      var hole := list[i];
      list := list[..i] + list[i + 1..];
      list := list + [hole.(addr := node.addr + size, size := hole.size - size)];
      AppendThenRemove(before, i, Front(node, pid, size, virt, nextId), Rest(node, size));
    }

    method FirstFit(pid: int, size: int, c: Chance) returns (virt: int)
      modifies this`list, this`nextId
      ensures (State(), virt) == Placement.FirstFit(old(State()), c, pid, size)
    {
      hide SplitAt, FirstPair;
      ListIsReplaced(State(), c.order, pid, size, c.virt);
      list := c.order;
      virt := c.unset;
      var n := |list|;
      if n == 0 && size <= mem.Length {
        PlaceFirst(pid, size, c.virt);
        return c.virt;
      }
      var done, i := false, 0;
      while i < n && !done
        invariant 0 <= i <= n == |c.order|
        invariant !done ==> list == c.order && nextId == old(nextId) && virt == c.unset
        invariant !done ==> forall j :: 0 <= j < i ==> c.order[j].pid > 0 || c.order[j].size < size
        invariant done ==> (State(), virt) == Placement.FirstFit(old(State()), c, pid, size)
      {
        var node := list[i];
        if node.pid <= 0 && node.size >= size {
          FirstHoleIs(c.order, size, i);
          PlaceIn(i, pid, size, c.virt);
          virt := c.virt;
          done := true;
        }
        i := i + 1;
      }
    }

    method LargestHole() returns (found: bool, best: nat)
      ensures found <==> WorstHole(list) >= 0
      ensures found ==> best == WorstHole(list)
    {
      var i, largest := 0, 0;
      found, best := false, 0;
      while i < |list|
        invariant 0 <= i <= |list|
        invariant found <==> WorstHole(list[..i]) >= 0
        invariant found ==> best == WorstHole(list[..i]) && best < |list| && largest == list[best].size
        invariant !found ==> largest == 0
      {
        WorstHoleSnoc(list, i);
        var node := list[i];
        if node.pid <= 0 && node.size > largest {
          best, largest, found := i, node.size, true;
        }
        i := i + 1;
      }
      assert list[..i] == list;
    }

    method WorstFit(pid: int, size: int, c: Chance) returns (virt: int)
      modifies this`list, this`nextId
      ensures (State(), virt) == Placement.WorstFit(old(State()), c, pid, size)
    {
      hide SplitAt, FirstPair, WorstHole;
      ListIsReplaced(State(), c.order, pid, size, c.virt);
      list := c.order;
      virt := c.unset;
      if |list| == 0 && size <= mem.Length {
        PlaceFirst(pid, size, c.virt);
        return c.virt;
      }
      var found, best := LargestHole();
      if found {
        PlaceIn(best, pid, size, c.virt);
        virt := c.virt;
      }
    }

    method Create(pid: int, size: int, c: Chance) returns (virt: int)
      modifies this`list, this`nextId
      ensures (State(), virt) == Placement.Create(old(State()), c, pid, size)
    {
      var used := UsedBytes();
      if used + size <= mem.Length {
        if algorithm == 1 {
          virt := FirstFit(pid, size, c);
        } else {
          virt := WorstFit(pid, size, c);
        }
      } else {
        virt := -1;
      }
    }

    /** The kernel's request for a segment. */
    method RequestSegment(pid: int, size: int, first: Chance, second: Chance) returns (reply: Reply)
      requires AllInside(list, mem.Length)
      requires IsSorting(list, first.order) && first.virt >= 0
      modifies this`list, this`nextId, mem
      ensures (State(), reply) == Requested(old(State()), pid, size, first, second)
    {
      if size == 0 {
        return Address(-1);
      }
      var virt := Create(pid, size, first);
      if virt >= 0 {
        return Address(virt);
      }
      InsideOfReordering(old(list), first.order, mem.Length);
      Compact();
      virt := Create(pid, size, second);
      reply := if virt >= 0 then Address(virt) else NotCreated;
    }

    method Destroy(pid: int)
      modifies this`list
      ensures list == FreedList(old(list), pid)
    {
      var i := 0;
      while i < |list|
        invariant 0 <= i <= |list| == |old(list)|
        invariant forall j :: 0 <= j < i ==> list[j] == Freed(old(list)[j], pid)
        invariant forall j :: i <= j < |list| ==> list[j] == old(list)[j]
      {
        if list[i].pid == pid {
          list := list[i := list[i].(pid := -1)];
        }
        i := i + 1;
      }
      assert list == FreedList(old(list), pid);
    }

    method Lookup(virt: int, pid: int) returns (found: bool, i: int)
      ensures found <==> Find(list, virt, pid) < |list|
      ensures found ==> i == Find(list, virt, pid)
    {
      found, i := false, 0;
      var k := 0;
      while k < |list| && !found
        invariant 0 <= k <= |list|
        invariant !found ==> forall j :: 0 <= j < k ==> !(list[j].virt == virt && list[j].pid == pid)
        invariant found ==> i == Find(list, virt, pid) < |list|
      {
        if list[k].virt == virt && list[k].pid == pid {
          found, i := true, k;
          assert Find(list, virt, pid) == k;
        }
        k := k + 1;
      }
    }

    method Read(virt: int, offset: int, count: int, pid: int) returns (r: Option<seq<byte>>)
      requires AllInside(list, mem.Length) && 0 <= offset && 0 <= count
      ensures r == ReadBytes(State(), virt, offset, count, pid)
    {
      var found, i := Lookup(virt, pid);
      if found {
        var s := list[i];
        if s.size >= count + offset {
          return Some(mem[s.addr + offset..s.addr + offset + count]);
        }
      }
      return None;
    }

    method Write(bytes: seq<byte>, virt: int, offset: int, pid: int) returns (ok: bool)
      requires AllInside(list, mem.Length) && 0 <= offset
      modifies mem
      ensures ok <==> InReach(old(State()), virt, offset, |bytes|, pid)
      ensures State() == WriteBytes(old(State()), bytes, virt, offset, pid)
    {
      var found, i := Lookup(virt, pid);
      if found {
        var s := list[i];
        if s.size >= |bytes| + offset {
          CopyIn(s.addr + offset, bytes);
          return true;
        }
      }
      return false;
    }

    method CopyIn(at: nat, bytes: seq<byte>)
      requires at + |bytes| <= mem.Length
      modifies mem
      ensures mem[..] == Overwrite(old(mem[..]), at, bytes)
    {
      ghost var was := mem[..];
      var x := 0;
      while x < |bytes|
        invariant 0 <= x <= |bytes|
        invariant forall y :: at <= y < at + x ==> mem[y] == bytes[y - at]
        invariant forall y :: 0 <= y < mem.Length && !(at <= y < at + x) ==> mem[y] == was[y]
      {
        mem[at + x] := bytes[x];
        x := x + 1;
      }
      ghost var want := Overwrite(was, at, bytes);
      forall y | 0 <= y < mem.Length ensures mem[y] == want[y] {
      }
      assert mem[..] == want;
    }
  }

  lemma PackNil(at: int)
    ensures PackList(at, []) == []
  {
  }

  lemma PackMemNil(mem: seq<byte>, at: int)
    ensures PackMem(mem, at, []) == mem
  {
  }

  lemma LoweredInPlace(mem: seq<byte>, at: int, s: Segment)
    requires at >= s.addr
    ensures Lowered(at, s) == s && LoweredMem(mem, at, s) == mem
  {
  }

  lemma InsideLive(list: seq<Segment>, total: int)
    requires AllInside(list, total)
    ensures AllInside(Live(list), total)
  {
    forall k | 0 <= k < |Live(list)| ensures Live(list)[k].Inside(total) {
      var j := AtInList(list, k);
    }
  }

  lemma InsideOfReordering(a: seq<Segment>, b: seq<Segment>, total: int)
    requires AllInside(a, total) && multiset(a) == multiset(b)
    ensures AllInside(b, total)
  {
    forall i | 0 <= i < |b| ensures b[i].Inside(total) {
      assert b[i] in multiset(a);
      assert b[i] in a;
    }
  }
}
