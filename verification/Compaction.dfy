/** Compaction of the managed memory: what it leaves, when it is invisible, and
    exactly when it destroys bytes. */
module Compaction {
  import opened Bytes
  import opened Segments

  /** The effect of copying `n` bytes downwards, lowest address first. */
  function Moved(mem: seq<byte>, dst: int, src: int, n: int): (r: seq<byte>)
    requires 0 <= dst <= src && 0 <= n && src + n <= |mem|
    ensures |r| == |mem|
  {
    seq(|mem|, i requires 0 <= i < |mem| => if dst <= i < dst + n then mem[src + (i - dst)] else mem[i])
  }

  /** An entry is moved only when it lies above the end of the entry before it. */
  function Lowered(at: int, s: Segment): Segment {
    if at < s.addr then s.(addr := at) else s
  }

  /** The live entries after the loop, `at` being the end of the entry before. */
  function PackList(at: int, live: seq<Segment>): seq<Segment>
    decreases |live|
  {
    if live == [] then []
    else
      var s := Lowered(at, live[0]);
      [s] + PackList(s.addr + s.size, live[1..])
  }

  ghost predicate AllInside(list: seq<Segment>, total: int) {
    forall i :: 0 <= i < |list| ==> list[i].Inside(total)
  }

  /** The bytes after that move. Entries lie inside the memory; asking again
      here makes the function total. */
  function LoweredMem(mem: seq<byte>, at: int, s: Segment): (r: seq<byte>)
    ensures |r| == |mem|
  {
    if 0 <= at < s.addr && s.Inside(|mem|) then Moved(mem, at, s.addr, s.size) else mem
  }

  /** The bytes after the loop. */
  function PackMem(mem: seq<byte>, at: int, live: seq<Segment>): (r: seq<byte>)
    ensures |r| == |mem|
    decreases |live|
  {
    if live == [] then mem
    else
      var s := Lowered(at, live[0]);
      PackMem(LoweredMem(mem, at, live[0]), s.addr + s.size, live[1..])
  }

  function Hole(id: int, size: int, addr: int): Segment {
    Segment(id, -1, 0, size, addr)
  }

  function Compacted(u: Umv): (r: Umv)
    ensures |r.mem| == |u.mem|
  {
    var live := Live(u.list);
    var packed := PackList(0, live);
    var mem := PackMem(u.mem, 0, live);
    PackLength(0, live);
    if live == [] then
      Umv(mem, [Hole(u.nextId + 1, |mem|, 0)], u.nextId + 1, u.firstFit)
    else if Used(packed) < |mem| then
      var last := packed[|packed| - 1];
      Umv(mem, packed + [Hole(u.nextId + 1, |mem| - Used(packed), last.addr + last.size)],
          u.nextId + 1, u.firstFit)
    else
      Umv(mem, packed, u.nextId, u.firstFit)
  }

  // ---- the condition ----

  /** No live entry lies below the place it is packed to: its address is at
      least `at` plus the sizes of the live entries listed before it. */
  predicate SafeFrom(at: int, live: seq<Segment>)
    decreases |live|
  {
    live == [] || (at <= live[0].addr && SafeFrom(at + live[0].size, live[1..]))
  }

  predicate SafeToCompact(list: seq<Segment>) {
    SafeFrom(0, Live(list))
  }

  /** Entries that follow each other from `at` with no gap. */
  predicate Contiguous(at: int, list: seq<Segment>)
    decreases |list|
  {
    list == [] || (list[0].addr == at && Contiguous(at + list[0].size, list[1..]))
  }

  predicate SameButAddr(s: Segment, t: Segment) {
    s.(addr := t.addr) == t
  }

  lemma {:induction false} PackLength(at: int, live: seq<Segment>)
    ensures |PackList(at, live)| == |live|
    ensures forall k :: 0 <= k < |live| ==> SameButAddr(live[k], PackList(at, live)[k])
    decreases |live|
  {
    if live != [] {
      var s := Lowered(at, live[0]);
      PackLength(s.addr + s.size, live[1..]);
    }
  }

  /** Packing never raises an entry, so it stays inside the memory. */
  lemma {:induction false} PackInside(at: int, live: seq<Segment>, total: int)
    requires 0 <= at && AllInside(live, total)
    ensures |PackList(at, live)| == |live| && AllInside(PackList(at, live), total)
    decreases |live|
  {
    if live != [] {
      var s := Lowered(at, live[0]);
      PackInside(s.addr + s.size, live[1..], total);
    }
  }

  /** The pass leaves the live entries gap-free exactly under the condition. */
  lemma {:induction false} PackedIffSafe(at: int, live: seq<Segment>)
    ensures Contiguous(at, PackList(at, live)) <==> SafeFrom(at, live)
    decreases |live|
  {
    if live != [] && at <= live[0].addr {
      PackedIffSafe(at + live[0].size, live[1..]);
      assert PackList(at, live)[1..] == PackList(at + live[0].size, live[1..]);
    }
  }

  lemma {:induction false} SafeBounds(at: int, live: seq<Segment>, total: int)
    requires SafeFrom(at, live) && AllInside(live, total)
    ensures forall k :: 0 <= k < |live| ==> at <= live[k].addr
    decreases |live|
  {
    if live != [] {
      SafeBounds(at + live[0].size, live[1..], total);
      forall k | 0 <= k < |live| ensures at <= live[k].addr {
        if k > 0 {
          assert live[k] == live[1..][k - 1];
        }
      }
    }
  }

  /** Nothing below `at` is written. */
  lemma {:induction false} PackFrame(mem: seq<byte>, at: int, live: seq<Segment>, x: int)
    requires 0 <= at && AllInside(live, |mem|) && SafeFrom(at, live)
    requires 0 <= x < at && x < |mem|
    ensures PackMem(mem, at, live)[x] == mem[x]
    decreases |live|
  {
    if live != [] {
      PackFrame(LoweredMem(mem, at, live[0]), at + live[0].size, live[1..], x);
    }
  }

  /** A moved entry reads at its new place what it read at the old one, even
      when the two ranges overlap. */
  lemma LoweredHere(mem: seq<byte>, at: int, s: Segment)
    requires 0 <= at <= s.addr && s.Inside(|mem|)
    ensures Slice(LoweredMem(mem, at, s), s.(addr := at)) == Slice(mem, s)
  {
    var t, r := s.(addr := at), LoweredMem(mem, at, s);
    forall x | 0 <= x < s.size ensures Slice(r, t)[x] == Slice(mem, s)[x] {
      assert r[at + x] == mem[s.addr + x];
    }
  }

  lemma LoweredElsewhere(mem: seq<byte>, at: int, s: Segment, t: Segment)
    requires t.Inside(|mem|) && at + s.size <= t.addr
    ensures Slice(LoweredMem(mem, at, s), t) == Slice(mem, t)
  {
    var r := LoweredMem(mem, at, s);
    forall x | 0 <= x < t.size ensures Slice(r, t)[x] == Slice(mem, t)[x] {
      assert r[t.addr + x] == mem[t.addr + x];
    }
  }

  lemma InsideTail(live: seq<Segment>, total: int)
    requires AllInside(live, total) && live != []
    ensures live[0].Inside(total) && AllInside(live[1..], total)
  {
  }

  lemma PackListUnfold(at: int, live: seq<Segment>, s: Segment)
    requires live != [] && s == Lowered(at, live[0])
    ensures PackList(at, live) == [s] + PackList(s.addr + s.size, live[1..])
  {
  }

  lemma PackMemUnfold(mem: seq<byte>, at: int, live: seq<Segment>, s: Segment)
    requires live != [] && s == Lowered(at, live[0])
    ensures PackMem(mem, at, live) == PackMem(LoweredMem(mem, at, live[0]), s.End(), live[1..])
  {
  }

  lemma PackMemRound(mem: seq<byte>, at: int, live: seq<Segment>)
    requires live != [] && at <= live[0].addr
    ensures PackMem(mem, at, live) == PackMem(LoweredMem(mem, at, live[0]), at + live[0].size, live[1..])
  {
    var s := Lowered(at, live[0]);
    assert s.End() == at + live[0].size;
    PackMemUnfold(mem, at, live, s);
  }

  lemma PackEntry(at: int, live: seq<Segment>, k: nat, total: int)
    requires k < |live| && 0 <= at <= live[0].addr && AllInside(live, total)
    ensures |PackList(at, live)| == |live| && |PackList(at + live[0].size, live[1..])| == |live| - 1
    ensures PackList(at, live)[k] ==
      if k == 0 then live[0].(addr := at) else PackList(at + live[0].size, live[1..])[k - 1]
  {
    PackListUnfold(at, live, Lowered(at, live[0]));
    PackLength(at, live);
  }

  lemma FrameSlice(mem: seq<byte>, at: int, live: seq<Segment>, t: Segment)
    requires 0 <= at && AllInside(live, |mem|) && SafeFrom(at, live)
    requires t.Inside(|mem|) && t.End() <= at
    ensures Slice(PackMem(mem, at, live), t) == Slice(mem, t)
  {
    hide PackMem;
    var r := PackMem(mem, at, live);
    forall x | 0 <= x < t.size ensures Slice(r, t)[x] == Slice(mem, t)[x] {
      PackFrame(mem, at, live, t.addr + x);
    }
  }

  /** Entry k reads after the pass what it read before. */
  ghost predicate Kept(mem: seq<byte>, at: int, live: seq<Segment>, k: nat)
    requires k < |live|
  {
    var packed, final := PackList(at, live), PackMem(mem, at, live);
    && |packed| == |live| && packed[k].Inside(|final|) && live[k].Inside(|mem|)
    && Slice(final, packed[k]) == Slice(mem, live[k])
  }

  lemma PackHead(mem: seq<byte>, at: int, live: seq<Segment>)
    requires 0 <= at && AllInside(live, |mem|) && SafeFrom(at, live) && live != []
    ensures Kept(mem, at, live, 0)
  {
    var s, end := live[0].(addr := at), at + live[0].size;
    var mem1 := LoweredMem(mem, at, live[0]);
    assert at <= live[0].addr && SafeFrom(end, live[1..]);
    InsideTail(live, |mem|);
    PackMemRound(mem, at, live);
    PackEntry(at, live, 0, |mem|);
    hide PackList, PackMem, LoweredMem, SafeFrom, Slice;
    FrameSlice(mem1, end, live[1..], s);
    LoweredHere(mem, at, live[0]);
  }

  lemma PackTail(mem: seq<byte>, at: int, live: seq<Segment>, k: nat)
    requires 0 < k < |live| && 0 <= at <= live[0].addr && AllInside(live, |mem|)
    requires at + live[0].size <= live[k].addr
    requires Kept(LoweredMem(mem, at, live[0]), at + live[0].size, live[1..], k - 1)
    ensures Kept(mem, at, live, k)
  {
    PackMemRound(mem, at, live);
    PackEntry(at, live, k, |mem|);
    hide PackList, PackMem, LoweredMem, Slice;
    LoweredElsewhere(mem, at, live[0], live[k]);
  }

  /** The pass never overwrites an entry it has not moved yet, nor one it has. */
  lemma {:induction false} PackKeeps(mem: seq<byte>, at: int, live: seq<Segment>, k: nat)
    requires 0 <= at && AllInside(live, |mem|) && SafeFrom(at, live) && k < |live|
    ensures Kept(mem, at, live, k)
    decreases k
  {
    hide Kept, PackList, PackMem;
    if k == 0 {
      PackHead(mem, at, live);
    } else {
      var end := at + live[0].size;
      InsideTail(live, |mem|);
      SafeBounds(end, live[1..], |mem|);
      assert live[1..][k - 1] == live[k];
      PackKeeps(LoweredMem(mem, at, live[0]), end, live[1..], k - 1);
      PackTail(mem, at, live, k);
    }
  }

  /** Each live entry reads after the pass what it read before. */
  ghost predicate KeepsBytes(mem: seq<byte>, live: seq<Segment>)
    requires AllInside(live, |mem|)
  {
    PackInside(0, live, |mem|);
    forall k :: 0 <= k < |live| ==>
      Slice(PackMem(mem, 0, live), PackList(0, live)[k]) == Slice(mem, live[k])
  }

  lemma PackKeepsBytes(mem: seq<byte>, live: seq<Segment>)
    requires AllInside(live, |mem|) && SafeFrom(0, live)
    ensures KeepsBytes(mem, live)
  {
    PackInside(0, live, |mem|);
    forall k | 0 <= k < |live|
      ensures Slice(PackMem(mem, 0, live), PackList(0, live)[k]) == Slice(mem, live[k])
    {
      PackKeeps(mem, 0, live, k);
    }
  }

  /** Address order is enough: this is the state a fit that found no hole leaves. */
  lemma {:induction false} AscendingIsSafe(at: int, live: seq<Segment>, total: int)
    requires Pairwise(live) && AllInside(live, total) && Ascending(live)
    requires forall i :: 0 <= i < |live| ==> live[i].size > 0
    requires live != [] ==> at <= live[0].addr
    ensures SafeFrom(at, live)
    decreases |live|
  {
    if |live| > 1 {
      assert Compatible(live[0], live[1]);
    }
    if live != [] {
      AscendingIsSafe(at + live[0].size, live[1..], total);
    }
  }

  lemma SortedIsSafe(u: Umv)
    requires Valid(u) && Ascending(u.list)
    ensures SafeToCompact(u.list)
  {
    LiveInherits(u.list, |u.mem|, u.nextId);
    LiveAscending(u.list);
    AllLive(u.list);
    AscendingIsSafe(0, Live(u.list), |u.mem|);
  }

  // ---- compaction as a no-op on the view ----

  lemma {:induction false} ContiguousLayout(at: int, list: seq<Segment>)
    requires Contiguous(at, list)
    requires forall i :: 0 <= i < |list| ==> list[i].size >= 0
    ensures Size(list) >= 0
    ensures forall i :: 0 <= i < |list| ==> at <= list[i].addr && list[i].addr + list[i].size <= at + Size(list)
    ensures forall i, j :: 0 <= i < j < |list| ==> list[i].addr + list[i].size <= list[j].addr
    ensures list != [] ==> list[|list| - 1].addr + list[|list| - 1].size == at + Size(list)
    decreases |list|
  {
    if list != [] {
      var rest := list[1..];
      ContiguousLayout(at + list[0].size, rest);
      forall i | 0 < i < |list|
        ensures at + list[0].size <= list[i].addr && list[i].addr + list[i].size <= at + Size(list)
      {
        assert list[i] == rest[i - 1];
      }
      forall i, j | 0 <= i < j < |list| ensures list[i].addr + list[i].size <= list[j].addr {
        assert list[j] == rest[j - 1];
        if i > 0 {
          assert list[i] == rest[i - 1];
        }
      }
      if rest != [] {
        assert list[|list| - 1] == rest[|rest| - 1];
      }
    }
  }

  lemma {:induction false} SizeOfPacked(at: int, live: seq<Segment>)
    ensures Size(PackList(at, live)) == Size(live)
    decreases |live|
  {
    if live != [] {
      var s := Lowered(at, live[0]);
      SizeOfPacked(s.addr + s.size, live[1..]);
      assert PackList(at, live)[1..] == PackList(s.addr + s.size, live[1..]);
    }
  }

  lemma {:induction false} LiveOfLive(list: seq<Segment>)
    requires forall i :: 0 <= i < |list| ==> list[i].Live()
    ensures Live(list) == list
  {
    if list != [] {
      LiveOfLive(list[1..]);
    }
  }

  lemma AllLive(list: seq<Segment>)
    ensures forall i :: 0 <= i < |Live(list)| ==> Live(list)[i].Live()
  {
    forall i | 0 <= i < |Live(list)| ensures Live(list)[i].Live() {
      InLive(list, Live(list)[i]);
    }
  }

  /** The live entries after a pass made under the condition: their old order,
      packed from address 0, with their old sizes. */
  lemma PackedShape(u: Umv)
    requires Valid(u) && SafeToCompact(u.list)
    ensures var live, packed := Live(u.list), PackList(0, Live(u.list));
      && AllInside(live, |u.mem|) && AllInside(packed, |u.mem|)
      && |packed| == |live|
      && (forall k :: 0 <= k < |live| ==> SameButAddr(live[k], packed[k]))
      && Contiguous(0, packed)
      && Live(packed) == packed
      && 0 <= Size(packed) == Used(u.list) <= |u.mem|
  {
    var live, packed := Live(u.list), PackList(0, Live(u.list));
    LiveInherits(u.list, |u.mem|, u.nextId);
    PackLength(0, live);
    PackInside(0, live, |u.mem|);
    PackedIffSafe(0, live);
    SizeOfPacked(0, live);
    UsedAtMostSize(u.list);
    AllLive(u.list);
    forall i | 0 <= i < |packed| ensures packed[i].Live() {
      assert SameButAddr(live[i], packed[i]);
    }
    LiveOfLive(packed);
  }

  /** The only hole, if any, is the last entry and holds all the free bytes. */
  function FreeTail(u: Umv): (r: seq<Segment>)
    ensures |r| <= 1
  {
    if Live(u.list) == [] || Used(u.list) < |u.mem| then
      [Hole(u.nextId + 1, |u.mem| - Used(u.list), Used(u.list))]
    else []
  }

  lemma CompactedShape(u: Umv)
    requires Valid(u) && SafeToCompact(u.list)
    ensures Compacted(u).list == PackList(0, Live(u.list)) + FreeTail(u)
    ensures Compacted(u).nextId == u.nextId + |FreeTail(u)|
    ensures Compacted(u).mem == PackMem(u.mem, 0, Live(u.list)) && |Compacted(u).mem| == |u.mem|
    ensures Compacted(u).firstFit == u.firstFit
    ensures forall s :: s in FreeTail(u) ==> s.pid == -1 && s.virt == 0
  {
    hide PackList, PackMem, Live, Contiguous, SafeFrom;
    PackedShape(u);
    var packed := PackList(0, Live(u.list));
    ContiguousLayout(0, packed);
    assert Used(packed) == Used(u.list);
    if packed != [] {
      var last := packed[|packed| - 1];
      assert last.addr + last.size == Used(u.list);
    } else {
      assert Live(u.list) == [];
    }
  }

  lemma CompactedPairwise(u: Umv)
    requires Valid(u) && SafeToCompact(u.list)
    ensures Pairwise(PackList(0, Live(u.list)) + FreeTail(u))
  {
    PackedShape(u);
    var live, packed := Live(u.list), PackList(0, Live(u.list));
    LiveInherits(u.list, |u.mem|, u.nextId);
    ContiguousLayout(0, packed);
    var list := packed + FreeTail(u);
    hide Live, PackList, Size, Valid, SafeToCompact;
    forall i, j | 0 <= i < j < |list| ensures Compatible(list[i], list[j]) {
      assert SameButAddr(live[i], packed[i]);
      assert WellFormed(live[i], |u.mem|, u.nextId);
      if j < |packed| {
        assert SameButAddr(live[j], packed[j]);
        assert Compatible(live[i], live[j]);
      }
    }
  }

  lemma CompactedIsValid(u: Umv)
    requires Valid(u) && SafeToCompact(u.list)
    ensures Valid(Compacted(u))
    ensures Live(Compacted(u).list) == PackList(0, Live(u.list))
    ensures Used(Compacted(u).list) == Used(u.list)
  {
    hide PackList, PackMem, Contiguous, SafeFrom, Compacted;
    PackedShape(u);
    CompactedShape(u);
    CompactedPairwise(u);
    var live, packed, c := Live(u.list), PackList(0, Live(u.list)), Compacted(u);
    LiveInherits(u.list, |u.mem|, u.nextId);
    SizeConcat(packed, FreeTail(u));
    LiveConcat(packed, FreeTail(u));
    forall i | 0 <= i < |c.list| ensures WellFormed(c.list[i], |c.mem|, c.nextId) {
      if i < |packed| {
        assert SameButAddr(live[i], packed[i]) && packed[i].Inside(|u.mem|);
        assert WellFormed(live[i], |u.mem|, u.nextId);
      } else {
        assert c.list[i] == FreeTail(u)[0];
      }
    }
  }

  /** Looking an entry up by its key finds its bytes in the view. */
  lemma ViewOfLive(u: Umv, k: nat)
    requires Valid(u) && k < |Live(u.list)|
    ensures var s := Live(u.list)[k];
      s.Inside(|u.mem|) && s.Key() in View(u) && View(u)[s.Key()] == Slice(u.mem, s)
  {
    InLive(u.list, Live(u.list)[k]);
  }

  lemma KeyOfView(u: Umv, key: (int, int)) returns (k: nat)
    requires Valid(u) && key in View(u)
    ensures k < |Live(u.list)| && Live(u.list)[k].Key() == key
  {
    var s :| s in u.list && s.Live() && s.Key() == key;
    InLive(u.list, s);
    k :| 0 <= k < |Live(u.list)| && Live(u.list)[k] == s;
  }

  /** Two states whose live entries agree in order, keys and bytes look alike. */
  lemma SameView(u: Umv, c: Umv)
    requires Valid(u) && Valid(c) && |Live(u.list)| == |Live(c.list)|
    requires forall k :: 0 <= k < |Live(u.list)| ==>
      && Live(u.list)[k].Inside(|u.mem|) && Live(c.list)[k].Inside(|c.mem|)
      && Live(u.list)[k].Key() == Live(c.list)[k].Key()
      && Slice(u.mem, Live(u.list)[k]) == Slice(c.mem, Live(c.list)[k])
    ensures View(u) == View(c)
  {
    forall key | key in View(u) ensures key in View(c) && View(c)[key] == View(u)[key] {
      var k := KeyOfView(u, key);
      ViewOfLive(u, k);
      ViewOfLive(c, k);
    }
    forall key | key in View(c) ensures key in View(u) {
      var k := KeyOfView(c, key);
      ViewOfLive(u, k);
    }
  }

  /** Under the condition compaction changes no byte array of the view. */
  lemma CompactionIsInvisible(u: Umv)
    requires Valid(u) && SafeToCompact(u.list)
    ensures Valid(Compacted(u)) && View(Compacted(u)) == View(u)
  {
    CompactedIsValid(u);
    PackedShape(u);
    var live, packed := Live(u.list), PackList(0, Live(u.list));
    PackKeepsBytes(u.mem, live);
    assert Compacted(u).mem == PackMem(u.mem, 0, live);
    forall k | 0 <= k < |live|
      ensures packed[k].Key() == live[k].Key()
      ensures Slice(PackMem(u.mem, 0, live), packed[k]) == Slice(u.mem, live[k])
    {
      assert SameButAddr(live[k], packed[k]);
    }
    SameView(u, Compacted(u));
  }

  lemma {:induction false} ContiguousStaysPut(mem: seq<byte>, at: int, live: seq<Segment>)
    requires 0 <= at && AllInside(live, |mem|) && Contiguous(at, live)
    ensures PackList(at, live) == live && PackMem(mem, at, live) == mem
    decreases |live|
  {
    if live != [] {
      ContiguousStaysPut(mem, at + live[0].size, live[1..]);
    }
  }

  /** A second compaction changes no live entry and no byte. */
  lemma CompactionIsIdempotent(u: Umv)
    requires Valid(u) && SafeToCompact(u.list)
    ensures Compacted(Compacted(u)).mem == Compacted(u).mem
    ensures Live(Compacted(Compacted(u)).list) == Live(Compacted(u).list)
    ensures SafeToCompact(Compacted(u).list)
  {
    PackedShape(u);
    CompactedIsValid(u);
    var c := Compacted(u);
    ContiguousStaysPut(c.mem, 0, PackList(0, Live(u.list)));
    PackedIffSafe(0, Live(c.list));
    CompactedIsValid(c);
  }

  // ---- the converse: outside the condition bytes are lost ----

  lemma {:induction false} CoverPoint(at: int, list: seq<Segment>, x: int) returns (j: nat)
    requires Contiguous(at, list) && at <= x < at + Size(list)
    ensures j < |list| && list[j].addr <= x < list[j].addr + list[j].size
    decreases |list|
  {
    if x < at + list[0].size {
      j := 0;
    } else {
      var k := CoverPoint(at + list[0].size, list[1..], x);
      j := k + 1;
    }
  }

  /** When the condition fails, the first entry below its place is left where
      it is, on top of one packed before it. */
  lemma {:induction false} Clash(done: seq<Segment>, live: seq<Segment>) returns (j: nat, k: nat)
    requires Contiguous(0, done) && !SafeFrom(Size(done), live)
    requires forall i :: 0 <= i < |live| ==> live[i].addr >= 0
    ensures |PackList(Size(done), live)| == |live|
    ensures var all := done + PackList(Size(done), live);
      && j < k && |done| <= k < |all|
      && all[k] == live[k - |done|]
      && all[j].addr <= all[k].addr < all[j].addr + all[j].size
    decreases |live|
  {
    var at := Size(done);
    PackLength(at, live);
    if live[0].addr < at {
      k := |done|;
      j := CoverPoint(0, done, live[0].addr);
    } else {
      var s := live[0].(addr := at);
      SizeConcat(done, [s]);
      ContiguousSnoc(0, done, s);
      j, k := Clash(done + [s], live[1..]);
      assert done + [s] + PackList(at + s.size, live[1..]) == done + PackList(at, live);
    }
  }

  lemma ClashingPair(live: seq<Segment>) returns (j: nat, k: nat)
    requires !SafeFrom(0, live) && forall i :: 0 <= i < |live| ==> live[i].addr >= 0
    ensures j < k < |live| == |PackList(0, live)|
    ensures var p := PackList(0, live)[j];
      SameButAddr(live[j], p) && PackList(0, live)[k] == live[k] && p.addr <= live[k].addr < p.addr + p.size
  {
    j, k := Clash([], live);
    PackLength(0, live);
    hide PackList, SafeFrom;
    assert [] + PackList(0, live) == PackList(0, live);
  }

  lemma {:induction false} ContiguousSnoc(at: int, list: seq<Segment>, s: Segment)
    requires Contiguous(at, list) && s.addr == at + Size(list)
    ensures Contiguous(at, list + [s])
    decreases |list|
  {
    if list != [] {
      ContiguousSnoc(at + list[0].size, list[1..], s);
      assert (list + [s])[1..] == list[1..] + [s];
    }
  }

  lemma SliceAt(mem: seq<byte>, s: Segment, d: int)
    requires s.Inside(|mem|) && 0 <= d < s.size
    ensures |Slice(mem, s)| == s.size && Slice(mem, s)[d] == mem[s.addr + d]
  {
  }

  /** Two entries on top of each other read the same byte after the pass. */
  lemma SharedByte(mem: seq<byte>, final: seq<byte>, p: Segment, was: Segment, t: Segment)
    requires was.Inside(|mem|) && t.Inside(|mem|) && p.Inside(|final|) && t.Inside(|final|)
    requires p.size == was.size && t.size > 0 && p.addr <= t.addr < p.addr + p.size
    requires Slice(final, p) == Slice(mem, was) && Slice(final, t) == Slice(mem, t)
    ensures mem[was.addr + (t.addr - p.addr)] == mem[t.addr]
  {
    SliceAt(final, p, t.addr - p.addr);
    SliceAt(mem, was, t.addr - p.addr);
    SliceAt(final, t, 0);
    SliceAt(mem, t, 0);
  }

  lemma KeptAt(mem: seq<byte>, live: seq<Segment>, k: nat) returns (final: seq<byte>)
    requires AllInside(live, |mem|) && KeepsBytes(mem, live) && k < |live|
    ensures final == PackMem(mem, 0, live) && |PackList(0, live)| == |live|
    ensures PackList(0, live)[k].Inside(|final|) && Slice(final, PackList(0, live)[k]) == Slice(mem, live[k])
  {
    PackInside(0, live, |mem|);
    final := PackMem(mem, 0, live);
  }

  function Marked(total: nat, y: int): (mem: seq<byte>)
    ensures |mem| == total
    ensures forall i :: 0 <= i < total ==> mem[i] == if i == y then 1 else 0
  {
    seq(total, i => if i == y then 1 else 0)
  }

  /** For some contents of the memory, compaction changes a live segment. */
  lemma UnsafeLosesBytes(live: seq<Segment>, total: nat) returns (mem: seq<byte>)
    requires Pairwise(live) && AllInside(live, total)
    requires forall i :: 0 <= i < |live| ==> live[i].size > 0
    requires !SafeFrom(0, live)
    ensures |mem| == total && AllInside(live, |mem|) && !KeepsBytes(mem, live)
  {
    var j, k := ClashingPair(live);
    hide PackList, PackMem, SafeFrom, KeepsBytes;
    var packed := PackList(0, live);
    assert Compatible(live[j], live[k]);
    var y := live[j].addr + (live[k].addr - packed[j].addr);
    mem := Marked(total, y);
    if KeepsBytes(mem, live) {
      var final := KeptAt(mem, live, j);
      final := KeptAt(mem, live, k);
      SharedByte(mem, final, packed[j], live[j], live[k]);
    }
  }

  /** The pass keeps every live byte, whatever the memory holds, if and only if no
      live entry lies below its packed place. */
  lemma PassKeepsBytesIff(u: Umv)
    requires Valid(u)
    ensures AllInside(Live(u.list), |u.mem|)
    ensures (forall mem: seq<byte> | |mem| == |u.mem| :: KeepsBytes(mem, Live(u.list)))
            <==> SafeToCompact(u.list)
  {
    var live := Live(u.list);
    LiveInherits(u.list, |u.mem|, u.nextId);
    AllLive(u.list);
    assert AllInside(live, |u.mem|);
    if SafeToCompact(u.list) {
      forall mem: seq<byte> | |mem| == |u.mem| ensures KeepsBytes(mem, live) {
        PackKeepsBytes(mem, live);
      }
    } else {
      assert forall i :: 0 <= i < |live| ==> live[i].size > 0;
      var mem := UnsafeLosesBytes(live, |u.mem|);
    }
  }

  lemma {:induction false} PackedEntries(at: int, live: seq<Segment>)
    requires forall k :: 0 <= k < |live| ==> live[k].Live()
    ensures |PackList(at, live)| == |live|
    ensures forall k :: 0 <= k < |live| ==> SameButAddr(live[k], PackList(at, live)[k]) && PackList(at, live)[k].Live()
    decreases |live|
  {
    PackLength(at, live);
    if live != [] {
      var s := Lowered(at, live[0]);
      PackedEntries(s.addr + s.size, live[1..]);
      PackListUnfold(at, live, s);
      hide PackList;
    }
  }

  lemma LiveOfHole(id: int, size: int, addr: int)
    ensures Live([Hole(id, size, addr)]) == []
  {
    assert [Hole(id, size, addr)][1..] == [];
  }

  lemma CompactedTail(u: Umv) returns (tail: seq<Segment>)
    ensures Compacted(u).list == PackList(0, Live(u.list)) + tail && Live(tail) == []
    ensures Compacted(u).mem == PackMem(u.mem, 0, Live(u.list))
  {
    hide PackMem, Live, Used;
    var packed := PackList(0, Live(u.list));
    PackLength(0, Live(u.list));
    hide PackList;
    if Live(u.list) == [] {
      tail := [Hole(u.nextId + 1, |u.mem|, 0)];
      LiveOfHole(u.nextId + 1, |u.mem|, 0);
    } else if Used(packed) < |u.mem| {
      var last := packed[|packed| - 1];
      tail := [Hole(u.nextId + 1, |u.mem| - Used(packed), last.addr + last.size)];
      LiveOfHole(u.nextId + 1, |u.mem| - Used(packed), last.addr + last.size);
    } else {
      tail := [];
      NoneLive();
      assert packed + [] == packed;
    }
  }

  lemma NoneLive()
    ensures Live([]) == []
  {
  }

  /** Of any list at all, safe or not, compaction leaves the live entries in their
      order with owner, address and size, where the pass puts them. */
  lemma CompactedLive(u: Umv)
    ensures Live(Compacted(u).list) == PackList(0, Live(u.list))
    ensures Compacted(u).mem == PackMem(u.mem, 0, Live(u.list))
    ensures |Live(Compacted(u).list)| == |Live(u.list)|
    ensures forall k :: 0 <= k < |Live(u.list)| ==> SameButAddr(Live(u.list)[k], Live(Compacted(u).list)[k])
  {
    hide PackList, PackMem, Live, Compacted;
    AllLive(u.list);
    var packed := PackList(0, Live(u.list));
    PackedEntries(0, Live(u.list));
    LiveOfLive(packed);
    var tail := CompactedTail(u);
    LiveConcat(packed, tail);
    assert packed + [] == packed;
  }

  /** Each live segment has after compaction the bytes it had before. */
  ghost predicate KeepsSegments(u: Umv)
    requires AllInside(Live(u.list), |u.mem|)
  {
    CompactedLive(u);
    PackInside(0, Live(u.list), |u.mem|);
    forall k :: 0 <= k < |Live(u.list)| ==>
      Slice(Compacted(u).mem, Live(Compacted(u).list)[k]) == Slice(u.mem, Live(u.list)[k])
  }

  lemma KeepsSegmentsIff(u: Umv)
    requires AllInside(Live(u.list), |u.mem|)
    ensures KeepsSegments(u) <==> KeepsBytes(u.mem, Live(u.list))
  {
    CompactedLive(u);
    PackInside(0, Live(u.list), |u.mem|);
    hide Compacted, PackList, PackMem, Live, Slice;
  }

  /** Compaction keeps every live byte, whatever the memory holds, if and only
      if no live entry lies below its packed place. */
  lemma CompactionKeepsBytesIff(u: Umv)
    requires Valid(u)
    ensures AllInside(Live(u.list), |u.mem|)
    ensures (forall mem: seq<byte> | |mem| == |u.mem| :: KeepsSegments(u.(mem := mem))) <==> SafeToCompact(u.list)
  {
    PassKeepsBytesIff(u);
    hide KeepsSegments, KeepsBytes, SafeToCompact, Live;
    if SafeToCompact(u.list) {
      forall mem: seq<byte> | |mem| == |u.mem| ensures KeepsSegments(u.(mem := mem)) {
        KeepsSegmentsIff(u.(mem := mem));
      }
    } else {
      var mem: seq<byte> :| |mem| == |u.mem| && !KeepsBytes(mem, Live(u.list));
      KeepsSegmentsIff(u.(mem := mem));
    }
  }
}
