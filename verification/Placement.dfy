/** Creation of segments: which hole each algorithm takes, what splitting it
    does to the list, and when the list stays consistent. */
module Placement {
  import opened Bytes
  import opened Segments

  /** What a creation gets from outside: the answer of the library sort, the
      virtual address its drawing loop ends with, and the value an unset
      virtual address happens to hold. */
  datatype Chance = Chance(order: seq<Segment>, virt: int, unset: int)

  /** The list position of the first hole with room for `size`, else |list|. */
  function FirstHole(list: seq<Segment>, size: int): (i: nat)
    ensures i <= |list|
    ensures i < |list| ==> list[i].pid <= 0 && list[i].size >= size
    ensures forall j :: 0 <= j < i ==> list[j].pid > 0 || list[j].size < size
  {
    if list == [] || (list[0].pid <= 0 && list[0].size >= size) then 0
    else
      var rest := list[1..];
      assert forall j :: 0 < j < |list| ==> list[j] == rest[j - 1];
      1 + FirstHole(rest, size)
  }

  /** The position of the first of the largest holes, else -1. */
  function WorstHole(list: seq<Segment>): (i: int)
    ensures -1 <= i < |list|
    ensures i >= 0 ==> list[i].pid <= 0 && list[i].size > 0
    ensures forall j :: 0 <= j < |list| && list[j].pid <= 0 ==>
      list[j].size <= (if i >= 0 then list[i].size else 0)
    ensures forall j :: 0 <= j < i && list[j].pid <= 0 ==> list[j].size < list[i].size
  {
    if list == [] then -1
    else
      var n := |list| - 1;
      var best := WorstHole(list[..n]);
      if list[n].pid <= 0 && list[n].size > (if best >= 0 then list[best].size else 0) then n
      else best
  }

  function Without(list: seq<Segment>, i: nat): seq<Segment>
    requires i < |list|
  {
    list[..i] + list[i + 1..]
  }

  /** The two parts that replace a hole. */
  function Front(hole: Segment, pid: int, size: int, virt: int, id: int): Segment {
    Segment(id, pid, virt, size, hole.addr)
  }

  function Rest(hole: Segment, size: int): Segment {
    hole.(addr := hole.addr + size, size := hole.size - size)
  }

  function Split(list: seq<Segment>, i: nat, pid: int, size: int, virt: int, id: int): seq<Segment>
    requires i < |list|
  {
    Without(list, i) + [Front(list[i], pid, size, virt, id)] + [Rest(list[i], size)]
  }

  /** The first creation of all: the memory is split in two. */
  function FirstPair(u: Umv, pid: int, size: int, virt: int): Umv {
    u.(list := [Segment(u.nextId, pid, virt, size, 0),
                Segment(u.nextId + 1, -1, 0, |u.mem| - size, size)],
       nextId := u.nextId + 1)
  }

  function SplitAt(u: Umv, order: seq<Segment>, i: nat, pid: int, size: int, virt: int): Umv
    requires i < |order|
  {
    u.(list := Split(order, i, pid, size, virt, u.nextId + 1), nextId := u.nextId + 1)
  }

  function FirstFit(u: Umv, c: Chance, pid: int, size: int): (Umv, int) {
    if c.order == [] && size <= |u.mem| then (FirstPair(u, pid, size, c.virt), c.virt)
    else
      var i := FirstHole(c.order, size);
      if i < |c.order| then (SplitAt(u, c.order, i, pid, size, c.virt), c.virt)
      else (u.(list := c.order), c.unset)
  }

  function WorstFit(u: Umv, c: Chance, pid: int, size: int): (Umv, int) {
    if c.order == [] && size <= |u.mem| then (FirstPair(u, pid, size, c.virt), c.virt)
    else
      var i := WorstHole(c.order);
      if i >= 0 then (SplitAt(u, c.order, i, pid, size, c.virt), c.virt)
      else (u.(list := c.order), c.unset)
  }

  /** One attempt: the new state and the virtual address answered. */
  function Create(u: Umv, c: Chance, pid: int, size: int): (Umv, int) {
    if Used(u.list) + size <= |u.mem| then
      if u.firstFit then FirstFit(u, c, pid, size) else WorstFit(u, c, pid, size)
    else (u, -1)
  }

  // ---- splitting a hole ----

  lemma PairwiseSnoc(list: seq<Segment>, s: Segment)
    requires Pairwise(list)
    requires forall k :: 0 <= k < |list| ==> Compatible(list[k], s)
    ensures Pairwise(list + [s])
  {
    var all := list + [s];
    forall i, j | 0 <= i < j < |all| ensures Compatible(all[i], all[j]) {
      assert all[i] == list[i];
      if j < |list| {
        assert all[j] == list[j];
      }
    }
  }

  lemma WithoutMembers(list: seq<Segment>, i: nat, k: nat) returns (j: nat)
    requires i < |list| && k < |Without(list, i)|
    ensures j < |list| && j != i && Without(list, i)[k] == list[j]
  {
    j := if k < i then k else k + 1;
  }

  lemma WithoutPairwise(list: seq<Segment>, i: nat)
    requires Pairwise(list) && i < |list|
    ensures Pairwise(Without(list, i))
    ensures forall k :: 0 <= k < |Without(list, i)| ==> Compatible(Without(list, i)[k], list[i])
  {
    var w := Without(list, i);
    forall k | 0 <= k < |w| ensures Compatible(w[k], list[i]) {
      var j := WithoutMembers(list, i, k);
    }
    forall a, b | 0 <= a < b < |w| ensures Compatible(w[a], w[b]) {
      assert w[a] == list[if a < i then a else a + 1];
      assert w[b] == list[if b < i then b else b + 1];
    }
  }

  lemma SizeOne(s: Segment)
    ensures Size([s]) == s.size
  {
  }

  lemma SizeOfSplit(list: seq<Segment>, i: nat, pid: int, size: int, virt: int, id: int)
    requires i < |list|
    ensures Size(Split(list, i, pid, size, virt, id)) == Size(list)
  {
    hide Size;
    var w, f, r := Without(list, i), Front(list[i], pid, size, virt, id), Rest(list[i], size);
    SizeOne(f);
    SizeOne(r);
    SizeOne(list[i]);
    SizeConcat(w + [f], [r]);
    SizeConcat(w, [f]);
    SizeConcat(list[..i], list[i + 1..]);
    assert list == list[..i] + [list[i]] + list[i + 1..];
    SizeConcat(list[..i] + [list[i]], list[i + 1..]);
    SizeConcat(list[..i], [list[i]]);
  }

  /** Splitting a hole that has room keeps the list consistent. */
  lemma SplitKeepsPairwise(u: Umv, i: nat, pid: int, size: int, virt: int)
    requires Valid(u) && i < |u.list| && u.list[i].pid <= 0 && 0 < size <= u.list[i].size
    requires (pid, virt) !in View(u)
    ensures Pairwise(Split(u.list, i, pid, size, virt, u.nextId + 1))
  {
    var hole, w := u.list[i], Without(u.list, i);
    var f, r := Front(hole, pid, size, virt, u.nextId + 1), Rest(hole, size);
    assert WellFormed(hole, |u.mem|, u.nextId);
    WithoutPairwise(u.list, i);
    forall k | 0 <= k < |w| ensures Compatible(w[k], f) && Compatible(w[k], r) {
      var j := WithoutMembers(u.list, i, k);
      assert WellFormed(u.list[j], |u.mem|, u.nextId);
      assert Compatible(w[k], hole);
      if w[k].Live() {
        assert w[k] in u.list;
        assert w[k].Key() in View(u);
      }
    }
    PairwiseSnoc(w, f);
    forall k | 0 <= k < |w + [f]| ensures Compatible((w + [f])[k], r) {
      if k < |w| {
        assert (w + [f])[k] == w[k];
      }
    }
    PairwiseSnoc(w + [f], r);
  }

  lemma SplitMembers(u: Umv, i: nat, pid: int, size: int, virt: int, s: Segment)
    requires Valid(u) && i < |u.list| && u.list[i].pid <= 0 && s.Live()
    ensures var f := Front(u.list[i], pid, size, virt, u.nextId + 1);
      s in Split(u.list, i, pid, size, virt, u.nextId + 1) <==> s in u.list || s == f
  {
    var list, w := u.list, Without(u.list, i);
    assert WellFormed(list[i], |u.mem|, u.nextId);
    assert list == list[..i] + [list[i]] + list[i + 1..];
    assert s in w <==> s in list[..i] || s in list[i + 1..];
  }

  lemma SplitWellFormed(u: Umv, i: nat, pid: int, size: int, virt: int)
    requires Valid(u) && i < |u.list| && u.list[i].pid <= 0 && pid > 0 && 0 < size <= u.list[i].size
    ensures AllWellFormed(Split(u.list, i, pid, size, virt, u.nextId + 1), |u.mem|, u.nextId + 1)
  {
    hide Pairwise, Size;
    var l := Split(u.list, i, pid, size, virt, u.nextId + 1);
    assert WellFormed(u.list[i], |u.mem|, u.nextId);
    forall k | 0 <= k < |l| ensures WellFormed(l[k], |u.mem|, u.nextId + 1) {
      if k < |l| - 2 {
        var j := WithoutMembers(u.list, i, k);
        assert WellFormed(u.list[j], |u.mem|, u.nextId);
      }
    }
  }

  /** A creation that splits a hole with room adds one byte array to the view
      and touches no other: the new key maps to the front of the hole. */
  lemma SplitAddsOne(u: Umv, i: nat, pid: int, size: int, virt: int)
    requires Valid(u) && i < |u.list| && u.list[i].pid <= 0
    requires pid > 0 && 0 < size <= u.list[i].size && (pid, virt) !in View(u)
    ensures u.list[i].Inside(|u.mem|)
    ensures var v := SplitAt(u, u.list, i, pid, size, virt);
      Valid(v) && View(v) == View(u)[(pid, virt) := u.mem[u.list[i].addr..u.list[i].addr + size]]
  {
    var hole := u.list[i];
    var f, r := Front(hole, pid, size, virt, u.nextId + 1), Rest(hole, size);
    var v := SplitAt(u, u.list, i, pid, size, virt);
    hide Pairwise, View, Size, Split, AllWellFormed;
    assert WellFormed(hole, |u.mem|, u.nextId);
    SplitKeepsPairwise(u, i, pid, size, virt);
    SizeOfSplit(u.list, i, pid, size, virt, u.nextId + 1);
    SplitWellFormed(u, i, pid, size, virt);
    forall s: Segment | s.Live()
      ensures s in v.list <==> s in u.list || s == f
    {
      SplitMembers(u, i, pid, size, virt, s);
    }
    AddedKey(u, v, f);
  }

  lemma AddedKey(u: Umv, v: Umv, f: Segment)
    requires Valid(u) && Valid(v) && u.mem == v.mem && f.Live() && f.Inside(|u.mem|)
    requires f.Key() !in View(u)
    requires forall s: Segment :: s.Live() ==> (s in v.list <==> s in u.list || s == f)
    ensures View(v) == View(u)[f.Key() := Slice(u.mem, f)]
  {
    var w := View(u)[f.Key() := Slice(u.mem, f)];
    forall key | key in View(v) ensures key in w && w[key] == View(v)[key] {
      var s :| s in v.list && s.Live() && s.Key() == key;
    }
    forall key | key in w ensures key in View(v) {
      if key != f.Key() {
        var s :| s in u.list && s.Live() && s.Key() == key;
        assert s in v.list;
      } else {
        assert f in v.list;
      }
    }
  }

  lemma FirstPairAddsOne(u: Umv, pid: int, size: int, virt: int)
    requires Valid(u) && u.list == [] && pid > 0 && 0 < size <= |u.mem|
    ensures var v := FirstPair(u, pid, size, virt);
      Valid(v) && View(v) == View(u)[(pid, virt) := u.mem[..size]]
  {
    var v := FirstPair(u, pid, size, virt);
    var f := v.list[0];
    assert Size(v.list) == f.size + Size(v.list[1..]);
    assert v.list[1..] == [v.list[1]];
    AddedKey(u, v, f);
  }

  /** A hole too small for the request makes an entry of negative size. */
  lemma SplitTooSmall(u: Umv, order: seq<Segment>, i: nat, pid: int, size: int, virt: int)
    requires i < |order| && order[i].size < size
    ensures !Valid(SplitAt(u, order, i, pid, size, virt))
  {
    var v := SplitAt(u, order, i, pid, size, virt);
    var last := v.list[|v.list| - 1];
    assert last == Rest(order[i], size) && last.size < 0;
    assert !WellFormed(v.list[|v.list| - 1], |v.mem|, v.nextId);
  }

  // ---- the attempt as a whole ----

  /** No live entry has this owner and virtual address. */
  predicate Fresh(list: seq<Segment>, pid: int, virt: int) {
    forall i :: 0 <= i < |list| ==> !(list[i].Live() && list[i].Key() == (pid, virt))
  }

  /** Where an entry other than `i` is once `i` is removed. */
  lemma StillThere(list: seq<Segment>, i: nat, j: nat) returns (k: nat)
    requires i < |list| && j < |list| && i != j
    ensures k < |Without(list, i)| && Without(list, i)[k] == list[j]
  {
    k := if j < i then j else j - 1;
  }

  lemma Collides(u: Umv, i: nat, pid: int, size: int, virt: int)
    requires Valid(u) && i < |u.list| && u.list[i].pid <= 0 && pid > 0 && !Fresh(u.list, pid, virt)
    ensures !Pairwise(SplitAt(u, u.list, i, pid, size, virt).list)
  {
    var j :| 0 <= j < |u.list| && u.list[j].Live() && u.list[j].Key() == (pid, virt);
    assert WellFormed(u.list[i], |u.mem|, u.nextId);
    var k := StillThere(u.list, i, j);
    hide Valid, View, Size, Without;
    var l := SplitAt(u, u.list, i, pid, size, virt).list;
    assert l[k] == u.list[j] && l[|Without(u.list, i)|] == Front(u.list[i], pid, size, virt, u.nextId + 1);
    assert !Compatible(l[k], l[|Without(u.list, i)|]);
  }

  /** The draw stops at the first number that is not zero, without a look at the
      addresses in use: the list stays consistent if and only if the number is
      not already the address of a segment of the same process. */
  lemma SplitValidIffFresh(u: Umv, i: nat, pid: int, size: int, virt: int)
    requires Valid(u) && i < |u.list| && u.list[i].pid <= 0 && pid > 0 && 0 < size <= u.list[i].size
    ensures Valid(SplitAt(u, u.list, i, pid, size, virt)) <==> Fresh(u.list, pid, virt)
  {
    FreshIff(u, pid, virt);
    if Fresh(u.list, pid, virt) {
      SplitAddsOne(u, i, pid, size, virt);
    } else {
      hide View, Size, SplitAt, AllWellFormed;
      Collides(u, i, pid, size, virt);
    }
  }

  /** What the callers of a creation see to, and what the oracles give. */
  ghost predicate Admissible(u: Umv, c: Chance, pid: int, size: int) {
    && pid > 0 && size > 0
    && IsSorting(u.list, c.order)
    && c.virt >= 0 && Fresh(u.list, pid, c.virt)
  }

  lemma FreshIff(u: Umv, pid: int, virt: int)
    requires Valid(u)
    ensures Fresh(u.list, pid, virt) <==> (pid, virt) !in View(u)
  {
    if (pid, virt) in View(u) {
      var s :| s in u.list && s.Live() && s.Key() == (pid, virt);
      var i :| 0 <= i < |u.list| && u.list[i] == s;
    }
    if !Fresh(u.list, pid, virt) {
      var i :| 0 <= i < |u.list| && u.list[i].Live() && u.list[i].Key() == (pid, virt);
      assert u.list[i] in u.list;
    }
  }

  predicate HasRoom(s: Segment, size: int) {
    s.pid <= 0 && s.size >= size
  }

  /** Some hole has room, equivalently the largest one has. */
  predicate SomeHoleFits(list: seq<Segment>, size: int) {
    exists i :: 0 <= i < |list| && HasRoom(list[i], size)
  }

  /** An array of `size` bytes was added under the key and nothing else changed. */
  ghost predicate Added(v: map<(int, int), seq<byte>>, w: map<(int, int), seq<byte>>, key: (int, int), size: int) {
    && key !in v && key in w && |w[key]| == size
    && w == v[key := w[key]]
  }

  lemma AddedBy(v: map<(int, int), seq<byte>>, w: map<(int, int), seq<byte>>, key: (int, int), b: seq<byte>)
    requires key !in v && w == v[key := b]
    ensures Added(v, w, key, |b|)
  {
  }

  lemma SplitOfSorted(u: Umv, c: Chance, i: nat, pid: int, size: int)
    requires Valid(u) && Admissible(u, c, pid, size)
    requires i < |c.order| && c.order[i].pid <= 0 && c.order[i].size >= size
    ensures var v := SplitAt(u, c.order, i, pid, size, c.virt);
      Valid(v) && Added(View(u), View(v), (pid, c.virt), size)
  {
    hide Pairwise, AllWellFormed, View, Size, Valid;
    FreshIff(u, pid, c.virt);
    ReorderingIsInvisible(u, c.order);
    var o := u.(list := c.order);
    SplitAddsOne(o, i, pid, size, c.virt);
    AddedBy(View(u), View(SplitAt(o, c.order, i, pid, size, c.virt)), (pid, c.virt),
            u.mem[c.order[i].addr..c.order[i].addr + size]);
  }

  lemma RoomOfReordering(a: seq<Segment>, b: seq<Segment>, size: int)
    requires forall s :: s in a <==> s in b
    ensures SomeHoleFits(a, size) <==> SomeHoleFits(b, size)
  {
    if SomeHoleFits(a, size) {
      var i :| 0 <= i < |a| && HasRoom(a[i], size);
      assert a[i] in b;
    }
    if SomeHoleFits(b, size) {
      var i :| 0 <= i < |b| && HasRoom(b[i], size);
      assert b[i] in a;
    }
  }

  /** `t` is the hole of lowest address among those with room. */
  ghost predicate LowestWithRoom(list: seq<Segment>, t: Segment, size: int) {
    && t in list && HasRoom(t, size)
    && forall s :: s in list && HasRoom(s, size) ==> t.addr <= s.addr
  }

  /** `t` is the hole of lowest address among the largest. */
  ghost predicate LowestOfLargest(list: seq<Segment>, t: Segment) {
    && t in list && t.pid <= 0
    && forall s :: s in list && s.pid <= 0 ==> s.size < t.size || (s.size == t.size && t.addr <= s.addr)
  }

  lemma AgainstFirst(order: seq<Segment>, size: int, s: Segment)
    requires Ascending(order) && s in order && HasRoom(s, size)
    ensures FirstHole(order, size) < |order| && order[FirstHole(order, size)].addr <= s.addr
  {
    hide FirstHole;
    var j :| 0 <= j < |order| && order[j] == s;
  }

  lemma FirstHoleIsLowest(u: Umv, order: seq<Segment>, size: int)
    requires Valid(u) && IsSorting(u.list, order)
    ensures FirstHole(order, size) < |order| <==> SomeHoleFits(u.list, size)
    ensures SomeHoleFits(u.list, size) ==> LowestWithRoom(u.list, order[FirstHole(order, size)], size)
  {
    ReorderingIsInvisible(u, order);
    RoomOfReordering(u.list, order, size);
    hide Valid, View, Used;
    forall s | s in u.list && HasRoom(s, size)
      ensures FirstHole(order, size) < |order| && order[FirstHole(order, size)].addr <= s.addr
    {
      assert s in order;
      AgainstFirst(order, size, s);
    }
    hide FirstHole;
    if FirstHole(order, size) < |order| {
      assert HasRoom(order[FirstHole(order, size)], size);
    }
  }

  /** First-fit splits the hole of lowest address among those with room, and
      the new segment is one more byte array in the view; when no hole has room
      it only sorts the list. */
  lemma FirstFitOutcome(u: Umv, c: Chance, pid: int, size: int)
    requires Valid(u) && Admissible(u, c, pid, size) && u.list != []
    ensures SomeHoleFits(u.list, size) ==>
      var i, (v, r) := FirstHole(c.order, size), FirstFit(u, c, pid, size);
      && i < |c.order| && LowestWithRoom(u.list, c.order[i], size)
      && v == SplitAt(u, c.order, i, pid, size, c.virt) && r == c.virt
      && Valid(v) && Added(View(u), View(v), (pid, c.virt), size)
    ensures !SomeHoleFits(u.list, size) ==>
      FirstFit(u, c, pid, size) == (u.(list := c.order), c.unset)
  {
    ReorderingIsInvisible(u, c.order);
    FirstHoleIsLowest(u, c.order, size);
    if SomeHoleFits(u.list, size) {
      SplitOfSorted(u, c, FirstHole(c.order, size), pid, size);
    }
  }

  lemma AgainstWorst(order: seq<Segment>, h: Segment, s: Segment)
    requires Ascending(order) && h in order && h.pid <= 0 && h.size > 0 && s in order && s.pid <= 0
    ensures WorstHole(order) >= 0
    ensures var t := order[WorstHole(order)];
      t in order && t.pid <= 0 && (s.size < t.size || (s.size == t.size && t.addr <= s.addr))
  {
    hide WorstHole;
    var i :| 0 <= i < |order| && order[i] == h;
    var j :| 0 <= j < |order| && order[j] == s;
  }

  lemma WorstHoleIsLargest(u: Umv, order: seq<Segment>, h: Segment)
    requires Valid(u) && IsSorting(u.list, order)
    requires h in u.list && h.pid <= 0 && h.size > 0
    ensures WorstHole(order) >= 0 && LowestOfLargest(u.list, order[WorstHole(order)])
  {
    ReorderingIsInvisible(u, order);
    hide Valid, View, Used;
    assert h in order;
    forall s | s in u.list && s.pid <= 0
      ensures WorstHole(order) >= 0 && var t := order[WorstHole(order)];
        s.size < t.size || (s.size == t.size && t.addr <= s.addr)
    {
      assert s in order;
      AgainstWorst(order, h, s);
    }
    AgainstWorst(order, h, h);
    hide WorstHole, IsSorting;
  }

  lemma LargestHasRoomIff(u: Umv, order: seq<Segment>, h: Segment, size: int)
    requires Valid(u) && IsSorting(u.list, order)
    requires h in u.list && h.pid <= 0 && h.size > 0
    ensures WorstHole(order) >= 0
    ensures order[WorstHole(order)].size >= size <==> SomeHoleFits(u.list, size)
  {
    WorstHoleIsLargest(u, order, h);
    var t := order[WorstHole(order)];
    if t.size >= size {
      var k :| 0 <= k < |u.list| && u.list[k] == t;
      assert HasRoom(u.list[k], size);
    }
    if SomeHoleFits(u.list, size) {
      var k :| 0 <= k < |u.list| && HasRoom(u.list[k], size);
      assert u.list[k] in u.list;
    }
  }

  /** Worst-fit splits the hole of lowest address among the largest and never
      compares it with the request: it keeps the list consistent, and adds one
      byte array to the view, if and only if some hole has room. */
  lemma WorstFitOutcome(u: Umv, c: Chance, pid: int, size: int, h: Segment)
    requires Valid(u) && Admissible(u, c, pid, size)
    requires h in u.list && h.pid <= 0 && h.size > 0
    ensures var i, (v, r) := WorstHole(c.order), WorstFit(u, c, pid, size);
      && i >= 0 && LowestOfLargest(u.list, c.order[i])
      && v == SplitAt(u, c.order, i, pid, size, c.virt) && r == c.virt
      && (Valid(v) <==> SomeHoleFits(u.list, size))
      && (Valid(v) ==> Added(View(u), View(v), (pid, c.virt), size))
  {
    hide SplitAt, Valid, SomeHoleFits, LowestOfLargest, IsSorting, View, Added;
    WorstHoleIsLargest(u, c.order, h);
    LargestHasRoomIff(u, c.order, h, size);
    var i := WorstHole(c.order);
    assert c.order != [];
    if c.order[i].size >= size {
      SplitOfSorted(u, c, i, pid, size);
    } else {
      SplitTooSmall(u, c.order, i, pid, size, c.virt);
    }
  }

  /** A consistent list whose live entries leave room has a positive hole. */
  lemma {:induction false} FreeMeansHole(list: seq<Segment>) returns (k: nat)
    requires forall i :: 0 <= i < |list| ==> list[i].size >= 0 && (list[i].pid == -1 || list[i].pid > 0)
    requires Used(list) < Size(list)
    ensures k < |list| && list[k].pid == -1 && list[k].size > 0
  {
    var rest := list[1..];
    SizeConcat(if list[0].Live() then [list[0]] else [], Live(rest));
    if !list[0].Live() && list[0].size > 0 {
      k := 0;
    } else {
      var j := FreeMeansHole(rest);
      k := j + 1;
    }
  }

  /** The hole a fit needs when the bytes in use leave room. */
  lemma RoomMeansHole(u: Umv, size: int) returns (h: Segment)
    requires Valid(u) && u.list != [] && size > 0 && Used(u.list) + size <= |u.mem|
    ensures h in u.list && h.pid == -1 && h.size > 0
  {
    assert forall i :: 0 <= i < |u.list| ==> WellFormed(u.list[i], |u.mem|, u.nextId);
    var k := FreeMeansHole(u.list);
    h := u.list[k];
  }
}
