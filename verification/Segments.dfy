/** The segment list of the UMV as a value: what the entries mean, when a list
    is consistent, and the map of independent byte arrays it stands for. */
module Segments {
  import opened Bytes

  /** One list entry. `pid` is -1 for a hole; `addr` counts from the start of
      the managed memory. */
  datatype Segment = Segment(id: int, pid: int, virt: int, size: int, addr: int) {
    predicate Live() { pid != -1 }

    function End(): int { addr + size }

    function Key(): (int, int) { (pid, virt) }

    predicate Inside(total: int) {
      0 <= size && 0 <= addr && addr + size <= total
    }
  }

  /** The whole memory manager. The managed memory has |mem| bytes. */
  datatype Umv = Umv(mem: seq<byte>, list: seq<Segment>, nextId: int, firstFit: bool)

  predicate Apart(s: Segment, t: Segment) {
    s.addr + s.size <= t.addr || t.addr + t.size <= s.addr
  }

  /** What any two entries of a consistent list owe each other. */
  predicate Compatible(s: Segment, t: Segment) {
    && s.id != t.id
    && Apart(s, t)
    && (s.Live() && t.Live() ==> s.Key() != t.Key())
  }

  ghost predicate Pairwise(list: seq<Segment>) {
    forall i, j :: 0 <= i < j < |list| ==> Compatible(list[i], list[j])
  }

  predicate WellFormed(s: Segment, total: int, nextId: int) {
    && s.Inside(total)
    && s.id <= nextId
    && (s.pid == -1 || (s.pid > 0 && s.size > 0))
  }

  ghost predicate AllWellFormed(list: seq<Segment>, total: int, nextId: int) {
    forall i :: 0 <= i < |list| ==> WellFormed(list[i], total, nextId)
  }

  function Size(list: seq<Segment>): int {
    if list == [] then 0 else list[0].size + Size(list[1..])
  }

  /** The live entries, in list order. */
  function Live(list: seq<Segment>): seq<Segment> {
    if list == [] then []
    else (if list[0].Live() then [list[0]] else []) + Live(list[1..])
  }

  function Used(list: seq<Segment>): int {
    Size(Live(list))
  }

  /** The list entries are disjoint ranges of the memory that together cover
      it; before the first creation the list is empty. */
  ghost predicate Valid(u: Umv) {
    && Pairwise(u.list)
    && AllWellFormed(u.list, |u.mem|, u.nextId)
    && (u.list == [] || Size(u.list) == |u.mem|)
  }

  function Slice(mem: seq<byte>, s: Segment): seq<byte>
    requires s.Inside(|mem|)
  {
    mem[s.addr..s.addr + s.size]
  }

  /** What the memory manager stands for: one byte array for each owner and
      virtual address. Real addresses do not appear in it. */
  ghost function View(u: Umv): map<(int, int), seq<byte>>
    requires Valid(u)
  {
    map s | s in u.list && s.Live() :: s.Key() := Slice(u.mem, s)
  }

  /** `order` is an answer the library sort may give for `list`. */
  ghost predicate IsSorting(list: seq<Segment>, order: seq<Segment>) {
    && multiset(order) == multiset(list)
    && Ascending(order)
  }

  ghost predicate Ascending(list: seq<Segment>) {
    forall i, j :: 0 <= i < j < |list| ==> list[i].addr <= list[j].addr
  }

  // ---- sums, filters and reorderings ----

  lemma {:induction false} SizeConcat(a: seq<Segment>, b: seq<Segment>)
    ensures Size(a + b) == Size(a) + Size(b)
  {
    if a == [] {
      assert a + b == b;
    } else {
      assert (a + b)[1..] == a[1..] + b;
      SizeConcat(a[1..], b);
    }
  }

  lemma Regroup(a: seq<Segment>, b: seq<Segment>, c: seq<Segment>)
    ensures a + (b + c) == a + b + c
  {
  }

  lemma LiveHead(list: seq<Segment>)
    requires list != []
    ensures Live(list) == (if list[0].Live() then [list[0]] else []) + Live(list[1..])
  {
  }

  lemma {:induction false} LiveConcat(a: seq<Segment>, b: seq<Segment>)
    ensures Live(a + b) == Live(a) + Live(b)
  {
    if a == [] {
      assert a + b == b;
    } else {
      LiveHead(a);
      LiveHead(a + b);
      hide Live;
      assert (a + b)[1..] == a[1..] + b;
      LiveConcat(a[1..], b);
      Regroup(if a[0].Live() then [a[0]] else [], Live(a[1..]), Live(b));
    }
  }

  lemma WithoutFirst(a: seq<Segment>, b: seq<Segment>) returns (k: nat)
    requires a != [] && multiset(a) == multiset(b)
    ensures k < |b| && b[k] == a[0]
    ensures multiset(a[1..]) == multiset(b[..k] + b[k + 1..])
  {
    assert a[0] in multiset(b);
    k :| 0 <= k < |b| && b[k] == a[0];
    assert a == [a[0]] + a[1..];
    assert b == b[..k] + [b[k]] + b[k + 1..];
    assert multiset(a[1..]) == multiset(a) - multiset{a[0]};
    assert multiset(b[..k] + b[k + 1..]) == multiset(b) - multiset{b[k]};
  }

  /** The sum of the sizes does not depend on the order of the list. */
  lemma {:induction false} SizeOfReordering(a: seq<Segment>, b: seq<Segment>)
    requires multiset(a) == multiset(b)
    ensures Size(a) == Size(b)
  {
    if a == [] {
      assert b == [] by { assert |multiset(b)| == |b|; }
    } else {
      var k := WithoutFirst(a, b);
      var rest := b[..k] + b[k + 1..];
      assert b == b[..k] + [b[k]] + b[k + 1..];
      SizeOfReordering(a[1..], rest);
      SizeConcat(b[..k], b[k + 1..]);
      SizeConcat(b[..k] + [b[k]], b[k + 1..]);
      SizeConcat(b[..k], [b[k]]);
    }
  }

  lemma {:induction false} InLive(list: seq<Segment>, s: Segment)
    ensures s in Live(list) <==> s in list && s.Live()
  {
    if list != [] {
      assert list == [list[0]] + list[1..];
      InLive(list[1..], s);
    }
  }

  /** Where a live entry stands in the full list. */
  lemma AtInList(list: seq<Segment>, k: nat) returns (j: nat)
    requires k < |Live(list)|
    ensures j < |list| && list[j] == Live(list)[k] && list[j].Live()
  {
    InLive(list, Live(list)[k]);
    j :| 0 <= j < |list| && list[j] == Live(list)[k];
  }

  lemma {:induction false} LivePairwise(list: seq<Segment>)
    requires Pairwise(list)
    ensures Pairwise(Live(list))
  {
    if list != [] {
      var head, tail := list[0], Live(list[1..]);
      LivePairwise(list[1..]);
      if head.Live() {
        forall k | 0 <= k < |tail| ensures Compatible(head, tail[k]) {
          var j := AtInList(list[1..], k);
          assert tail[k] == list[j + 1];
        }
        assert Live(list) == [head] + tail;
      } else {
        assert Live(list) == tail;
      }
    }
  }

  lemma {:induction false} LiveAscending(list: seq<Segment>)
    requires Ascending(list)
    ensures Ascending(Live(list))
  {
    if list != [] {
      var head, tail := list[0], Live(list[1..]);
      LiveAscending(list[1..]);
      if head.Live() {
        forall k | 0 <= k < |tail| ensures head.addr <= tail[k].addr {
          var j := AtInList(list[1..], k);
          assert tail[k] == list[j + 1];
        }
        assert Live(list) == [head] + tail;
      } else {
        assert Live(list) == tail;
      }
    }
  }

  /** Dropping the holes keeps consistency. */
  lemma LiveInherits(list: seq<Segment>, total: int, nextId: int)
    requires Pairwise(list) && AllWellFormed(list, total, nextId)
    ensures Pairwise(Live(list)) && AllWellFormed(Live(list), total, nextId)
  {
    LivePairwise(list);
    forall k | 0 <= k < |Live(list)| ensures WellFormed(Live(list)[k], total, nextId) {
      var j := AtInList(list, k);
    }
  }

  lemma {:induction false} UsedAtMostSize(list: seq<Segment>)
    requires forall i :: 0 <= i < |list| ==> list[i].size >= 0
    ensures 0 <= Used(list) <= Size(list)
  {
    if list != [] {
      UsedAtMostSize(list[1..]);
      SizeConcat(if list[0].Live() then [list[0]] else [], Live(list[1..]));
    }
  }

  lemma {:induction false} AtMostOnce(list: seq<Segment>, s: Segment)
    requires Pairwise(list)
    ensures multiset(list)[s] <= 1
  {
    if list != [] {
      assert list == [list[0]] + list[1..];
      AtMostOnce(list[1..], s);
      assert list[0] !in list[1..] by {
        forall k | 0 <= k < |list[1..]| ensures list[1..][k] != list[0] {
          assert Compatible(list[0], list[k + 1]);
        }
      }
    }
  }

  /** Consistency of a list does not depend on its order. */
  lemma PairwiseOfReordering(a: seq<Segment>, b: seq<Segment>)
    requires Pairwise(a) && multiset(a) == multiset(b)
    ensures Pairwise(b)
  {
    forall i, j | 0 <= i < j < |b| ensures Compatible(b[i], b[j]) {
      assert b[i] in multiset(a) && b[j] in multiset(a);
      var p :| 0 <= p < |a| && a[p] == b[i];
      var q :| 0 <= q < |a| && a[q] == b[j];
      if p == q {
        assert b == b[..i] + [b[i]] + b[i + 1..];
        assert b[j] == b[i + 1..][j - i - 1];
        assert multiset(b)[b[i]] >= 2;
        AtMostOnce(a, b[i]);
        assert false;
      }
    }
  }

  /** Sorting the list is invisible: same consistency, same byte arrays. */
  lemma ReorderingIsInvisible(u: Umv, order: seq<Segment>)
    requires Valid(u) && multiset(order) == multiset(u.list)
    ensures Valid(u.(list := order)) && View(u.(list := order)) == View(u)
    ensures |order| == |u.list| && Used(order) == Used(u.list)
    ensures forall s :: s in order <==> s in u.list
  {
    assert |multiset(order)| == |order| && |multiset(u.list)| == |u.list|;
    assert forall s :: s in order <==> s in multiset(order);
    assert forall s :: s in u.list <==> s in multiset(u.list);
    PairwiseOfReordering(u.list, order);
    SizeOfReordering(order, u.list);
    forall i | 0 <= i < |order| ensures WellFormed(order[i], |u.mem|, u.nextId) {
      assert order[i] in u.list;
    }
    LiveOfReordering(order, u.list);
    SizeOfReordering(Live(order), Live(u.list));
    ViewDependsOnMembers(u, order);
  }

  lemma ViewDependsOnMembers(u: Umv, order: seq<Segment>)
    requires Valid(u) && Valid(u.(list := order))
    requires forall s :: s in order <==> s in u.list
    ensures View(u.(list := order)) == View(u)
  {
  }

  lemma {:induction false} LiveOfReordering(a: seq<Segment>, b: seq<Segment>)
    requires multiset(a) == multiset(b)
    ensures multiset(Live(a)) == multiset(Live(b))
  {
    if a == [] {
      assert b == [] by { assert |multiset(b)| == |b|; }
    } else {
      var k := WithoutFirst(a, b);
      var rest := b[..k] + b[k + 1..];
      assert b == b[..k] + [b[k]] + b[k + 1..];
      LiveOfReordering(a[1..], rest);
      LiveConcat(b[..k], b[k + 1..]);
      LiveConcat(b[..k] + [b[k]], b[k + 1..]);
      LiveConcat(b[..k], [b[k]]);
    }
  }
}
