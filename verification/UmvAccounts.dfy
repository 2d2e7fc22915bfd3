/** How many bytes are in use after a request: as many more as were granted. */
module UmvAccounts {
  import opened Segments
  import opened Compaction
  import opened Placement
  import opened UmvRuns

  lemma UsedConcat(a: seq<Segment>, b: seq<Segment>)
    ensures Used(a + b) == Used(a) + Used(b)
  {
    LiveConcat(a, b);
    SizeConcat(Live(a), Live(b));
  }

  lemma UsedOne(s: Segment)
    ensures Used([s]) == if s.Live() then s.size else 0
  {
    LiveHead([s]);
    var none := [s][1..];
    assert none == [] && Live(none) == [] && Size(none) == 0;
    assert Live([s]) == (if s.Live() then [s] else []) + Live(none);
    assert Size([s]) == s.size + Size(none);
  }

  /** Splitting a hole uses as many bytes as the segment has. */
  lemma SplitUses(order: seq<Segment>, i: nat, pid: int, size: int, virt: int, id: int)
    requires i < |order| && order[i].pid == -1 && pid > 0
    ensures Used(Split(order, i, pid, size, virt, id)) == Used(order) + size
  {
    hide Used;
    var f, r := Front(order[i], pid, size, virt, id), Rest(order[i], size);
    assert order == order[..i] + ([order[i]] + order[i + 1..]);
    UsedConcat(order[..i], [order[i]] + order[i + 1..]);
    UsedConcat([order[i]], order[i + 1..]);
    UsedConcat(order[..i], order[i + 1..]);
    UsedConcat(Without(order, i) + [f], [r]);
    UsedConcat(Without(order, i), [f]);
    UsedOne(order[i]);
    UsedOne(f);
    UsedOne(r);
  }

  lemma FirstPairUses(u: Umv, pid: int, size: int, virt: int)
    requires pid > 0
    ensures Used(FirstPair(u, pid, size, virt).list) == size
  {
    var a, b := Segment(u.nextId, pid, virt, size, 0), Segment(u.nextId + 1, -1, 0, |u.mem| - size, size);
    UsedConcat([a], [b]);
    UsedOne(a);
    UsedOne(b);
    assert [a] + [b] == [a, b];
  }

  lemma HolesAreUnowned(u: Umv, i: nat)
    requires Valid(u) && i < |u.list| && u.list[i].pid <= 0
    ensures u.list[i].pid == -1
  {
    assert WellFormed(u.list[i], |u.mem|, u.nextId);
  }

  lemma SortedSplitUses(u: Umv, c: Chance, i: nat, pid: int, size: int)
    requires Valid(u) && Admissible(u, c, pid, size) && i < |c.order| && c.order[i].pid <= 0
    ensures Used(SplitAt(u, c.order, i, pid, size, c.virt).list) == Used(u.list) + size
  {
    hide Valid, View, Used, Split;
    ReorderingIsInvisible(u, c.order);
    HolesAreUnowned(u.(list := c.order), i);
    SplitUses(c.order, i, pid, size, c.virt, u.nextId + 1);
  }

  lemma AttemptUses(u: Umv, c: Chance, pid: int, size: int)
    requires Valid(u) && Admissible(u, c, pid, size) && Used(u.list) + size <= |u.mem|
    requires u.list == [] || SomeHoleFits(u.list, size)
    ensures var v := Create(u, c, pid, size).0;
      Used(v.list) == Used(u.list) + size && |v.mem| == |u.mem|
  {
    hide Valid, View, Used, SplitAt, Added, FirstHole, WorstHole;
    ReorderingIsInvisible(u, c.order);
    if u.list == [] {
      FirstPairUses(u, pid, size, c.virt);
      UsedNone();
    } else if u.firstFit {
      FirstFitOutcome(u, c, pid, size);
      SortedSplitUses(u, c, FirstHole(c.order, size), pid, size);
      SplitKeepsMemory(u, c.order, FirstHole(c.order, size), pid, size, c.virt);
    } else {
      var h := RoomMeansHole(u, size);
      WorstFitOutcome(u, c, pid, size, h);
      SortedSplitUses(u, c, WorstHole(c.order), pid, size);
      SplitKeepsMemory(u, c.order, WorstHole(c.order), pid, size, c.virt);
    }
  }

  lemma SplitKeepsMemory(u: Umv, order: seq<Segment>, i: nat, pid: int, size: int, virt: int)
    requires i < |order|
    ensures SplitAt(u, order, i, pid, size, virt).mem == u.mem
  {
  }

  lemma UsedNone()
    ensures Used([]) == 0
  {
  }

  /** A request uses its size if it is granted and nothing if it is refused. */
  lemma RequestUses(u: Umv, c: Chance, d: Chance, pid: int, size: int)
    requires Valid(u) && size > 0 && LegalRequest(u, c, d, pid, size)
    ensures var (v, reply) := Requested(u, pid, size, c, d);
      && |v.mem| == |u.mem|
      && Used(v.list) == Used(u.list) + (if reply == NotCreated then 0 else size)
  {
    hide Valid, View, Create, Compacted, SafeToCompact, Admissible, SomeHoleFits, Added, Used;
    RefusedIffFull(u, c, d, pid, size);
    if Used(u.list) + size > |u.mem| {
      FullRequest(u, c, d, pid, size);
      CompactedIsValid(u);
    } else if u.list != [] && u.firstFit && !SomeHoleFits(u.list, size) {
      FragmentedAttempt(u, c, pid, size);
      var v := u.(list := c.order);
      FragmentedUses(u, c, pid, size);
      AttemptUses(Compacted(v), d, pid, size);
    } else {
      AttemptSucceeds(u, c, pid, size);
      AttemptUses(u, c, pid, size);
      NonNegativeDraw(u, c, pid, size);
    }
  }

  lemma FragmentedUses(u: Umv, c: Chance, pid: int, size: int)
    requires Valid(u) && Admissible(u, c, pid, size)
    ensures Used(Compacted(u.(list := c.order)).list) == Used(u.list)
  {
    hide View, Used, Compacted;
    ReorderingIsInvisible(u, c.order);
    SortedIsSafe(u.(list := c.order));
    CompactedIsValid(u.(list := c.order));
  }
}
