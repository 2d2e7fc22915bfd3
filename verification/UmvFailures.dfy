/** Concrete inputs on which the memory manager does not look like a map of
    independent byte arrays, each shut out by a condition of module UmvRuns. */
module UmvFailures {
  import opened Segments
  import opened Compaction
  import opened Placement
  import opened UmvRuns

  /** A memory of four bytes after four messages: process 1 gets a byte, then
      process 2, process 1 is destroyed, and process 3 gets the freed byte. The
      last fit appended its entries, so the list is no longer in address order. */
  function Start(): Umv { Umv([9, 7, 0, 0], [], 0, true) }

  function AfterOne(): Umv {
    Umv([9, 7, 0, 0], [Segment(0, 1, 10, 1, 0), Segment(1, -1, 0, 3, 1)], 1, true)
  }

  function AfterTwo(): Umv {
    Umv([9, 7, 0, 0], [Segment(0, 1, 10, 1, 0), Segment(2, 2, 20, 1, 1), Segment(1, -1, 0, 2, 2)], 2, true)
  }

  function AfterFree(): Umv {
    Umv([9, 7, 0, 0], [Segment(0, -1, 10, 1, 0), Segment(2, 2, 20, 1, 1), Segment(1, -1, 0, 2, 2)], 2, true)
  }

  function AfterThree(): Umv {
    Umv([9, 7, 0, 0],
        [Segment(2, 2, 20, 1, 1), Segment(1, -1, 0, 2, 2), Segment(3, 3, 30, 1, 0), Segment(0, -1, 10, 0, 1)],
        3, true)
  }

  function Ask(u: Umv, pid: int, size: int): Op {
    Request(pid, size, Chance(u.list, 10 * pid, -1), Chance(u.list, 10 * pid, -1))
  }

  lemma FirstCreation()
    ensures Step(Start(), Ask(Start(), 1, 1)) == (AfterOne(), Address(10))
  {
    assert Used(Start().list) == 0;
  }

  lemma UsedOfOne()
    ensures Used(AfterOne().list) == 1 && Used(AfterTwo().list) == 2 && Used(AfterFree().list) == 1
  {
    var a, b := AfterOne().list, AfterTwo().list;
    assert a[1..] == [a[1]] && a[1..][1..] == [];
    assert Live(a) == [a[0]];
    assert b[1..] == [b[1], b[2]] && b[1..][1..] == [b[2]] && b[1..][1..][1..] == [];
    assert Live(b) == [b[0], b[1]];
    assert Live(b)[1..] == [b[1]];
    var c := AfterFree().list;
    assert c[1..] == [c[1], c[2]] && c[1..][1..] == [c[2]] && c[1..][1..][1..] == [];
    assert Live(c) == [c[1]];
  }

  lemma HolesTaken()
    ensures FirstHole(AfterOne().list, 1) == 1 && FirstHole(AfterFree().list, 1) == 0
  {
    hide FirstHole;
    var l, m := AfterOne().list, AfterFree().list;
    assert l[0].pid > 0 && l[1].pid <= 0 && l[1].size >= 1;
    assert m[0].pid <= 0 && m[0].size >= 1;
  }

  lemma SplitOfOne()
    ensures SplitAt(AfterOne(), AfterOne().list, 1, 2, 1, 20) == AfterTwo()
  {
    assert Without(AfterOne().list, 1) == [AfterOne().list[0]];
  }

  lemma SecondCreation()
    ensures Step(AfterOne(), Ask(AfterOne(), 2, 1)) == (AfterTwo(), Address(20))
  {
    hide FirstHole, SplitAt, Used, Compacted, WorstFit;
    SplitOfOne();
    UsedOfOne();
    HolesTaken();
  }

  lemma SplitOfFree()
    ensures SplitAt(AfterFree(), AfterFree().list, 0, 3, 1, 30) == AfterThree()
  {
    assert Without(AfterFree().list, 0) == [AfterFree().list[1], AfterFree().list[2]];
  }

  lemma ThirdCreation()
    ensures Step(AfterTwo(), Destroy(1)) == (AfterFree(), Silent)
    ensures Step(AfterFree(), Ask(AfterFree(), 3, 1)) == (AfterThree(), Address(30))
  {
    hide FirstHole, SplitAt, Used, Compacted, WorstFit;
    SplitOfFree();
    UsedOfOne();
    HolesTaken();
    assert FreedList(AfterTwo().list, 1) == AfterFree().list;
  }

  function Packed(): seq<Segment> { [Segment(2, 2, 20, 1, 0), Segment(3, 3, 30, 1, 0)] }

  lemma LiveOfThree()
    ensures Live(AfterThree().list) == [Segment(2, 2, 20, 1, 1), Segment(3, 3, 30, 1, 0)]
    ensures Live(Packed()) == Packed() && Size(Packed()) == 2
  {
    var l, p := AfterThree().list, Packed();
    assert l[1..] == [l[1], l[2], l[3]] && l[1..][1..] == [l[2], l[3]];
    assert l[1..][1..][1..] == [l[3]] && l[1..][1..][1..][1..] == [];
    assert p[1..] == [p[1]] && p[1..][1..] == [];
  }

  lemma PackOfThree()
    ensures var live := [Segment(2, 2, 20, 1, 1), Segment(3, 3, 30, 1, 0)];
      && PackList(0, live) == Packed() && Size(live) == 2
      && PackMem([9, 7, 0, 0], 0, live) == [7, 7, 0, 0]
      && !SafeFrom(0, live)
  {
    var live := [Segment(2, 2, 20, 1, 1), Segment(3, 3, 30, 1, 0)];
    assert live[1..] == [live[1]] && live[1..][1..] == [];
    assert LoweredMem([9, 7, 0, 0], 0, live[0]) == [7, 7, 0, 0];
    assert LoweredMem([7, 7, 0, 0], 1, live[1]) == [7, 7, 0, 0];
  }

  /** Refusing a request that is too large compacts that unsorted list: process
      3 then reads the byte of process 2 in place of its own. */
  lemma RefusalLosesBytes()
    ensures !SafeToCompact(AfterThree().list)
    ensures Requested(AfterThree(), 4, 10, Chance([], 40, -1), Chance([], 40, -1)) ==
      (Umv([7, 7, 0, 0], Packed() + [Hole(4, 2, 1)], 4, true), NotCreated)
    ensures AfterThree().list[2] == Segment(3, 3, 30, 1, 0) && Packed()[1] == AfterThree().list[2]
    ensures Slice(AfterThree().mem, AfterThree().list[2]) == [9]
    ensures Slice([7, 7, 0, 0], Packed()[1]) == [7]
  {
    LiveOfThree();
    PackOfThree();
    var c := Compacted(AfterThree());
    assert c == Umv([7, 7, 0, 0], Packed() + [Hole(4, 2, 1)], 4, true);
    LiveConcat(Packed(), [Hole(4, 2, 1)]);
    assert Live([Hole(4, 2, 1)]) == [];
    assert Live(c.list) == Packed();
  }

  // ---- worst-fit ----

  function UnderWorst(): Umv { AfterFree().(firstFit := false) }

  /** Process 3 takes the first byte of the largest hole. */
  function AfterWorst(): Umv {
    Umv([9, 7, 0, 0],
        [Segment(0, -1, 10, 1, 0), Segment(2, 2, 20, 1, 1), Segment(3, 3, 30, 1, 2), Segment(1, -1, 0, 1, 3)],
        3, false)
  }

  function Overlapping(): Umv {
    Umv([9, 7, 0, 0],
        [Segment(2, 2, 20, 1, 1), Segment(3, 3, 30, 1, 2), Segment(1, -1, 0, 1, 3), Segment(4, 6, 60, 2, 0),
         Segment(0, -1, 10, -1, 2)],
        4, false)
  }

  lemma LargestTaken()
    ensures WorstHole(UnderWorst().list) == 2 && WorstHole(AfterWorst().list) == 0
  {
    hide WorstHole;
    var l, m := UnderWorst().list, AfterWorst().list;
    assert l[0].size == 1 && l[1].pid > 0 && l[2].pid <= 0 && l[2].size == 2;
    assert m[0].pid <= 0 && m[0].size == 1 && m[1].pid > 0 && m[2].pid > 0 && m[3].size == 1;
  }

  lemma UsedOfWorst()
    ensures Used(UnderWorst().list) == 1 && Used(AfterWorst().list) == 2
  {
    UsedOfOne();
    var l := AfterWorst().list;
    assert l[1..] == [l[1], l[2], l[3]] && l[1..][1..] == [l[2], l[3]];
    assert l[1..][1..][1..] == [l[3]] && l[1..][1..][1..][1..] == [];
    assert Live(l) == [l[1], l[2]];
    assert Live(l)[1..] == [l[2]];
  }

  lemma SplitOfUnderWorst()
    ensures SplitAt(UnderWorst(), UnderWorst().list, 2, 3, 1, 30) == AfterWorst()
  {
    assert Without(UnderWorst().list, 2) == [UnderWorst().list[0], UnderWorst().list[1]];
  }

  lemma WorstFitTaken()
    ensures Step(AfterFree(), Algorithm(false)) == (UnderWorst(), Silent)
    ensures Step(UnderWorst(), Ask(UnderWorst(), 3, 1)) == (AfterWorst(), Address(30))
  {
    hide WorstHole, SplitAt, Used, Compacted, FirstFit;
    SplitOfUnderWorst();
    UsedOfWorst();
    LargestTaken();
  }

  lemma SplitOfAfterWorst()
    ensures SplitAt(AfterWorst(), AfterWorst().list, 0, 6, 2, 60) == Overlapping()
  {
    assert Without(AfterWorst().list, 0) == [AfterWorst().list[1], AfterWorst().list[2], AfterWorst().list[3]];
  }

  /** The largest hole has one byte; a request of two is served from it, and the
      new segment covers the byte of process 2. */
  lemma WorstFitOverlaps()
    ensures Step(AfterWorst(), Ask(AfterWorst(), 6, 2)) == (Overlapping(), Address(60))
    ensures !SomeHoleFits(AfterWorst().list, 2) && !Apart(Overlapping().list[0], Overlapping().list[3])
  {
    hide WorstHole, SplitAt, Used, Compacted, FirstFit;
    SplitOfAfterWorst();
    UsedOfWorst();
    LargestTaken();
  }

  // ---- the unset address, and a number drawn twice ----

  /** Three bytes are free in two holes. First-fit leaves the address unset; if it
      happens to be 5, process 4 is told 5 and has no segment. */
  lemma FragmentedNotServed()
    ensures Step(AfterFree(), Request(4, 3, Chance(AfterFree().list, 40, 5), Chance([], 40, 5))) == (AfterFree(), Address(5))
    ensures Used(AfterFree().list) + 3 <= |AfterFree().mem|
    ensures forall s :: s in AfterFree().list ==> s.pid != 4
  {
    UsedOfOne();
    assert FirstHole(AfterFree().list, 3) == 3 by {
      hide FirstHole;
      var l := AfterFree().list;
      assert l[0].size < 3 && l[1].pid > 0 && l[2].size < 3;
    }
    hide FirstHole, SplitAt, Used, Compacted, WorstFit;
  }

  function DrawnTwice(): Umv {
    Umv([9, 7, 0, 0], [Segment(0, 1, 10, 1, 0), Segment(2, 1, 10, 1, 1), Segment(1, -1, 0, 2, 2)], 2, true)
  }

  lemma SplitAgain()
    ensures SplitAt(AfterOne(), AfterOne().list, 1, 1, 1, 10) == DrawnTwice()
  {
    assert Without(AfterOne().list, 1) == [AfterOne().list[0]];
  }

  lemma AskedAgain()
    ensures Step(AfterOne(), Request(1, 1, Chance(AfterOne().list, 10, -1), Chance([], 10, -1))) == (DrawnTwice(), Address(10))
  {
    hide FirstHole, SplitAt, Used, Compacted, WorstFit;
    SplitAgain();
    UsedOfOne();
    HolesTaken();
  }

  /** Process 1 asks again and the same number is drawn: both segments have one
      key, and a read or write finds the first. */
  lemma SecondSegmentHidden()
    ensures Step(AfterOne(), Request(1, 1, Chance(AfterOne().list, 10, -1), Chance([], 10, -1))) == (DrawnTwice(), Address(10))
    ensures DrawnTwice().list[0].Key() == DrawnTwice().list[1].Key() && Find(DrawnTwice().list, 10, 1) == 0
  {
    AskedAgain();
    hide Step;
  }
}
