/** Runs from the start in which the kernel does not do what it is meant to: each
    takes a step that the theorem it belongs to names. */
module SchedulerFailures {
  import opened Scheduler
  import opened SchedulerTraces
  import opened SchedulerRounds
  import opened SchedulerCounts
  import opened SchedulerCensus
  import opened SchedulerCpus

  // ---- the states between the threads' rounds ----

  /** A kernel with one semaphore in which only CPUs are at work. */
  function Calm(lastPid: nat, queued: seq<int>, degree: nat, ready: seq<Proc>, free: seq<int>, executing: seq<Node>,
                running: map<int, int>, value: int, blocked: seq<Proc>): Kernel
  {
    Kernel(lastPid, queued, [], 0, false, degree, Idle, ready, |ready|, Waiting, free, |free|, 0, executing, running, 0,
           [Semaphore(value, blocked)], [], [], 0, Asleep, [], false)
  }

  lemma Beginning(degree: nat)
    ensures Initial(degree, [0], 0) == Calm(0, [], degree, [], [], [], map[], 0, [])
  {
  }

  function Connecting(): seq<Event> { [Link(Connect(1)), Link(Connect(2))] }

  lemma TwoConnect(degree: nat)
    ensures Reaches(Initial(degree, [0], 0), Connecting(), Calm(0, [], degree, [], [1, 2], [], map[], 0, []))
  {
    var k := Calm(0, [], degree, [], [], [], map[], 0, []);
    Beginning(degree);
    var k1 := Step(k, Link(Connect(1)));
    Single(k1, Link(Connect(2)), Calm(0, [], degree, [], [1, 2], [], map[], 0, []));
    First(k, Link(Connect(1)), [Link(Connect(2))], Calm(0, [], degree, [], [1, 2], [], map[], 0, []));
    hide Step, Enabled, Reaches;
    assert [Link(Connect(1))] + [Link(Connect(2))] == Connecting();
  }

  // ---- pid 11 ----

  function Connected(): Kernel { Calm(0, [], 3, [], [1, 2], [], map[], 0, []) }

  function Refused(): Kernel { Calm(10, [], 3, [], [1, 2], [], map[], 0, []) }

  function OneRuns(): Kernel { Calm(11, [11], 2, [], [2], [Node(P(11), 1)], map[1 := 11], 0, []) }

  function BothRun(): Kernel {
    Calm(12, [11, 12], 1, [], [], [Node(P(11), 1), Node(P(12), 2)], map[1 := 11, 2 := 12], 0, [])
  }

  /** Program 12 blocked: the node left is its own, under pid 11. */
  function OneLeft(): Kernel {
    Calm(12, [11, 12], 1, [], [2], [Node(P(11), 2)], map[1 := 11], 0, [P(12)])
  }

  function Stale(): Kernel {
    Calm(13, [11, 12, 13], 0, [], [], [Node(P(11), 2), Node(P(13), 2)], map[1 := 11, 2 := 13], 0, [P(12)])
  }

  function Lost(): Kernel {
    Calm(13, [11, 12, 13], 0, [Proc(Pcb(13, 9), 0)], [2], [Node(P(13), 2)], map[1 := 11], 0, [P(12)])
  }

  lemma RefusedTen()
    ensures Reaches(Connected(), Refusals(10), Refused())
  {
    hide Reaches;
    Refusing(Connected(), 10);
  }

  lemma ElevenStarts()
    ensures Reaches(Refused(), Started(11), OneRuns())
  {
    hide Reaches;
    Starting(Refused());
    assert Refused().queued + [11] == OneRuns().queued && Refused().free[1..] == OneRuns().free;
    assert Refused().executing + [Node(P(11), 1)] == OneRuns().executing;
    assert Refused().running[1 := 11] == OneRuns().running;
  }

  lemma TwelveStarts()
    ensures Reaches(OneRuns(), Started(12), BothRun())
  {
    hide Reaches;
    Starting(OneRuns());
    assert OneRuns().queued + [12] == BothRun().queued && OneRuns().free[1..] == BothRun().free;
    assert OneRuns().running[2 := 12] == BothRun().running;
    assert OneRuns().executing + [Node(P(12), 2)] == BothRun().executing;
  }

  lemma BlocksBesideEleven()
    ensures Enabled(BothRun(), Serve(2, Wait(0, 9))) && !Clear(BothRun(), Serve(2, Wait(0, 9)))
    ensures Step(BothRun(), Serve(2, Wait(0, 9))) == OneLeft()
  {
    var k := BothRun();
    assert NodeOf(k.executing, 2) == 1 by {
      assert k.executing[0].cpu != 2 && k.executing[1].cpu == 2;
    }
    assert PidAt(k.executing, PROCESS_WAITING) == 0 by {
      assert k.executing[0].proc.pcb.pid == 11;
    }
    var nodes := k.executing[1 := Node(Proc(Pcb(PROCESS_WAITING, 0), 0), 2)];
    assert PidAt(nodes, PROCESS_WAITING) == 0 by {
      assert nodes[0].proc.pcb.pid == 11;
    }
    assert Without(nodes, 0) == [Node(P(11), 2)];
    assert k.running - {2} == map[1 := 11] && k.free + [2] == [2];
    assert Queueing(k, 1, 0) == Semaphore(0, [P(12)]) by { assert [] + [P(12)] == [P(12)]; }
    assert k.semaphores[0 := Queueing(k, 1, 0)] == OneLeft().semaphores;
    hide PidAt, NodeOf, Without;
  }

  lemma ThirteenStarts()
    ensures Reaches(OneLeft(), Started(13), Stale())
  {
    hide Reaches;
    Starting(OneLeft());
    assert OneLeft().queued + [13] == Stale().queued && OneLeft().free[1..] == Stale().free;
    assert OneLeft().running[2 := 13] == Stale().running;
    assert OneLeft().executing + [Node(P(13), 2)] == Stale().executing;
  }

  lemma HandsBackThroughEleven()
    ensures Enabled(Stale(), Serve(2, EndQuantum(9))) && !Trusted(Stale(), Serve(2, EndQuantum(9)))
    ensures Step(Stale(), Serve(2, EndQuantum(9))) == Lost()
  {
    var k := Stale();
    assert NodeOf(k.executing, 2) == 0 by {
      assert k.executing[0].cpu == 2;
    }
    var nodes := k.executing[0 := Node(Proc(Pcb(13, 9), 0), 2)];
    assert PidAt(nodes, 13) == 0 by {
      assert nodes[0].proc.pcb.pid == 13;
    }
    assert Without(nodes, 0) == [Node(P(13), 2)];
    assert k.running - {2} == map[1 := 11];
    hide PidAt, NodeOf, Without;
  }

  lemma CountOne(p: Proc, pid: int)
    ensures Count([p], pid) == One(p.pcb.pid == pid) && Count([], pid) == 0
  {
    assert [p][1..] == [];
  }

  lemma SumOne(q: seq<Proc>, pid: int)
    ensures Sum([q], pid) == Count(q, pid) && Sum([], pid) == 0
  {
    assert [q][1..] == [];
  }

  lemma CalmPlaces(k: Kernel, sem: Semaphore, pid: int)
    requires Quiet(k) && k.semaphores == [sem] && k.devices == []
    requires k.ended == [] && k.destroyer.Asleep? && k.destroyed == []
    ensures Places(k, pid) == Count(k.ready, pid) + Count(Procs(k.executing), pid) + Count(sem.blocked, pid)
  {
    assert Blockings(k.semaphores) == [sem.blocked] && AtDevices(k.devices) == [];
    SumOne(sem.blocked, pid);
    CountNone(pid);
    hide Count, Sum, Procs, Blockings, AtDevices;
  }

  lemma LostPlace(pid: int)
    ensures Places(Lost(), pid) == One(pid == 13) + One(pid == 13) + One(pid == 12)
  {
    hide Places, Count, Procs;
    assert Procs(Lost().executing) == [P(13)] by { ProcsOne(P(13), 2); }
    CalmPlaces(Lost(), Semaphore(0, [P(12)]), pid);
    CountOne(P(13), pid);
    CountOne(P(12), pid);
    CountOne(Proc(Pcb(13, 9), 0), pid);
  }

  lemma ProcsOne(p: Proc, cpu: int)
    ensures Procs([Node(p, cpu)]) == [p]
  {
  }

  /** Two CPUs connect, ten programs are refused, and programs 11 and 12 run. */
  function Prelude(): seq<Event> {
    Connecting() + Refusals(10) + Started(11) + Started(12)
  }

  lemma PreludeRuns()
    ensures Reaches(Initial(3, [0], 0), Prelude(), BothRun())
  {
    var k := Initial(3, [0], 0);
    TwoConnect(3);
    RefusedTen();
    ElevenStarts();
    TwelveStarts();
    assert Connected() == Calm(0, [], 3, [], [1, 2], [], map[], 0, []);
    hide Reaches, Started, Refusals, Connecting, Initial, Connected, Refused, OneRuns, BothRun, Calm;
    Chain(k, Connecting(), Connected(), Refusals(10), Refused());
    Chain(k, Connecting() + Refusals(10), Refused(), Started(11), OneRuns());
    Chain(k, Connecting() + Refusals(10) + Started(11), OneRuns(), Started(12), BothRun());
  }

  lemma TwoOwnersRun()
    ensures Reaches(Initial(3, [0], 0), Prelude() + [Serve(2, Wait(0, 9))], OneLeft())
  {
    PreludeRuns();
    BlocksBesideEleven();
    hide Prelude, Initial, BothRun, OneLeft, Calm, Step, Enabled, Clear;
    Speaks(BothRun(), 2, Wait(0, 9), OneLeft());
    hide Reaches;
    Chain(Initial(3, [0], 0), Prelude(), BothRun(), [Serve(2, Wait(0, 9))], OneLeft());
  }

  /** After a wait that blocks beside process 11, CPU 2 is free and in the
      executing list at once, and CPU 1, which still runs 11, is in no place. */
  lemma TwoOwners()
    ensures Reaches(Initial(3, [0], 0), Prelude() + [Serve(2, Wait(0, 9))], OneLeft())
    ensures CpuPlaces(OneLeft(), 2) == 2 && CpuPlaces(OneLeft(), 1) == 0 && 1 in OneLeft().running
  {
    TwoOwnersRun();
    hide Reaches, Prelude, Initial;
    assert Cpus(OneLeft().executing) == [2];
  }

  lemma PidLostRun()
    ensures Reaches(Initial(3, [0], 0),
      Prelude() + [Serve(2, Wait(0, 9))] + Started(13) + [Serve(2, EndQuantum(9))], Lost())
  {
    TwoOwnersRun();
    ThirteenStarts();
    HandsBackThroughEleven();
    hide Prelude, Started, Trusted, Initial, OneLeft, Stale, Lost, Calm, Step, Enabled;
    Speaks(Stale(), 2, EndQuantum(9), Lost());
    hide Reaches;
    var k := Initial(3, [0], 0);
    Chain(k, Prelude() + [Serve(2, Wait(0, 9))], OneLeft(), Started(13), Stale());
    Chain(k, Prelude() + [Serve(2, Wait(0, 9))] + Started(13), Stale(), [Serve(2, EndQuantum(9))], Lost());
  }

  /** The next process that CPU 2 is given is handed back through the node left
      under pid 11: it is ready and executing at once, and process 11 nowhere. */
  lemma PidLost()
    ensures Reaches(Initial(3, [0], 0),
      Prelude() + [Serve(2, Wait(0, 9))] + Started(13) + [Serve(2, EndQuantum(9))], Lost())
    ensures 11 in Lost().queued && Places(Lost(), 11) == 0 && Places(Lost(), 13) == 2
  {
    PidLostRun();
    LostPlace(11);
    LostPlace(13);
    hide Reaches, Prelude, Started, Places, Initial;
  }
}
