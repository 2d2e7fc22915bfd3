/** More runs from the start that go wrong: a process resumed with an old PCB, a
    wake-up lost, a message that overtakes the listing of its node, and CPUs
    that leave idle. */
module SchedulerMishaps {
  import opened Scheduler
  import opened SchedulerCounts
  import opened SchedulerCensus
  import opened SchedulerCpus
  import opened SchedulerWakeups
  import opened SchedulerTraces
  import opened SchedulerRounds
  import opened SchedulerFailures

  // ---- two processes run ----

  function FirstRuns(): Kernel { Calm(1, [1], 2, [], [2], [Node(P(1), 1)], map[1 := 1], 0, []) }

  function TwoRun(): Kernel {
    Calm(2, [1, 2], 1, [], [], [Node(P(1), 1), Node(P(2), 2)], map[1 := 1, 2 := 2], 0, [])
  }

  lemma FirstStarts()
    ensures Reaches(Connected(), Started(1), FirstRuns())
  {
    hide Reaches;
    Starting(Connected());
    assert Connected().queued + [1] == FirstRuns().queued && Connected().free[1..] == FirstRuns().free;
    assert Connected().executing + [Node(P(1), 1)] == FirstRuns().executing;
    assert Connected().running[1 := 1] == FirstRuns().running;
  }

  lemma SecondStarts()
    ensures Reaches(FirstRuns(), Started(2), TwoRun())
  {
    hide Reaches;
    Starting(FirstRuns());
    assert FirstRuns().queued + [2] == TwoRun().queued && FirstRuns().free[1..] == TwoRun().free;
    assert FirstRuns().executing + [Node(P(2), 2)] == TwoRun().executing;
    assert FirstRuns().running[2 := 2] == TwoRun().running;
  }

  function Opening(): seq<Event> {
    Connecting() + Started(1) + Started(2)
  }

  lemma Opens()
    ensures Reaches(Initial(3, [0], 0), Opening(), TwoRun())
  {
    TwoConnect(3);
    FirstStarts();
    SecondStarts();
    assert Connected() == Calm(0, [], 3, [], [1, 2], [], map[], 0, []);
    hide Reaches, Started, Connecting, Initial, Connected, FirstRuns, TwoRun, Calm;
    Chain(Initial(3, [0], 0), Connecting(), Connected(), Started(1), FirstRuns());
    Chain(Initial(3, [0], 0), Connecting() + Started(1), FirstRuns(), Started(2), TwoRun());
  }

  // ---- an old PCB ----

  /** Process 1 waits; its CPU hands it back with the PCB 9. */
  function FirstBlocked(): Kernel { Calm(2, [1, 2], 1, [], [1], [Node(P(2), 2)], map[2 := 2], 0, [P(1)]) }

  lemma FirstBlocks()
    ensures Enabled(TwoRun(), Serve(1, Wait(0, 9))) && Step(TwoRun(), Serve(1, Wait(0, 9))) == FirstBlocked()
    ensures HasNode(TwoRun(), 1) && PidOn(TwoRun(), 1) == 1
  {
    var k := TwoRun();
    assert NodeOf(k.executing, 1) == 0 by {
      assert k.executing[0].cpu == 1;
    }
    var nodes := k.executing[0 := Node(Proc(Pcb(PROCESS_WAITING, 0), 0), 1)];
    assert PidAt(nodes, PROCESS_WAITING) == 0 by {
      assert nodes[0].proc.pcb.pid == 11;
    }
    assert Without(nodes, 0) == [Node(P(2), 2)];
    assert k.running - {1} == map[2 := 2] && k.free + [1] == [1];
    assert Queueing(k, 0, 0) == Semaphore(0, [P(1)]) by { assert [] + [P(1)] == [P(1)]; }
    assert k.semaphores[0 := Queueing(k, 0, 0)] == FirstBlocked().semaphores;
    hide PidAt, NodeOf, Without;
  }

  function FirstWoken(): Kernel { Calm(2, [1, 2], 1, [P(1)], [1], [Node(P(2), 2)], map[2 := 2], 1, []) }

  lemma SecondSignals()
    ensures Enabled(FirstBlocked(), Serve(2, Signal(0))) && Step(FirstBlocked(), Serve(2, Signal(0))) == FirstWoken()
  {
    var k := FirstBlocked();
    assert NodeOf(k.executing, 2) == 0 by {
      assert k.executing[0].cpu == 2;
    }
    hide NodeOf;
    assert k.semaphores[0].blocked[1..] == [] && k.ready + [P(1)] == [P(1)];
    assert k.semaphores[0 := Semaphore(1, [])] == FirstWoken().semaphores;
  }

  function FirstAgain(): Kernel {
    Calm(2, [1, 2], 1, [], [], [Node(P(2), 2), Node(P(1), 1)], map[2 := 2, 1 := 1], 1, [])
  }

  lemma FirstGoes()
    ensures Reaches(FirstWoken(), Launch(), FirstAgain())
  {
    hide Reaches;
    Going(FirstWoken());
    assert FirstWoken().ready[1..] == [] && FirstWoken().free[1..] == [];
    assert FirstWoken().executing + [Node(P(1), 1)] == FirstAgain().executing;
    assert FirstWoken().running[1 := 1] == FirstAgain().running;
  }

  function OldPcbRun(): seq<Event> {
    Opening() + [Serve(1, Wait(0, 9))] + [Serve(2, Signal(0))] + Launch()
  }

  /** Process 1 was dispatched with PCB 0, ran, and blocked; its CPU sent PCB 9.
      Woken, it is dispatched with PCB 0 again. */
  lemma DispatchedAgainWithOldPcb()
    ensures Reaches(Initial(3, [0], 0), OldPcbRun(), FirstAgain())
    ensures FirstAgain().executing[1].proc.pcb == Pcb(1, 0)
  {
    Opens();
    FirstBlocks();
    SecondSignals();
    FirstGoes();
    assert FirstAgain().executing[1].proc.pcb == Pcb(1, 0);
    hide Opening, Launch, Initial, TwoRun, FirstBlocked, FirstWoken, FirstAgain, Calm, Step, Enabled;
    Speaks(TwoRun(), 1, Wait(0, 9), FirstBlocked());
    Speaks(FirstBlocked(), 2, Signal(0), FirstWoken());
    hide Reaches;
    var k := Initial(3, [0], 0);
    Chain(k, Opening(), TwoRun(), [Serve(1, Wait(0, 9))], FirstBlocked());
    Chain(k, Opening() + [Serve(1, Wait(0, 9))], FirstBlocked(), [Serve(2, Signal(0))], FirstWoken());
    Chain(k, Opening() + [Serve(1, Wait(0, 9))] + [Serve(2, Signal(0))], FirstWoken(), Launch(), FirstAgain());
  }

  // ---- a wake-up lost ----

  /** The ledgers of the semaphore along a run. */
  ghost predicate LedgerTrace(es: seq<Event>, ks: seq<Kernel>, ls: seq<Ledger>, l: Ledger, h: Ledger) {
    && |ks| == |ls| == |es| + 1 && ls[0] == l && ls[|es|] == h
    && forall i :: 0 <= i < |es| ==>
         0 < |ks[i].semaphores| && Enabled(ks[i], es[i]) && Recorded(ks[i], 0, ls[i], es[i]) == ls[i + 1]
  }

  /** The run leads from one state and ledger to another. */
  ghost predicate Tells(k: Kernel, l: Ledger, es: seq<Event>, d: Kernel, h: Ledger) {
    exists ks: seq<Kernel>, ls: seq<Ledger> :: Trace(k, es, d, ks) && LedgerTrace(es, ks, ls, l, h)
  }

  lemma {:induction false} LedgersAreHistory(k: Kernel, l: Ledger, es: seq<Event>, d: Kernel, h: Ledger,
                                             ks: seq<Kernel>, ls: seq<Ledger>)
    requires Trace(k, es, d, ks) && LedgerTrace(es, ks, ls, l, h) && 0 < |k.semaphores|
    ensures CanRun(k, es) && Run(k, es) == d && History(k, 0, l, es) == h
    decreases |es|
  {
    hide Step, Enabled, Recorded;
    if es != [] {
      assert Enabled(ks[0], es[0]) && Step(ks[0], es[0]) == ks[1] && Recorded(ks[0], 0, ls[0], es[0]) == ls[1];
      StepSemaphore(k, es[0], 0);
      LedgersAreHistory(ks[1], ls[1], es[1..], d, h, ks[1..], ls[1..]);
    }
  }

  lemma TellsIsHistory(k: Kernel, l: Ledger, es: seq<Event>, d: Kernel, h: Ledger)
    requires Tells(k, l, es, d, h) && 0 < |k.semaphores|
    ensures CanRun(k, es) && Run(k, es) == d && History(k, 0, l, es) == h
  {
    var ks, ls :| Trace(k, es, d, ks) && LedgerTrace(es, ks, ls, l, h);
    LedgersAreHistory(k, l, es, d, h, ks, ls);
  }

  lemma LedgerChain(a: seq<Event>, ks: seq<Kernel>, ls: seq<Ledger>, l: Ledger, h: Ledger,
                    b: seq<Event>, js: seq<Kernel>, ms: seq<Ledger>, g: Ledger)
    requires LedgerTrace(a, ks, ls, l, h) && LedgerTrace(b, js, ms, h, g) && ks[|a|] == js[0]
    ensures LedgerTrace(a + b, ks + js[1..], ls + ms[1..], l, g)
  {
    hide Step, Enabled, Recorded;
    var ns, os := ks + js[1..], ls + ms[1..];
    forall i | 0 <= i < |a + b|
      ensures 0 < |ns[i].semaphores| && Enabled(ns[i], (a + b)[i]) && Recorded(ns[i], 0, os[i], (a + b)[i]) == os[i + 1]
    {
      if i < |a| {
        assert Enabled(ks[i], a[i]) && Recorded(ks[i], 0, ls[i], a[i]) == ls[i + 1];
      } else {
        var j := i - |a|;
        assert Enabled(js[j], b[j]) && Recorded(js[j], 0, ms[j], b[j]) == ms[j + 1];
        assert ns[i] == js[j] && os[i] == ms[j] && os[i + 1] == ms[j + 1];
      }
    }
  }

  lemma Tell(k: Kernel, l: Ledger, a: seq<Event>, d: Kernel, h: Ledger, b: seq<Event>, f: Kernel, g: Ledger)
    requires Tells(k, l, a, d, h) && Tells(d, h, b, f, g)
    ensures Tells(k, l, a + b, f, g)
  {
    var ks, ls :| Trace(k, a, d, ks) && LedgerTrace(a, ks, ls, l, h);
    var js, ms :| Trace(d, b, f, js) && LedgerTrace(b, js, ms, h, g);
    TraceChain(k, a, d, ks, b, f, js);
    LedgerChain(a, ks, ls, l, h, b, js, ms, g);
  }

  predicate NoMessage(es: seq<Event>) {
    forall i :: 0 <= i < |es| ==> !es[i].Serve?
  }

  lemma {:induction false} KeepsSemaphores(k: Kernel, es: seq<Event>, d: Kernel, ks: seq<Kernel>, i: nat)
    requires Trace(k, es, d, ks) && i <= |es| && 0 < |k.semaphores|
    ensures 0 < |ks[i].semaphores|
  {
    hide Step, Enabled;
    if i > 0 {
      KeepsSemaphores(k, es, d, ks, i - 1);
      assert Enabled(ks[i - 1], es[i - 1]) && Step(ks[i - 1], es[i - 1]) == ks[i];
      StepSemaphore(ks[i - 1], es[i - 1], 0);
    }
  }

  lemma TellsNothing(k: Kernel, l: Ledger, es: seq<Event>, d: Kernel)
    requires Reaches(k, es, d) && NoMessage(es) && 0 < |k.semaphores|
    ensures Tells(k, l, es, d, l)
  {
    var ks: seq<Kernel> :| Trace(k, es, d, ks);
    var ls := seq(|es| + 1, _ => l);
    forall i | 0 <= i < |es|
      ensures 0 < |ks[i].semaphores| && Enabled(ks[i], es[i]) && Recorded(ks[i], 0, ls[i], es[i]) == ls[i + 1]
    {
      KeepsSemaphores(k, es, d, ks, i);
      assert !es[i].Serve?;
    }
    assert LedgerTrace(es, ks, ls, l, l);
  }

  lemma TellsOne(k: Kernel, l: Ledger, cpu: int, m: Message, d: Kernel)
    requires Enabled(k, Serve(cpu, m)) && Step(k, Serve(cpu, m)) == d && 0 < |k.semaphores|
    ensures Tells(k, l, [Serve(cpu, m)], d, Recorded(k, 0, l, Serve(cpu, m)))
  {
    hide Step, Enabled, Recorded;
    var e := Serve(cpu, m);
    assert Trace(k, [e], d, [k, d]);
    assert LedgerTrace([e], [k, d], [l, Recorded(k, 0, l, e)], l, Recorded(k, 0, l, e));
  }

  lemma NoMessageStarted(pid: int)
    ensures NoMessage(Started(pid)) && NoMessage(Launch()) && NoMessage(Connecting())
  {
    assert NoMessage(Arrival(pid)) && NoMessage(Admittance()) && NoMessage(Choice());
    hide Arrival, Admittance, Choice;
  }

  lemma NoMessageOpening()
    ensures NoMessage(Opening())
  {
    NoMessageStarted(1);
    NoMessageStarted(2);
    hide Started, Connecting;
  }

  /** Both wait; process 3 comes and signals; process 1 is woken, and ends. */
  function BothBlocked(): Kernel { Calm(2, [1, 2], 1, [], [1, 2], [], map[], 0, [P(1), P(2)]) }

  function ThirdRuns(): Kernel {
    Calm(3, [1, 2, 3], 0, [], [2], [Node(P(3), 1)], map[1 := 3], 0, [P(1), P(2)])
  }

  function OneWoken(): Kernel {
    Calm(3, [1, 2, 3], 0, [P(1)], [2], [Node(P(3), 1)], map[1 := 3], 1, [P(2)])
  }

  function WokenRuns(): Kernel {
    Calm(3, [1, 2, 3], 0, [], [], [Node(P(3), 1), Node(P(1), 2)], map[1 := 3, 2 := 1], 1, [P(2)])
  }

  function WokenEnded(): Kernel {
    Calm(3, [1, 2, 3], 1, [], [2], [Node(P(3), 1)], map[1 := 3], 1, [P(2)]).(ended := [P(1)], endedCount := 1)
  }

  lemma SecondBlocks()
    ensures Enabled(FirstBlocked(), Serve(2, Wait(0, 0))) && Step(FirstBlocked(), Serve(2, Wait(0, 0))) == BothBlocked()
  {
    var k := FirstBlocked();
    assert NodeOf(k.executing, 2) == 0 by {
      assert k.executing[0].cpu == 2;
    }
    var nodes := k.executing[0 := Node(Proc(Pcb(PROCESS_WAITING, 0), 0), 2)];
    assert PidAt(nodes, PROCESS_WAITING) == 0 by {
      assert nodes[0].proc.pcb.pid == 11;
    }
    assert Without(nodes, 0) == [];
    assert k.running - {2} == map[] && k.free + [2] == [1, 2];
    assert Queueing(k, 0, 0) == Semaphore(0, [P(1), P(2)]) by { assert [P(1)] + [P(2)] == [P(1), P(2)]; }
    assert k.semaphores[0 := Queueing(k, 0, 0)] == BothBlocked().semaphores;
    hide PidAt, NodeOf, Without;
  }

  lemma ThirdStarts()
    ensures Reaches(BothBlocked(), Started(3), ThirdRuns())
  {
    hide Reaches;
    Starting(BothBlocked());
    assert BothBlocked().queued + [3] == ThirdRuns().queued && BothBlocked().free[1..] == ThirdRuns().free;
    assert BothBlocked().executing + [Node(P(3), 1)] == ThirdRuns().executing;
    assert BothBlocked().running[1 := 3] == ThirdRuns().running;
  }

  lemma ThirdSignals()
    ensures Enabled(ThirdRuns(), Serve(1, Signal(0))) && Step(ThirdRuns(), Serve(1, Signal(0))) == OneWoken()
    ensures HasNode(ThirdRuns(), 1)
  {
    var k := ThirdRuns();
    assert NodeOf(k.executing, 1) == 0 by {
      assert k.executing[0].cpu == 1;
    }
    hide NodeOf;
    assert k.semaphores[0].blocked[1..] == [P(2)] && k.ready + [P(1)] == [P(1)];
    assert k.semaphores[0 := Semaphore(1, [P(2)])] == OneWoken().semaphores;
  }

  lemma WokenGoes()
    ensures Reaches(OneWoken(), Launch(), WokenRuns())
  {
    hide Reaches;
    Going(OneWoken());
    assert OneWoken().ready[1..] == [] && OneWoken().free[1..] == [];
    assert OneWoken().executing + [Node(P(1), 2)] == WokenRuns().executing;
    assert OneWoken().running[2 := 1] == WokenRuns().running;
  }

  lemma WokenEnds()
    ensures Enabled(WokenRuns(), Serve(2, EndProcess(0))) && Step(WokenRuns(), Serve(2, EndProcess(0))) == WokenEnded()
    ensures HasNode(WokenRuns(), 2) && PidOn(WokenRuns(), 2) == 1
  {
    var k := WokenRuns();
    assert NodeOf(k.executing, 2) == 1 by {
      assert k.executing[0].cpu != 2 && k.executing[1].cpu == 2;
    }
    var nodes := k.executing[1 := Node(P(1), 2)];
    assert nodes == k.executing;
    assert PidAt(nodes, 1) == 1 by {
      assert nodes[0].proc.pcb.pid != 1 && nodes[1].proc.pcb.pid == 1;
    }
    assert Without(nodes, 1) == [Node(P(3), 1)];
    assert k.running - {2} == map[1 := 3] && k.free + [2] == [2] && k.ended + [P(1)] == [P(1)];
    hide PidAt, NodeOf, Without;
  }

  const NOTHING := Ledger(0, 0, {})

  lemma BothBlock()
    ensures Tells(Initial(3, [0], 0), NOTHING, Opening() + [Serve(1, Wait(0, 9))] + [Serve(2, Wait(0, 0))],
                  BothBlocked(), NOTHING)
  {
    Opens();
    NoMessageOpening();
    FirstBlocks();
    SecondBlocks();
    assert |Initial(3, [0], 0).semaphores| == 1 && |TwoRun().semaphores| == 1;
    assert |FirstBlocked().semaphores| == 1 && |BothBlocked().semaphores| == 1;
    assert TwoRun().semaphores[0].value == 0 && FirstBlocked().semaphores[0].value == 0;
    TellsOneWait(TwoRun(), NOTHING, 1, 9, FirstBlocked());
    TellsOneWait(FirstBlocked(), NOTHING, 2, 0, BothBlocked());
    hide Opening, Initial, TwoRun, FirstBlocked, BothBlocked, Calm, Step, Enabled, NoMessage, Reaches, HasNode, PidOn;
    var k := Initial(3, [0], 0);
    TellsNothing(k, NOTHING, Opening(), TwoRun());
    hide Tells;
    Tell(k, NOTHING, Opening(), TwoRun(), NOTHING, [Serve(1, Wait(0, 9))], FirstBlocked(), NOTHING);
    Tell(k, NOTHING, Opening() + [Serve(1, Wait(0, 9))], FirstBlocked(), NOTHING, [Serve(2, Wait(0, 0))],
         BothBlocked(), NOTHING);
  }

  /** A wait that blocks tells nothing when nobody was woken. */
  lemma TellsOneWait(k: Kernel, l: Ledger, cpu: int, image: nat, d: Kernel)
    requires Enabled(k, Serve(cpu, Wait(0, image))) && Step(k, Serve(cpu, Wait(0, image))) == d
    requires 0 < |k.semaphores| && 0 < |d.semaphores| && k.semaphores[0].value <= 0 && l.woken == {}
    ensures Tells(k, l, [Serve(cpu, Wait(0, image))], d, l)
  {
    hide Step, Tells;
    assert Recorded(k, 0, l, Serve(cpu, Wait(0, image))) == l by {
      if HasNode(k, cpu) {
        assert l.woken - {PidOn(k, cpu)} == l.woken;
      }
    }
    TellsOne(k, l, cpu, Wait(0, image), d);
  }

  function LostRun(): seq<Event> {
    Opening() + [Serve(1, Wait(0, 9))] + [Serve(2, Wait(0, 0))]
    + Started(3) + [Serve(1, Signal(0))] + Launch() + [Serve(2, EndProcess(0))]
  }

  lemma SignalTold()
    ensures Tells(ThirdRuns(), NOTHING, [Serve(1, Signal(0))], OneWoken(), Ledger(1, 0, {1}))
  {
    ThirdSignals();
    var e := Serve(1, Signal(0));
    assert ThirdRuns().semaphores[0] == Semaphore(0, [P(1), P(2)]) && |OneWoken().semaphores| == 1;
    assert Recorded(ThirdRuns(), 0, NOTHING, e) == Ledger(1, 0, {1});
    hide Step, Enabled, ThirdRuns, OneWoken, Recorded, Tells, HasNode;
    TellsOne(ThirdRuns(), NOTHING, 1, Signal(0), OneWoken());
  }

  lemma EndTold()
    ensures Tells(WokenRuns(), Ledger(1, 0, {1}), [Serve(2, EndProcess(0))], WokenEnded(), Ledger(1, 0, {}))
  {
    WokenEnds();
    var e := Serve(2, EndProcess(0));
    assert |WokenRuns().semaphores| == 1 && |WokenEnded().semaphores| == 1;
    hide NodeOf;
    assert Recorded(WokenRuns(), 0, Ledger(1, 0, {1}), e) == Ledger(1, 0, {});
    hide Step, Enabled, WokenRuns, WokenEnded, Recorded, Tells, HasNode;
    TellsOne(WokenRuns(), Ledger(1, 0, {1}), 2, EndProcess(0), WokenEnded());
  }

  lemma ThirdAndLaunchTold()
    ensures Tells(BothBlocked(), NOTHING, Started(3), ThirdRuns(), NOTHING)
    ensures Tells(OneWoken(), Ledger(1, 0, {1}), Launch(), WokenRuns(), Ledger(1, 0, {1}))
  {
    NoMessageStarted(3);
    ThirdStarts();
    WokenGoes();
    assert |BothBlocked().semaphores| == 1 && |OneWoken().semaphores| == 1;
    hide Tells, Started, Launch, BothBlocked, ThirdRuns, OneWoken, WokenRuns, Reaches, NoMessage;
    TellsNothing(BothBlocked(), NOTHING, Started(3), ThirdRuns());
    TellsNothing(OneWoken(), Ledger(1, 0, {1}), Launch(), WokenRuns());
  }

  lemma LosesOne()
    ensures WokenEnded().semaphores == [Semaphore(1, [P(2)])] && !NoneLost(WokenEnded(), 0, Ledger(1, 0, {}))
  {
  }

  lemma LostTold()
    ensures Tells(Initial(3, [0], 0), NOTHING, LostRun(), WokenEnded(), Ledger(1, 0, {}))
  {
    BothBlock();
    ThirdAndLaunchTold();
    SignalTold();
    EndTold();
    hide Tells, Opening, Started, Launch, Initial, BothBlocked, ThirdRuns, OneWoken, WokenRuns, WokenEnded;
    var k, a := Initial(3, [0], 0), Opening() + [Serve(1, Wait(0, 9))] + [Serve(2, Wait(0, 0))];
    var l := Ledger(1, 0, {1});
    Tell(k, NOTHING, a, BothBlocked(), NOTHING, Started(3), ThirdRuns(), NOTHING);
    Tell(k, NOTHING, a + Started(3), ThirdRuns(), NOTHING, [Serve(1, Signal(0))], OneWoken(), l);
    Tell(k, NOTHING, a + Started(3) + [Serve(1, Signal(0))], OneWoken(), l, Launch(), WokenRuns(), l);
    Tell(k, NOTHING, a + Started(3) + [Serve(1, Signal(0))] + Launch(), WokenRuns(), l, [Serve(2, EndProcess(0))],
         WokenEnded(), Ledger(1, 0, {}));
  }

  /** At the end of this run process 2 is blocked on a semaphore with a unit to
      give, and no process that the semaphore woke is left to ask for it. */
  lemma WakeupLost()
    ensures Tells(Initial(3, [0], 0), NOTHING, LostRun(), WokenEnded(), Ledger(1, 0, {}))
    ensures WokenEnded().semaphores == [Semaphore(1, [P(2)])] && !NoneLost(WokenEnded(), 0, Ledger(1, 0, {}))
  {
    LostTold();
    LosesOne();
  }

  // ---- a message that overtakes the listing of its node ----

  function Sent(): Kernel {
    Calm(1, [1], 2, [], [2], [], map[1 := 1], 0, []).(dispatcher := Underway(P(1), 1))
  }

  /** Process 1 stays listed on a CPU that runs nothing and is not free. */
  function Stuck(): Kernel {
    Calm(1, [1], 2, [], [2], [Node(P(1), 1)], map[], 0, []).(ignored := 1)
  }

  lemma SentRun()
    ensures Reaches(Connected(), Arrival(1) + Admittance() + Choice() + [Send(SendPcb)], Sent())
  {
    var k := Connected();
    Coming(k);
    var k1 := k.(lastPid := 1, queued := k.queued + [1], degree := 2, ready := k.ready + [P(1)], readyCount := 1);
    Choosing(k1);
    var k2 := k1.(ready := k1.ready[1..], readyCount := 0, free := k1.free[1..], freeCount := 1,
                  dispatcher := Loaded(P(1), 1));
    assert k2.queued == [1] && k2.ready == [] && k2.free == [2] && k2.running[1 := 1] == map[1 := 1];
    Single(k2, Send(SendPcb), Sent());
    hide Reaches, Arrival, Admittance, Choice;
    Chain(k, Arrival(1) + Admittance(), k1, Choice(), k2);
    Chain(k, Arrival(1) + Admittance() + Choice(), k2, [Send(SendPcb)], Sent());
  }

  lemma Overtaken()
    ensures Reaches(Sent(), [Serve(1, EndQuantum(9))] + [Send(ListNode)], Stuck())
  {
    var k := Sent();
    var k1 := Step(k, Serve(1, EndQuantum(9)));
    assert k.running - {1} == map[] && k.executing + [Node(P(1), 1)] == [Node(P(1), 1)];
    Single(k1, Send(ListNode), Stuck());
    First(k, Serve(1, EndQuantum(9)), [Send(ListNode)], Stuck());
    hide Reaches;
  }

  /** The quantum ends before the dispatcher has listed the node: the message is
      answered by nothing. */
  lemma MessageOvertakesListing()
    ensures Reaches(Initial(3, [0], 0),
      Connecting() + (Arrival(1) + Admittance() + Choice() + [Send(SendPcb)])
      + ([Serve(1, EndQuantum(9))] + [Send(ListNode)]), Stuck())
    ensures !Answered(Sent(), Serve(1, EndQuantum(9)))
    ensures HasNode(Stuck(), 1) && 1 !in Stuck().running && 1 !in Stuck().free
  {
    TwoConnect(3);
    assert Connected() == Calm(0, [], 3, [], [1, 2], [], map[], 0, []);
    SentRun();
    Overtaken();
    hide Reaches, Arrival, Admittance, Choice, Connecting, Initial;
    var a := Arrival(1) + Admittance() + Choice() + [Send(SendPcb)];
    Chain(Initial(3, [0], 0), Connecting(), Connected(), a, Sent());
    Chain(Initial(3, [0], 0), Connecting() + a, Sent(), [Serve(1, EndQuantum(9))] + [Send(ListNode)], Stuck());
  }

  // ---- CPUs that leave idle ----

  function Departures(): seq<Event> { [Link(LeaveIdle(1))] + [Link(LeaveIdle(2))] }

  function NoneFree(): Kernel { Calm(0, [], 3, [], [], [], map[], 0, []).(freeCount := 2, dropped := 2) }

  lemma BothLeave()
    ensures Reaches(Connected(), Departures(), NoneFree())
  {
    var k := Connected();
    assert IndexOf(k.free, 1) == 0 by { assert k.free[0] == 1; }
    assert Without(k.free, 0) == [2];
    var k1 := k.(free := [2], dropped := 1);
    assert IndexOf(k1.free, 2) == 0 by { assert k1.free[0] == 2; }
    assert Without(k1.free, 0) == [];
    hide IndexOf, Without;
    Single(k1, Link(LeaveIdle(2)), NoneFree());
    First(k, Link(LeaveIdle(1)), [Link(LeaveIdle(2))], NoneFree());
    hide Reaches;
  }

  function Crashed(): Kernel {
    NoneFree().(lastPid := 1, queued := [1], degree := 2, freeCount := 1, dispatcher := Promised(P(1)), crashed := true)
  }

  lemma DispatcherCrashes()
    ensures Reaches(NoneFree(), Arrival(1) + Admittance() + Choice(), Crashed())
  {
    var d := NoneFree();
    Coming(d);
    var f := d.(lastPid := 1, queued := d.queued + [1], degree := 2, ready := d.ready + [P(1)], readyCount := 1);
    Choosing(f);
    assert f.queued == [1] && f.ready == [P(1)] && f.ready[1..] == [];
    hide Reaches, Arrival, Admittance, Choice;
    Chain(d, Arrival(1) + Admittance(), f, Choice(), Crashed());
  }

  /** The CPUs leave idle; a program arrives: the dispatcher waits for no CPU and
      takes one from the empty list. */
  lemma IdleDepartureCrashes()
    ensures Reaches(Initial(3, [0], 0), Connecting() + Departures() + (Arrival(1) + Admittance() + Choice()), Crashed())
    ensures Crashed().crashed
  {
    TwoConnect(3);
    assert Connected() == Calm(0, [], 3, [], [1, 2], [], map[], 0, []);
    BothLeave();
    DispatcherCrashes();
    hide Reaches, Arrival, Admittance, Choice, Connecting, Initial, Departures;
    var k := Initial(3, [0], 0);
    Chain(k, Connecting(), Connected(), Departures(), NoneFree());
    Chain(k, Connecting() + Departures(), NoneFree(), Arrival(1) + Admittance() + Choice(), Crashed());
  }

  /** A CPU leaves idle while a process runs on the other: its handler uses the
      node that it did not find. */
  lemma IdleDepartureBesideOthers()
    ensures Reaches(Initial(3, [0], 0), Connecting() + Started(1) + [Link(LeaveIdle(2))], FirstRuns().(crashed := true))
  {
    TwoConnect(3);
    assert Connected() == Calm(0, [], 3, [], [1, 2], [], map[], 0, []);
    FirstStarts();
    var k, d := Initial(3, [0], 0), FirstRuns();
    assert NodeOf(d.executing, 2) == 1 by {
      assert d.executing[0].cpu != 2;
    }
    hide NodeOf;
    Single(d, Link(LeaveIdle(2)), d.(crashed := true));
    hide Reaches, Started, Connecting, Initial, FirstRuns;
    Chain(k, Connecting(), Connected(), Started(1), d);
    Chain(k, Connecting() + Started(1), d, [Link(LeaveIdle(2))], d.(crashed := true));
  }
}
