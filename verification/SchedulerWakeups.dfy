/** The semaphores of the programs: a signal wakes one process, which must ask
    again. Their values balance, and no wake-up is lost while woken processes
    live to ask again. */
module SchedulerWakeups {
  import opened Scheduler
  import opened SchedulerCounts
  import opened SchedulerCensus
  import opened SchedulerCpus

  /** The history of one semaphore: signals, waits that succeeded, and the
      processes it woke that have neither asked it again nor ended. */
  datatype Ledger = Ledger(signals: nat, waits: nat, woken: set<int>)

  /** A message for which the handler finds no node reaches no semaphore. */
  function Recorded(k: Kernel, s: nat, l: Ledger, e: Event): Ledger
    requires s < |k.semaphores| && Enabled(k, e)
  {
    if !e.Serve? || !HasNode(k, e.cpu) then l
    else
      var sem, pid := k.semaphores[s], PidOn(k, e.cpu);
      match e.message
      case Signal(t) =>
        if t != s then l
        else l.(signals := l.signals + 1,
                woken := l.woken + (if sem.blocked == [] then {} else {sem.blocked[0].pcb.pid}))
      case Wait(t, _) =>
        if t != s then l
        else l.(waits := l.waits + (if sem.value > 0 then 1 else 0), woken := l.woken - {pid})
      case EndProcess(_) => l.(woken := l.woken - {pid})
      case _ => l
  }

  /** A process that has ended, or has not been admitted. */
  function Gone(k: Kernel, pid: int): nat {
    Count(k.ended, pid) + Count(InDestroyer(k.destroyer), pid) + Count(k.destroyed, pid)
  }

  function Unadmitted(k: Kernel, pid: int): nat {
    Count(k.incoming, pid) + Count(InAdmitter(k.admitter), pid)
  }

  /** Ready, in the dispatcher's hand, executing, at a device, or blocked on a
      semaphore other than `s`. */
  ghost predicate CanAsk(k: Kernel, s: nat, pid: int)
    requires s < |k.semaphores|
  {
    && Places(k, pid) == 1 && Gone(k, pid) == 0 && Unadmitted(k, pid) == 0
    && Count(k.semaphores[s].blocked, pid) == 0 && pid <= k.lastPid
  }

  ghost predicate Pending(k: Kernel, s: nat, l: Ledger)
    requires s < |k.semaphores|
  {
    forall pid :: pid in l.woken ==> CanAsk(k, s, pid)
  }

  predicate Balanced(k: Kernel, s: nat, l: Ledger, initial: int)
    requires s < |k.semaphores|
  {
    && k.semaphores[s].value == initial + l.signals - l.waits
    && (k.semaphores[s].value >= 0 || k.semaphores[s].value >= initial)
  }

  /** While processes are blocked, at least as many woken processes are yet to
      ask as the semaphore has units to give. */
  predicate NoneLost(k: Kernel, s: nat, l: Ledger)
    requires s < |k.semaphores|
  {
    k.semaphores[s].blocked != [] ==> |l.woken| >= k.semaphores[s].value
  }

  // ---- what a step does to one semaphore ----

  predicate Touched(k: Kernel, e: Event, s: nat) {
    e.Serve? && HasNode(k, e.cpu) && ((e.message.Signal? && e.message.s == s) || (e.message.Wait? && e.message.s == s))
  }

  lemma ServedSemaphore(k: Kernel, cpu: int, m: Message, s: nat)
    requires s < |k.semaphores| && CanServe(k, cpu, m)
    ensures var k1 := Served(k, cpu, m);
      && |k1.semaphores| == |k.semaphores|
      && k1.semaphores[s] == var sem := k.semaphores[s];
           if !Touched(k, Serve(cpu, m), s) then sem
           else if m.Signal? then Semaphore(sem.value + 1, if sem.blocked == [] then [] else sem.blocked[1..])
           else if sem.value > 0 then sem.(value := sem.value - 1)
           else sem.(blocked := sem.blocked + [k.executing[NodeOf(k.executing, cpu)].proc])
  {
    hide PidAt, NodeOf, Without, Left;
    var i := NodeOf(k.executing, cpu);
    if i < |k.executing| && Leaves(m) {
      var k1 := Updated(k, i, Pcb(k.running[cpu], m.image));
      LeftRunning(k1, k1.executing[i], m);
    }
  }

  lemma StepSemaphore(k: Kernel, e: Event, s: nat)
    requires s < |k.semaphores| && Enabled(k, e)
    ensures |Step(k, e).semaphores| == |k.semaphores|
    ensures !e.Serve? ==> Step(k, e).semaphores == k.semaphores
  {
    hide PidAt, NodeOf, Without, WithoutFirst, Served;
    if e.Serve? {
      ServedSemaphore(k, e.cpu, e.message, s);
    }
  }

  lemma StepBalances(k: Kernel, s: nat, l: Ledger, e: Event, initial: int)
    requires s < |k.semaphores| && Enabled(k, e) && Balanced(k, s, l, initial)
    ensures |Step(k, e).semaphores| == |k.semaphores|
    ensures Balanced(Step(k, e), s, Recorded(k, s, l, e), initial)
  {
    StepSemaphore(k, e, s);
    if e.Serve? {
      ServedSemaphore(k, e.cpu, e.message, s);
      hide Served;
    }
  }

  // ---- woken processes stay able to ask ----

  lemma LeftGone(k: Kernel, n: Node, m: Message, pid: int)
    requires Leaves(m) && (m.AskDevice? ==> m.d < |k.devices|)
    ensures Gone(Left(k, n, m), pid) == Gone(k, pid) + One(m.EndProcess? && n.proc.pcb.pid == pid)
    ensures Unadmitted(Left(k, n, m), pid) == Unadmitted(k, pid)
    ensures Left(k, n, m).lastPid == k.lastPid
  {
    hide Count, PidAt, Without;
    CountSnoc(k.ended, n.proc, pid);
  }

  lemma ServedGone(k: Kernel, cpu: int, m: Message, pid: int)
    requires CanServe(k, cpu, m)
    ensures Gone(Served(k, cpu, m), pid) ==
      Gone(k, pid) + One(HasNode(k, cpu) && m.EndProcess? && k.running[cpu] == pid)
    ensures Unadmitted(Served(k, cpu, m), pid) == Unadmitted(k, pid)
    ensures Served(k, cpu, m).lastPid == k.lastPid
  {
    hide Count, PidAt, NodeOf, Without, Left;
    var i := NodeOf(k.executing, cpu);
    if i < |k.executing| && Leaves(m) {
      var k1 := Updated(k, i, Pcb(k.running[cpu], m.image));
      LeftGone(k1, k1.executing[i], m, pid);
    }
  }

  lemma AdmissionGone(k: Kernel, a: Admission, pid: int)
    requires CanAdmit(k, a) && pid <= k.lastPid && Unadmitted(k, pid) == 0
    ensures Gone(Admitted(k, a), pid) == Gone(k, pid) && Unadmitted(Admitted(k, a), pid) == 0
  {
    CountNone(pid);
    hide Count;
    if a.Arrive? {
      var p := NewProc(k, a.weight, a.image);
      CountReordering(a.order, k.incoming + [p], pid);
      CountSnoc(k.incoming, p, pid);
    } else if a.TakeIncoming? && k.incoming != [] {
      CountHead(k.incoming, pid);
    }
  }

  lemma ClosingGone(k: Kernel, c: Ending, pid: int)
    requires CanClose(k, c)
    ensures Gone(Closed(k, c), pid) == Gone(k, pid) && Unadmitted(Closed(k, c), pid) == Unadmitted(k, pid)
  {
    CountNone(pid);
    hide Count;
    if c.TakeEnded? && k.ended != [] {
      CountHead(k.ended, pid);
    } else if c.Destroy? {
      CountConcat(k.destroyed, [k.destroyer.proc], pid);
    }
  }

  lemma SendingGone(k: Kernel, b: Dispatching, pid: int)
    requires CanSend(k, b)
    ensures Gone(Dispatched(k, b), pid) == Gone(k, pid) && Unadmitted(Dispatched(k, b), pid) == Unadmitted(k, pid)
  {
    hide Count;
  }

  lemma LinkingGone(k: Kernel, l: Linking, pid: int)
    requires CanLink(k, l)
    ensures Gone(Linked(k, l), pid) == Gone(k, pid) && Unadmitted(Linked(k, l), pid) == Unadmitted(k, pid)
  {
    hide Count, WithoutFirst;
  }

  lemma WorkGone(k: Kernel, d: nat, w: Working, pid: int)
    requires CanWork(k, d, w)
    ensures Gone(Worked(k, d, w), pid) == Gone(k, pid) && Unadmitted(Worked(k, d, w), pid) == Unadmitted(k, pid)
  {
    hide Count;
  }

  lemma StepGone(k: Kernel, e: Event, pid: int)
    requires Enabled(k, e) && pid <= k.lastPid && Unadmitted(k, pid) == 0
    ensures Unadmitted(Step(k, e), pid) == 0 && pid <= Step(k, e).lastPid
    ensures Gone(Step(k, e), pid) ==
      Gone(k, pid) + One(e.Serve? && HasNode(k, e.cpu) && e.message.EndProcess? && k.running[e.cpu] == pid)
  {
    hide Count, Served, Dispatched, Linked, Worked, PidOn, NodeOf;
    QueuedPids(k, e);
    match e
    case Admit(a) => AdmissionGone(k, a, pid);
    case Send(b) => SendingGone(k, b, pid);
    case Link(l) => LinkingGone(k, l, pid);
    case Serve(cpu, m) => ServedGone(k, cpu, m, pid);
    case Work(d, w) => WorkGone(k, d, w, pid);
    case Close(c) => ClosingGone(k, c, pid);
  }

  lemma {:induction false} CountInSum(queues: seq<seq<Proc>>, i: nat, pid: int)
    requires i < |queues|
    ensures Count(queues[i], pid) <= Sum(queues, pid)
  {
    if i > 0 {
      CountInSum(queues[1..], i - 1, pid);
    }
  }

  /** A blocked process is nowhere else, and not blocked twice. */
  lemma BlockedOnce(k: Kernel, s: nat, pid: int)
    requires s < |k.semaphores| && Places(k, pid) <= 1
    ensures Count(k.semaphores[s].blocked, pid) <= 1
    ensures Count(k.semaphores[s].blocked, pid) == 1 ==> Places(k, pid) == 1 && Gone(k, pid) == 0 && Unadmitted(k, pid) == 0
  {
    hide Count;
    CountInSum(Blockings(k.semaphores), s, pid);
  }

  /** The signal wakes this process. */
  predicate Wakes(k: Kernel, s: nat, e: Event, pid: int)
    requires s < |k.semaphores|
  {
    && e.Serve? && HasNode(k, e.cpu) && e.message.Signal? && e.message.s == s
    && k.semaphores[s].blocked != [] && k.semaphores[s].blocked[0].pcb.pid == pid
  }

  lemma WokenCanAsk(k: Kernel, s: nat, cpu: int)
    requires Placed(k) && s < |k.semaphores| && k.semaphores[s].blocked != []
    requires Enabled(k, Serve(cpu, Signal(s))) && HasNode(k, cpu)
    ensures |Served(k, cpu, Signal(s)).semaphores| == |k.semaphores|
    ensures Count(k.semaphores[s].blocked, k.semaphores[s].blocked[0].pcb.pid) > 0
    ensures CanAsk(Served(k, cpu, Signal(s)), s, k.semaphores[s].blocked[0].pcb.pid)
  {
    var e, pid := Serve(cpu, Signal(s)), k.semaphores[s].blocked[0].pcb.pid;
    CountPositive(k.semaphores[s].blocked, 0, pid);
    CountHead(k.semaphores[s].blocked, pid);
    CountPositive([k.semaphores[s].blocked[0]], 0, pid);
    ServedSemaphore(k, cpu, Signal(s), s);
    hide Count, Sum, Served, Places, Gone, Unadmitted;
    assert Places(k, pid) == One(pid in k.queued);
    BlockedOnce(k, s, pid);
    assert pid <= k.lastPid;
    StepPlaces(k, e, pid);
    StepGone(k, e, pid);
  }

  lemma AskerCanAsk(k: Kernel, s: nat, l: Ledger, e: Event, pid: int)
    requires Placed(k) && s < |k.semaphores| && Enabled(k, e) && CanAsk(k, s, pid)
    requires Trusted(k, e) && pid in Recorded(k, s, l, e).woken && !Wakes(k, s, e, pid)
    ensures |Step(k, e).semaphores| == |k.semaphores|
    ensures CanAsk(Step(k, e), s, pid)
  {
    hide Placed, Sum, Places, Gone, Unadmitted, NodeOf, Served, Count;
    StepPlaces(k, e, pid);
    StepGone(k, e, pid);
    StepSemaphore(k, e, s);
    if e.Serve? {
      ServedSemaphore(k, e.cpu, e.message, s);
      if HasNode(k, e.cpu) {
        StillUnblocked(k.semaphores[s].blocked, k.executing[NodeOf(k.executing, e.cpu)].proc, pid);
      }
      hide Step;
    } else {
      NoPlaceChange(k, e, pid);
      hide Step;
    }
  }

  lemma NoPlaceChange(k: Kernel, e: Event, pid: int)
    requires pid <= k.lastPid
    ensures !Arrives(k, e, pid)
  {
  }

  lemma StillUnblocked(q: seq<Proc>, p: Proc, pid: int)
    requires Count(q, pid) == 0
    ensures q != [] ==> Count(q[1..], pid) == 0
    ensures p.pcb.pid != pid ==> Count(q + [p], pid) == 0
  {
    CountSnoc(q, p, pid);
  }

  /** Every process a semaphore woke is alive, in one place, and not blocked on
      it until it asks again or ends. */
  lemma StepKeepsPending(k: Kernel, s: nat, l: Ledger, e: Event)
    requires Placed(k) && Trusted(k, e) && s < |k.semaphores| && Enabled(k, e) && Pending(k, s, l)
    ensures |Step(k, e).semaphores| == |k.semaphores|
    ensures Pending(Step(k, e), s, Recorded(k, s, l, e))
  {
    StepSemaphore(k, e, s);
    var l1 := Recorded(k, s, l, e);
    hide Placed, Step, Enabled, CanAsk;
    forall pid | pid in l1.woken ensures CanAsk(Step(k, e), s, pid) {
      if Wakes(k, s, e, pid) {
        WokenStep(k, s, e, pid);
      } else {
        WasWoken(k, s, l, e, pid);
        AskerCanAsk(k, s, l, e, pid);
      }
    }
  }

  lemma WokenStep(k: Kernel, s: nat, e: Event, pid: int)
    requires Placed(k) && s < |k.semaphores| && Enabled(k, e) && Wakes(k, s, e, pid)
    ensures |Step(k, e).semaphores| == |k.semaphores|
    ensures CanAsk(Step(k, e), s, pid)
  {
    hide Placed, CanAsk, Served;
    WokenCanAsk(k, s, e.cpu);
  }

  lemma WasWoken(k: Kernel, s: nat, l: Ledger, e: Event, pid: int)
    requires s < |k.semaphores| && Enabled(k, e) && pid in Recorded(k, s, l, e).woken
    requires !Wakes(k, s, e, pid)
    ensures pid in l.woken
  {
  }

  // ---- no wake-up is lost ----

  /** A woken process ends while the units left are as many as the woken. */
  predicate LosesWakeup(k: Kernel, s: nat, l: Ledger, e: Event)
    requires s < |k.semaphores| && Enabled(k, e)
  {
    && e.Serve? && e.message.EndProcess? && HasNode(k, e.cpu) && PidOn(k, e.cpu) in l.woken
    && k.semaphores[s].blocked != [] && |l.woken| == k.semaphores[s].value
  }

  lemma SizeWith(a: set<int>, x: int)
    ensures |a + {x}| == |a| + One(x !in a)
    ensures |a - {x}| == |a| - One(x in a)
  {
    if x in a {
      assert a + {x} == a;
    }
  }

  /** Each step keeps the wake-ups if and only if it is not a woken process
      ending with its unit unclaimed. */
  lemma NoneLostIff(k: Kernel, s: nat, l: Ledger, e: Event)
    requires Placed(k) && Trusted(k, e) && s < |k.semaphores| && Enabled(k, e) && Pending(k, s, l) && NoneLost(k, s, l)
    ensures |Step(k, e).semaphores| == |k.semaphores|
    ensures NoneLost(Step(k, e), s, Recorded(k, s, l, e)) <==> !LosesWakeup(k, s, l, e)
  {
    hide Placed, Places, Gone, Unadmitted, NodeOf;
    StepSemaphore(k, e, s);
    if e.Serve? && !HasNode(k, e.cpu) {
      ServedSemaphore(k, e.cpu, e.message, s);
    } else if e.Serve? {
      ServedSemaphore(k, e.cpu, e.message, s);
      SizeWith(l.woken, PidOn(k, e.cpu));
      if e.message.Signal? && e.message.s == s && k.semaphores[s].blocked != [] {
        WokenCanAsk(k, s, e.cpu);
        SizeWith(l.woken, k.semaphores[s].blocked[0].pcb.pid);
      }
      hide Served;
    }
  }

  // ---- every run ----

  function History(k: Kernel, s: nat, l: Ledger, es: seq<Event>): Ledger
    requires s < |k.semaphores| && CanRun(k, es)
    decreases |es|
  {
    if es == [] then l
    else
      StepSemaphore(k, es[0], s);
      History(Step(k, es[0]), s, Recorded(k, s, l, es[0]), es[1..])
  }

  /** No woken process ends while its unit is unclaimed and others wait. */
  ghost predicate AskAgain(k: Kernel, s: nat, l: Ledger, es: seq<Event>)
    requires s < |k.semaphores| && CanRun(k, es)
    decreases |es|
  {
    if es == [] then true
    else
      StepSemaphore(k, es[0], s);
      !LosesWakeup(k, s, l, es[0]) && AskAgain(Step(k, es[0]), s, Recorded(k, s, l, es[0]), es[1..])
  }

  lemma {:induction false} RunBalances(k: Kernel, s: nat, l: Ledger, es: seq<Event>, initial: int)
    requires s < |k.semaphores| && CanRun(k, es) && Balanced(k, s, l, initial)
    ensures s < |Run(k, es).semaphores| && Balanced(Run(k, es), s, History(k, s, l, es), initial)
    decreases |es|
  {
    hide Step, Enabled, Balanced, Recorded;
    if es != [] {
      StepBalances(k, s, l, es[0], initial);
      RunBalances(Step(k, es[0]), s, Recorded(k, s, l, es[0]), es[1..], initial);
    }
  }

  lemma {:induction false} RunLosesNone(k: Kernel, s: nat, l: Ledger, es: seq<Event>)
    requires s < |k.semaphores| && CanRun(k, es) && RegularRun(k, es) && AskAgain(k, s, l, es)
    requires Counted(k) && Orderly(k) && Pending(k, s, l) && NoneLost(k, s, l)
    ensures s < |Run(k, es).semaphores|
    ensures var h := History(k, s, l, es); Pending(Run(k, es), s, h) && NoneLost(Run(k, es), s, h)
    decreases |es|
  {
    hide Step, Enabled, Counted, Placed, Exclusive, Matched, Pending, NoneLost, Recorded, LosesWakeup, Regular, ConnectsNew,
      Trusted;
    if es != [] {
      MatchedIsTrusted(k, es[0]);
      StepCounts(k, es[0]);
      OrderlyIffRegular(k, es[0]);
      StepKeepsPending(k, s, l, es[0]);
      NoneLostIff(k, s, l, es[0]);
      RunLosesNone(Step(k, es[0]), s, Recorded(k, s, l, es[0]), es[1..]);
    }
  }

  /** From the start, the value of a semaphore is its first value, plus the
      signals, less the waits that succeeded, and never negative if it was not. */
  lemma ValueBalances(degree: nat, values: seq<int>, devices: nat, s: nat, es: seq<Event>)
    requires s < |values| && CanRun(Initial(degree, values, devices), es)
    ensures var k0 := Initial(degree, values, devices);
      var k, h := Run(k0, es), History(k0, s, Ledger(0, 0, {}), es);
      && s < |k.semaphores|
      && k.semaphores[s].value == values[s] + h.signals - h.waits
      && (values[s] >= 0 ==> k.semaphores[s].value >= 0)
  {
    RunBalances(Initial(degree, values, devices), s, Ledger(0, 0, {}), es, values[s]);
  }

  /** If processes are blocked on a semaphore that has units to give, some
      process that it woke is alive, not blocked on it, and yet to ask. */
  lemma NoLostWakeup(degree: nat, values: seq<int>, devices: nat, s: nat, es: seq<Event>)
    requires s < |values| && CanRun(Initial(degree, values, devices), es)
    requires RegularRun(Initial(degree, values, devices), es)
    requires AskAgain(Initial(degree, values, devices), s, Ledger(0, 0, {}), es)
    ensures var k0 := Initial(degree, values, devices);
      var k, h := Run(k0, es), History(k0, s, Ledger(0, 0, {}), es);
      && s < |k.semaphores|
      && (k.semaphores[s].blocked != [] && k.semaphores[s].value > 0 ==>
            exists pid :: pid in h.woken && CanAsk(k, s, pid))
  {
    var k0 := Initial(degree, values, devices);
    hide Counted, Orderly;
    InitialOrderly(degree, values, devices);
    InitialCounts(degree, values, devices);
    RunLosesNone(k0, s, Ledger(0, 0, {}), es);
    hide CanRun, Run, RegularRun, History, AskAgain, Initial;
    SomeoneAsks(Run(k0, es), s, History(k0, s, Ledger(0, 0, {}), es));
  }

  lemma Some(a: set<int>) returns (x: int)
    requires |a| > 0
    ensures x in a
  {
    EmptyHasNone(a);
    x :| x in a;
  }

  lemma EmptyHasNone(a: set<int>)
    ensures (forall y :: y !in a) ==> a == {}
  {
    if forall y :: y !in a {
      assert a == {};
    }
  }

  lemma SomeoneAsks(k: Kernel, s: nat, l: Ledger)
    requires s < |k.semaphores| && Pending(k, s, l) && NoneLost(k, s, l)
    ensures k.semaphores[s].blocked != [] && k.semaphores[s].value > 0 ==> exists pid :: pid in l.woken && CanAsk(k, s, pid)
  {
    hide CanAsk;
    if k.semaphores[s].blocked != [] && k.semaphores[s].value > 0 {
      var pid := Some(l.woken);
    }
  }
}
