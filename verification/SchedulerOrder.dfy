/** Order: shortest first among the new, first come first served among the
    ready, and pids that grow, so that a pid names one node. */
module SchedulerOrder {
  import opened Scheduler
  import opened SchedulerCounts
  import opened SchedulerCensus
  import opened SchedulerCpus
  import opened SchedulerWakeups

  // ---- shortest first ----

  lemma IncomingStep(k: Kernel, e: Event)
    requires Enabled(k, e) && SortedByWeight(k.incoming)
    ensures SortedByWeight(Step(k, e).incoming)
  {
    hide Served, Dispatched, Linked, Worked, Closed;
    match e
    case Admit(a) =>
    case Send(b) => SentIncoming(k, b);
    case Link(l) => LinkedIncoming(k, l);
    case Serve(cpu, m) => ServedIncoming(k, cpu, m);
    case Work(d, w) => WorkedIncoming(k, d, w);
    case Close(c) => ClosedIncoming(k, c);
  }

  lemma SentIncoming(k: Kernel, b: Dispatching)
    requires CanSend(k, b)
    ensures Dispatched(k, b).incoming == k.incoming
  {
  }

  lemma LinkedIncoming(k: Kernel, l: Linking)
    requires CanLink(k, l)
    ensures Linked(k, l).incoming == k.incoming && Linked(k, l).ready == k.ready
  {
  }

  lemma ServedIncoming(k: Kernel, cpu: int, m: Message)
    requires CanServe(k, cpu, m)
    ensures Served(k, cpu, m).incoming == k.incoming && k.ready <= Served(k, cpu, m).ready
  {
    hide PidAt, NodeOf, Without, Left;
    var i := NodeOf(k.executing, cpu);
    if i < |k.executing| && Leaves(m) {
      var k1 := Updated(k, i, Pcb(k.running[cpu], m.image));
      LeftRunning(k1, k1.executing[i], m);
      HandsBackSentPcb(k, cpu, m);
    }
  }

  lemma WorkedIncoming(k: Kernel, d: nat, w: Working)
    requires CanWork(k, d, w)
    ensures Worked(k, d, w).incoming == k.incoming && k.ready <= Worked(k, d, w).ready
  {
  }

  lemma ClosedIncoming(k: Kernel, c: Ending)
    requires CanClose(k, c)
    ensures Closed(k, c).incoming == k.incoming && Closed(k, c).ready == k.ready
  {
  }

  lemma {:induction false} RunKeepsSorted(k: Kernel, es: seq<Event>)
    requires SortedByWeight(k.incoming) && CanRun(k, es)
    ensures SortedByWeight(Run(k, es).incoming)
    decreases |es|
  {
    hide SortedByWeight, Step, Enabled;
    if es != [] {
      IncomingStep(k, es[0]);
      RunKeepsSorted(Step(k, es[0]), es[1..]);
    }
  }

  lemma LeastFirst(k: Kernel)
    requires SortedByWeight(k.incoming) && Counted(k) && k.admitter.Cleared?
    ensures k.incoming != []
    ensures multiset(k.incoming) == multiset(k.incoming[1..]) + multiset{k.incoming[0]}
    ensures forall q :: q in k.incoming ==> k.incoming[0].weight <= q.weight
  {
    assert k.incoming == [k.incoming[0]] + k.incoming[1..];
  }

  /** Whatever arrived when, each admission takes a process of least weight
      among all that wait, and leaves the others. */
  lemma AdmitsLeastWeight(degree: nat, values: seq<int>, devices: nat, es: seq<Event>)
    requires CanRun(Initial(degree, values, devices), es)
    requires Enabled(Run(Initial(degree, values, devices), es), Admit(TakeIncoming))
    ensures var k := Run(Initial(degree, values, devices), es);
      var k1 := Step(k, Admit(TakeIncoming));
      && k1.admitter.Holding? && multiset(k.incoming) == multiset(k1.incoming) + multiset{k1.admitter.proc}
      && forall q :: q in k.incoming ==> k1.admitter.proc.weight <= q.weight
  {
    hide CanRun, Run, Counted, SortedByWeight;
    var k0 := Initial(degree, values, devices);
    assert SortedByWeight(k0.incoming) by { EmptyIsSorted(); }
    RunKeepsSorted(k0, es);
    InitialCounts(degree, values, devices);
    RunCounts(k0, es);
    LeastFirst(Run(k0, es));
  }

  lemma EmptyIsSorted()
    ensures SortedByWeight([])
  {
  }

  // ---- first come first served ----

  function Takes(es: seq<Event>): nat {
    if es == [] then 0 else One(es[0] == Send(TakeReady)) + Takes(es[1..])
  }

  /** The ready queue loses only its first, to the dispatcher; all else only
      appends to it. */
  lemma ReadyStep(k: Kernel, e: Event)
    requires Enabled(k, e)
    ensures e != Send(TakeReady) ==> k.ready <= Step(k, e).ready
    ensures e == Send(TakeReady) && k.ready != [] ==>
      Step(k, e).ready == k.ready[1..] && Step(k, e).dispatcher == Carrying(k.ready[0])
  {
    hide Served, Linked, Worked, Closed;
    match e
    case Link(l) => LinkedIncoming(k, l);
    case Serve(cpu, m) => ServedIncoming(k, cpu, m);
    case Work(d, w) => WorkedIncoming(k, d, w);
    case Close(c) => ClosedIncoming(k, c);
    case _ =>
  }

  /** However many quanta end, processes wake and arrive behind it, a process
      with `j` ahead of it has `j` less the dispatcher's takes ahead of it. */
  lemma {:induction false} PositionAfter(k: Kernel, es: seq<Event>, j: nat)
    requires CanRun(k, es) && j < |k.ready| && Takes(es) <= j
    ensures j - Takes(es) < |Run(k, es).ready| && Run(k, es).ready[j - Takes(es)] == k.ready[j]
    decreases |es|
  {
    hide Step, Enabled;
    if es != [] {
      ReadyStep(k, es[0]);
      PositionAfter(Step(k, es[0]), es[1..], if es[0] == Send(TakeReady) then j - 1 else j);
    }
  }

  /** It is taken by the dispatcher's take number `j + 1`. */
  lemma BoundedWaiting(k: Kernel, es: seq<Event>, j: nat)
    requires CanRun(k, es) && j < |k.ready| && Takes(es) == j
    requires Enabled(Run(k, es), Send(TakeReady))
    ensures Step(Run(k, es), Send(TakeReady)).dispatcher == Carrying(k.ready[j])
  {
    hide Step, Enabled, Run, CanRun, Takes;
    PositionAfter(k, es, j);
    ReadyStep(Run(k, es), Send(TakeReady));
  }

  // ---- first blocked, first woken ----

  predicate Signals(k: Kernel, e: Event, s: nat) {
    e.Serve? && HasNode(k, e.cpu) && e.message.Signal? && e.message.s == s
  }

  /** The signals on a semaphore that are handled in a run. */
  function Signalling(k: Kernel, es: seq<Event>, s: nat): nat
    requires CanRun(k, es)
    decreases |es|
  {
    if es == [] then 0 else One(Signals(k, es[0], s)) + Signalling(Step(k, es[0]), es[1..], s)
  }

  /** A signal takes the first blocked process to the end of the ready queue;
      everything else only appends to the blocked. */
  lemma BlockedStep(k: Kernel, e: Event, s: nat)
    requires s < |k.semaphores| && Enabled(k, e)
    ensures |Step(k, e).semaphores| == |k.semaphores|
    ensures !Signals(k, e, s) ==> k.semaphores[s].blocked <= Step(k, e).semaphores[s].blocked
    ensures Signals(k, e, s) && k.semaphores[s].blocked != [] ==>
      && Step(k, e).semaphores[s].blocked == k.semaphores[s].blocked[1..]
      && Step(k, e).ready == k.ready + [k.semaphores[s].blocked[0]]
  {
    StepSemaphore(k, e, s);
    if e.Serve? {
      ServedSemaphore(k, e.cpu, e.message, s);
      if Signals(k, e, s) {
        assert Served(k, e.cpu, e.message) == Signalled(k, s);
      }
      hide Served;
    }
  }

  lemma {:induction false} BlockedPosition(k: Kernel, es: seq<Event>, s: nat, j: nat)
    requires s < |k.semaphores| && CanRun(k, es) && j < |k.semaphores[s].blocked| && Signalling(k, es, s) <= j
    ensures var k1 := Run(k, es);
      && |k1.semaphores| == |k.semaphores| && j - Signalling(k, es, s) < |k1.semaphores[s].blocked|
      && k1.semaphores[s].blocked[j - Signalling(k, es, s)] == k.semaphores[s].blocked[j]
    decreases |es|
  {
    hide Step, Enabled, Signals;
    if es != [] {
      BlockedStep(k, es[0], s);
      BlockedPosition(Step(k, es[0]), es[1..], s, if Signals(k, es[0], s) then j - 1 else j);
    }
  }

  /** A process with `j` blocked before it is woken by signal number `j + 1`,
      whoever else blocks meanwhile. */
  lemma WokenInTurn(k: Kernel, es: seq<Event>, s: nat, j: nat, cpu: int)
    requires s < |k.semaphores| && CanRun(k, es) && j < |k.semaphores[s].blocked| && Signalling(k, es, s) == j
    requires Enabled(Run(k, es), Serve(cpu, Signal(s))) && HasNode(Run(k, es), cpu)
    ensures var k1 := Run(k, es);
      Step(k1, Serve(cpu, Signal(s))).ready == k1.ready + [k.semaphores[s].blocked[j]]
  {
    hide Step, Enabled, Run, CanRun, Signalling, HasNode;
    BlockedPosition(k, es, s, j);
    BlockedStep(Run(k, es), Serve(cpu, Signal(s)), s);
  }

  // ---- free CPUs are taken in turn ----

  function CpuTakes(es: seq<Event>): nat {
    if es == [] then 0 else One(es[0] == Send(TakeCpu)) + CpuTakes(es[1..])
  }

  lemma ServedFree(k: Kernel, cpu: int, m: Message)
    requires CanServe(k, cpu, m)
    ensures k.free <= Served(k, cpu, m).free
  {
    hide PidAt, NodeOf, Without, Left;
    if HasNode(k, cpu) && Leaves(m) {
      HandsBackSentPcb(k, cpu, m);
      hide Served;
    }
  }

  /** The free list loses its first to the dispatcher, and any to a departure of
      that CPU; all else only appends to it. */
  lemma FreeStep(k: Kernel, e: Event)
    requires Enabled(k, e) && !(e.Link? && e.linking.LeaveIdle?)
    ensures e != Send(TakeCpu) ==> k.free <= Step(k, e).free
    ensures e == Send(TakeCpu) && k.free != [] ==>
      Step(k, e).free == k.free[1..] && Step(k, e).dispatcher == Loaded(k.dispatcher.proc, k.free[0])
  {
    hide Served;
    if e.Serve? {
      ServedFree(k, e.cpu, e.message);
    }
  }

  lemma {:induction false} CpuPosition(k: Kernel, es: seq<Event>, j: nat)
    requires CanRun(k, es) && NoIdleDeparture(es) && j < |k.free| && CpuTakes(es) <= j
    ensures j - CpuTakes(es) < |Run(k, es).free| && Run(k, es).free[j - CpuTakes(es)] == k.free[j]
    decreases |es|
  {
    hide Step, Enabled;
    if es != [] {
      FreeStep(k, es[0]);
      CpuPosition(Step(k, es[0]), es[1..], if es[0] == Send(TakeCpu) then j - 1 else j);
    }
  }

  /** A CPU freed while `j` are free is given a process by the dispatcher's take
      of a CPU number `j + 1`, unless an idle CPU leaves. */
  lemma CpuServesInTurn(k: Kernel, es: seq<Event>, j: nat)
    requires CanRun(k, es) && NoIdleDeparture(es) && j < |k.free| && CpuTakes(es) == j
    requires Enabled(Run(k, es), Send(TakeCpu))
    ensures var k1 := Run(k, es);
      k1.dispatcher.Promised? && Step(k1, Send(TakeCpu)).dispatcher == Loaded(k1.dispatcher.proc, k.free[j])
  {
    hide Step, Run, CanRun, CpuTakes, NoIdleDeparture;
    CpuPosition(k, es, j);
    FreeStep(Run(k, es), Send(TakeCpu));
  }

  // ---- first come first served at each device ----

  function Servings(es: seq<Event>, d: nat): nat {
    if es == [] then 0 else One(es[0] == Work(d, TakeWork)) + Servings(es[1..], d)
  }

  lemma ServedQueues(k: Kernel, cpu: int, m: Message, d: nat)
    requires d < |k.devices| && CanServe(k, cpu, m)
    ensures |Served(k, cpu, m).devices| == |k.devices| && k.devices[d].queue <= Served(k, cpu, m).devices[d].queue
  {
    hide PidAt, NodeOf, Without, Left;
    if HasNode(k, cpu) && Leaves(m) {
      HandsBackSentPcb(k, cpu, m);
      hide Served;
    }
  }

  lemma WorkedQueues(k: Kernel, e: nat, w: Working, d: nat)
    requires d < |k.devices| && CanWork(k, e, w)
    ensures |Worked(k, e, w).devices| == |k.devices|
    ensures e != d || !w.TakeWork? ==> Worked(k, e, w).devices[d].queue == k.devices[d].queue
    ensures e == d && w.TakeWork? && k.devices[d].queue != [] ==>
      && Worked(k, e, w).devices[d].queue == k.devices[d].queue[1..]
      && Worked(k, e, w).devices[d].worker == Serving(k.devices[d].queue[0])
  {
  }

  lemma DeviceStep(k: Kernel, e: Event, d: nat)
    requires d < |k.devices| && Enabled(k, e)
    ensures |Step(k, e).devices| == |k.devices|
    ensures e != Work(d, TakeWork) ==> k.devices[d].queue <= Step(k, e).devices[d].queue
    ensures e == Work(d, TakeWork) && k.devices[d].queue != [] ==>
      && Step(k, e).devices[d].queue == k.devices[d].queue[1..]
      && Step(k, e).devices[d].worker == Serving(k.devices[d].queue[0])
  {
    hide Served, Worked, WithoutFirst;
    if e.Serve? {
      ServedQueues(k, e.cpu, e.message, d);
    } else if e.Work? {
      WorkedQueues(k, e.device, e.working, d);
    }
  }

  lemma {:induction false} DevicePosition(k: Kernel, es: seq<Event>, d: nat, j: nat)
    requires d < |k.devices| && CanRun(k, es) && j < |k.devices[d].queue| && Servings(es, d) <= j
    ensures var k1 := Run(k, es);
      && |k1.devices| == |k.devices| && j - Servings(es, d) < |k1.devices[d].queue|
      && k1.devices[d].queue[j - Servings(es, d)] == k.devices[d].queue[j]
    decreases |es|
  {
    hide Step, Enabled;
    if es != [] {
      DeviceStep(k, es[0], d);
      DevicePosition(Step(k, es[0]), es[1..], d, if es[0] == Work(d, TakeWork) then j - 1 else j);
    }
  }

  /** A process with `j` ahead of it at a device is served by the device's take
      number `j + 1`. */
  lemma DeviceServesInTurn(k: Kernel, es: seq<Event>, d: nat, j: nat)
    requires d < |k.devices| && CanRun(k, es) && j < |k.devices[d].queue| && Servings(es, d) == j
    requires Enabled(Run(k, es), Work(d, TakeWork))
    ensures |Run(k, es).devices| == |k.devices|
    ensures Step(Run(k, es), Work(d, TakeWork)).devices[d].worker == Serving(k.devices[d].queue[j])
  {
    hide Step, Enabled, Run, CanRun, Servings;
    DevicePosition(k, es, d, j);
    DeviceStep(Run(k, es), Work(d, TakeWork), d);
  }

  // ---- a pid names one node ----

  /** Removal by pid takes the node it was given and no other. */
  lemma RemovesExactlyThatNode(degree: nat, values: seq<int>, devices: nat, es: seq<Event>, i: nat)
    requires CanRun(Initial(degree, values, devices), es) && TrustedRun(Initial(degree, values, devices), es)
    requires i < |Run(Initial(degree, values, devices), es).executing|
    ensures var k := Run(Initial(degree, values, devices), es);
      RemoveExecuting(k, k.executing[i].proc.pcb.pid).executing == k.executing[..i] + k.executing[i + 1..]
  {
    hide Initial, CanRun, Run, TrustedRun, Placed;
    InitialPlaced(degree, values, devices);
    RunKeepsPlaced(Initial(degree, values, devices), es);
    PlacedIsUnique(Run(Initial(degree, values, devices), es), i);
  }
}
