/** What the counting semaphores count, and the degree of multiprogramming, in
    every interleaving. */
module SchedulerCounts {
  import opened Scheduler

  function One(b: bool): nat {
    if b then 1 else 0
  }

  function Total(queues: seq<seq<Proc>>): nat {
    if queues == [] then 0 else |queues[0]| + Total(queues[1..])
  }

  lemma {:induction false} TotalUpdate(queues: seq<seq<Proc>>, i: nat, q: seq<Proc>)
    requires i < |queues|
    ensures Total(queues[i := q]) == Total(queues) - |queues[i]| + |q|
  {
    if i == 0 {
      assert queues[0 := q][1..] == queues[1..];
    } else {
      assert queues[i := q][1..] == queues[1..][i - 1 := q];
      TotalUpdate(queues[1..], i - 1, q);
    }
  }

  /** The processes blocked on each semaphore, and those at each device. */
  function Blockings(sems: seq<Semaphore>): seq<seq<Proc>> {
    seq(|sems|, i requires 0 <= i < |sems| => sems[i].blocked)
  }

  function AtDevice(d: Device): seq<Proc> {
    d.queue + (if d.worker.Serving? then [d.worker.proc] else [])
  }

  function AtDevices(devices: seq<Device>): seq<seq<Proc>> {
    seq(|devices|, i requires 0 <= i < |devices| => AtDevice(devices[i]))
  }

  /** Devices whose thread has pushed a process and not yet posted it. */
  function Unposted(devices: seq<Device>): nat {
    if devices == [] then 0 else One(devices[0].worker.Returned?) + Unposted(devices[1..])
  }

  lemma {:induction false} UnpostedUpdate(devices: seq<Device>, i: nat, d: Device)
    requires i < |devices|
    ensures Unposted(devices[i := d]) == Unposted(devices) - One(devices[i].worker.Returned?) + One(d.worker.Returned?)
  {
    if i == 0 {
      assert devices[0 := d][1..] == devices[1..];
    } else {
      assert devices[i := d][1..] == devices[1..][i - 1 := d];
      UnpostedUpdate(devices[1..], i - 1, d);
    }
  }

  predicate DeviceCounted(d: Device) {
    d.count + One(d.worker.Called?) == |d.queue|
  }

  /** Each counting semaphore, plus the threads past their wait that have not
      taken yet, less the threads that pushed and have not posted yet, is the
      length of its list; for free CPUs but for the entries dropped. */
  predicate Counted(k: Kernel) {
    && k.incomingCount + One(k.admitter.Cleared?) + One(k.posting) == |k.incoming|
    && k.readyCount + One(k.dispatcher.Entitled?) + One(k.admitter.Pushed?) + Unposted(k.devices) == |k.ready|
    && k.freeCount + One(k.dispatcher.Promised?) == |k.free| + k.dropped
    && k.endedCount + One(k.destroyer.Awake?) == |k.ended|
    && (forall d :: 0 <= d < |k.devices| ==> DeviceCounted(k.devices[d]))
  }

  function Carried(b: Dispatcher): seq<Proc> {
    if b.Carrying? || b.Promised? || b.Loaded? || b.Underway? then [b.proc] else []
  }

  /** Processes admitted and not ended. */
  function Active(k: Kernel): nat {
    |k.ready| + |Carried(k.dispatcher)| + |k.executing|
    + Total(Blockings(k.semaphores)) + Total(AtDevices(k.devices))
  }

  function HasToken(a: Admitter): bool {
    a.Token? || a.Cleared? || a.Holding?
  }

  function Degree(k: Kernel): nat {
    k.degree + One(HasToken(k.admitter)) + Active(k)
  }

  // ---- pieces of a step ----

  lemma RemovedOne(k: Kernel, pid: int)
    requires PidAt(k.executing, pid) < |k.executing|
    ensures |RemoveExecuting(k, pid).executing| == |k.executing| - 1
  {
  }

  lemma SemaphoreUpdate(k: Kernel, s: nat, sem: Semaphore)
    requires s < |k.semaphores|
    ensures Total(Blockings(k.semaphores[s := sem])) ==
      Total(Blockings(k.semaphores)) - |k.semaphores[s].blocked| + |sem.blocked|
  {
    TotalUpdate(Blockings(k.semaphores), s, sem.blocked);
    assert Blockings(k.semaphores[s := sem]) == Blockings(k.semaphores)[s := sem.blocked];
  }

  lemma DeviceUpdate(k: Kernel, d: nat, dev: Device)
    requires d < |k.devices|
    ensures Total(AtDevices(k.devices[d := dev])) ==
      Total(AtDevices(k.devices)) - |AtDevice(k.devices[d])| + |AtDevice(dev)|
    ensures Unposted(k.devices[d := dev]) ==
      Unposted(k.devices) - One(k.devices[d].worker.Returned?) + One(dev.worker.Returned?)
  {
    TotalUpdate(AtDevices(k.devices), d, AtDevice(dev));
    UnpostedUpdate(k.devices, d, dev);
    assert AtDevices(k.devices[d := dev]) == AtDevices(k.devices)[d := AtDevice(dev)];
  }

  // ---- every step ----

  lemma SignalCounts(k: Kernel, s: nat)
    requires Counted(k) && s < |k.semaphores|
    ensures Counted(Signalled(k, s)) && Degree(Signalled(k, s)) == Degree(k)
  {
    hide Total, Unposted, Blockings, AtDevices;
    var sem := k.semaphores[s];
    SemaphoreUpdate(k, s, sem.(value := sem.value + 1));
    if sem.blocked != [] {
      SemaphoreUpdate(k, s, Semaphore(sem.value + 1, sem.blocked[1..]));
    }
  }

  function Queueing(k: Kernel, i: nat, s: nat): Semaphore
    requires i < |k.executing| && s < |k.semaphores|
  {
    k.semaphores[s].(blocked := k.semaphores[s].blocked + [k.executing[i].proc])
  }

  lemma WaitFields(k: Kernel, i: nat, s: nat)
    requires i < |k.executing| && s < |k.semaphores| && k.semaphores[s].value <= 0
    ensures var w := Waited(k, i, s);
      && w == k.(semaphores := k.semaphores[s := Queueing(k, i, s)], free := k.free + [k.executing[i].cpu],
                 freeCount := k.freeCount + 1, executing := w.executing, running := k.running - {k.executing[i].cpu})
      && |w.executing| == |k.executing| - 1
  {
    var n := k.executing[i].(proc := k.executing[i].proc.(pcb := Pcb(PROCESS_WAITING, 0)));
    var nodes := k.executing[i := n];
    assert nodes[i].proc.pcb.pid == PROCESS_WAITING;
  }

  lemma WaitCounts(k: Kernel, i: nat, s: nat)
    requires Counted(k) && i < |k.executing| && s < |k.semaphores|
    ensures Counted(Waited(k, i, s)) && Degree(Waited(k, i, s)) == Degree(k)
  {
    hide Total, Unposted, Blockings, AtDevices;
    var sem := k.semaphores[s];
    if sem.value > 0 {
      SemaphoreUpdate(k, s, sem.(value := sem.value - 1));
    } else {
      WaitFields(k, i, s);
      SemaphoreUpdate(k, s, Queueing(k, i, s));
      hide Waited;
    }
  }

  lemma LeftCounts(k: Kernel, i: nat, m: Message)
    requires Counted(k) && i < |k.executing|
    requires Leaves(m) && (m.AskDevice? ==> m.d < |k.devices|)
    ensures var d := Left(k, k.executing[i], m);
      Counted(d) && Degree(d) == Degree(k)
  {
    hide Total, Unposted, Blockings, AtDevices;
    var n := k.executing[i];
    assert k.executing[i].proc.pcb.pid == n.proc.pcb.pid;
    RemovedOne(k, n.proc.pcb.pid);
    if m.AskDevice? {
      var dev := k.devices[m.d];
      DeviceUpdate(k, m.d, dev.(queue := dev.queue + [n.proc], count := dev.count + 1));
    }
  }

  lemma WorkCounts(k: Kernel, d: nat, w: Working)
    requires Counted(k) && CanWork(k, d, w)
    ensures Counted(Worked(k, d, w)) && Degree(Worked(k, d, w)) == Degree(k)
    ensures Worked(k, d, w).crashed == k.crashed
  {
    hide Total, Unposted, Blockings, AtDevices;
    var dev := k.devices[d];
    assert DeviceCounted(dev);
    match w
    case AwaitWork => DeviceUpdate(k, d, dev.(worker := Called, count := dev.count - 1));
    case TakeWork =>
      DeviceUpdate(k, d, dev.(worker := Serving(dev.queue[0]), queue := dev.queue[1..]));
    case PushBack => DeviceUpdate(k, d, dev.(worker := Returned));
    case PostBack => DeviceUpdate(k, d, dev.(worker := Resting));
  }

  lemma AdmissionCounts(k: Kernel, a: Admission)
    requires Counted(k) && CanAdmit(k, a)
    ensures Counted(Admitted(k, a)) && Degree(Admitted(k, a)) == Degree(k)
  {
    hide Total, Unposted, Blockings, AtDevices;
    if a.Arrive? {
      assert |multiset(a.order)| == |a.order|;
      assert |multiset(k.incoming + [NewProc(k, a.weight, a.image)])| == |k.incoming| + 1;
    }
  }

  lemma SendingCounts(k: Kernel, b: Dispatching)
    requires Counted(k) && CanSend(k, b)
    ensures Counted(Dispatched(k, b)) && Degree(Dispatched(k, b)) == Degree(k)
  {
    hide Total, Unposted, Blockings, AtDevices;
  }

  lemma RunningCounts(k: Kernel, running: map<int, int>, ignored: nat, crashed: bool)
    ensures var d := k.(running := running, ignored := ignored, crashed := crashed);
      (Counted(d) <==> Counted(k)) && Degree(d) == Degree(k)
  {
  }

  lemma ServingCounts(k: Kernel, cpu: int, m: Message)
    requires Counted(k) && CanServe(k, cpu, m)
    ensures Counted(Served(k, cpu, m)) && Degree(Served(k, cpu, m)) == Degree(k)
  {
    hide Counted, Degree, Signalled, Waited, Left;
    var i := NodeOf(k.executing, cpu);
    if i == |k.executing| {
      var d := Served(k, cpu, m);
      RunningCounts(k, d.running, d.ignored, d.crashed);
    } else if m.Signal? {
      SignalCounts(k, m.s);
    } else if m.Wait? {
      WaitCounts(k, i, m.s);
    } else {
      var k1 := Updated(k, i, Pcb(k.running[cpu], m.image));
      UpdatedCounts(k, i, Pcb(k.running[cpu], m.image));
      LeftCounts(k1, i, m);
      var d := Left(k1, k1.executing[i], m);
      RunningCounts(d, d.running - {cpu}, d.ignored, d.crashed);
    }
  }

  lemma UpdatedCounts(k: Kernel, i: nat, pcb: Pcb)
    requires Counted(k) && i < |k.executing|
    ensures Counted(Updated(k, i, pcb)) && Degree(Updated(k, i, pcb)) == Degree(k)
  {
    hide Total, Unposted, Blockings, AtDevices;
  }

  lemma LinkingCounts(k: Kernel, l: Linking)
    requires Counted(k) && CanLink(k, l)
    ensures Counted(Linked(k, l)) && Degree(Linked(k, l)) == Degree(k)
  {
    hide Total, Unposted, Blockings, AtDevices, WithoutFirst;
  }

  lemma ClosingCounts(k: Kernel, c: Ending)
    requires Counted(k) && CanClose(k, c)
    ensures Counted(Closed(k, c)) && Degree(Closed(k, c)) == Degree(k)
  {
    hide Total, Unposted, Blockings, AtDevices;
  }

  /** In every interleaving, whatever pids the nodes carry: the semaphores count
      their lists and the degree of multiprogramming is conserved. */
  lemma StepCounts(k: Kernel, e: Event)
    requires Counted(k) && Enabled(k, e)
    ensures Counted(Step(k, e)) && Degree(Step(k, e)) == Degree(k)
  {
    hide Counted, Degree;
    match e
    case Admit(a) => AdmissionCounts(k, a);
    case Send(b) => SendingCounts(k, b);
    case Serve(cpu, m) => ServingCounts(k, cpu, m);
    case Work(d, w) => WorkCounts(k, d, w);
    case Link(l) => LinkingCounts(k, l);
    case Close(c) => ClosingCounts(k, c);
  }

  /** A message from a busy CPU, or the departure of an idle one, for which the
      handler looks up a node and finds none while others are listed. */
  predicate NullNode(k: Kernel, e: Event) {
    && k.executing != []
    && ((e.Serve? && !HasNode(k, e.cpu)) || (e.Link? && e.linking.LeaveIdle?))
  }

  /** The dispatcher takes a CPU whose entry the departure of an idle one dropped. */
  predicate NullCpu(k: Kernel, e: Event) {
    e == Send(TakeCpu) && k.freeCount + 1 == k.dropped
  }

  /** A step uses a null node exactly in these two cases; no other list is ever
      taken from when empty. */
  lemma CrashIff(k: Kernel, e: Event)
    requires Counted(k) && Enabled(k, e)
    ensures Step(k, e).crashed <==> NullNode(k, e) || NullCpu(k, e)
  {
    hide Total, Unposted, Served;
    match e
    case Work(d, w) => WorkCounts(k, d, w);
    case Serve(cpu, m) => ServedCrashes(k, cpu, m);
    case _ =>
  }

  lemma ServedCrashes(k: Kernel, cpu: int, m: Message)
    requires CanServe(k, cpu, m) && !k.crashed
    ensures Served(k, cpu, m).crashed <==> !HasNode(k, cpu) && k.executing != []
  {
    hide PidAt, NodeOf, Without;
  }

  lemma InitialCounts(degree: nat, values: seq<int>, devices: nat)
    ensures Counted(Initial(degree, values, devices)) && Degree(Initial(degree, values, devices)) == degree
  {
    var k := Initial(degree, values, devices);
    EmptyTotal(Blockings(k.semaphores));
    EmptyTotal(AtDevices(k.devices));
    RestingUnposted(k.devices);
  }

  lemma {:induction false} EmptyTotal(queues: seq<seq<Proc>>)
    requires forall i :: 0 <= i < |queues| ==> queues[i] == []
    ensures Total(queues) == 0
  {
    if queues != [] {
      EmptyTotal(queues[1..]);
    }
  }

  lemma {:induction false} RestingUnposted(devices: seq<Device>)
    requires forall i :: 0 <= i < |devices| ==> devices[i].worker.Resting?
    ensures Unposted(devices) == 0
  {
    if devices != [] {
      RestingUnposted(devices[1..]);
    }
  }

  // ---- every run ----

  lemma {:induction false} RunCounts(k: Kernel, es: seq<Event>)
    requires Counted(k) && CanRun(k, es)
    ensures Counted(Run(k, es)) && Degree(Run(k, es)) == Degree(k)
    decreases |es|
  {
    hide Counted, Degree, Step, Enabled;
    if es != [] {
      StepCounts(k, es[0]);
      RunCounts(Step(k, es[0]), es[1..]);
    }
  }

  /** Admitted processes never exceed the configured degree. */
  lemma NeverAboveDegree(degree: nat, values: seq<int>, devices: nat, es: seq<Event>)
    requires CanRun(Initial(degree, values, devices), es)
    ensures var k := Run(Initial(degree, values, devices), es);
      && k.degree + One(HasToken(k.admitter)) + Active(k) == degree
      && Active(k) <= degree
  {
    InitialCounts(degree, values, devices);
    RunCounts(Initial(degree, values, devices), es);
  }

  predicate NoIdleDeparture(es: seq<Event>) {
    forall i :: 0 <= i < |es| ==> !(es[i].Link? && es[i].linking.LeaveIdle?)
  }

  lemma DroppedOnlyIdle(k: Kernel, e: Event)
    requires Enabled(k, e) && !(e.Link? && e.linking.LeaveIdle?)
    ensures Step(k, e).dropped == k.dropped
  {
    hide PidAt, NodeOf, Without;
  }

  lemma {:induction false} RunDropsNone(k: Kernel, es: seq<Event>)
    requires CanRun(k, es) && NoIdleDeparture(es)
    ensures Run(k, es).dropped == k.dropped
    decreases |es|
  {
    if es != [] {
      DroppedOnlyIdle(k, es[0]);
      hide Step, Enabled;
      RunDropsNone(Step(k, es[0]), es[1..]);
    }
  }

  /** In a run in which no idle CPU leaves, no list is ever taken from when
      empty: the only null node is that of a message from a CPU not listed. */
  lemma NeverTakesFromEmpty(degree: nat, values: seq<int>, devices: nat, es: seq<Event>, e: Event)
    requires CanRun(Initial(degree, values, devices), es) && NoIdleDeparture(es)
    requires Enabled(Run(Initial(degree, values, devices), es), e)
    ensures var k := Run(Initial(degree, values, devices), es);
      Step(k, e).crashed <==> NullNode(k, e)
  {
    hide CanRun, Run, Counted, Degree, Step;
    InitialCounts(degree, values, devices);
    RunCounts(Initial(degree, values, devices), es);
    RunDropsNone(Initial(degree, values, devices), es);
    CrashIff(Run(Initial(degree, values, devices), es), e);
  }
}
