/** Who is where: every process queued is in exactly one place in every
    interleaving, as long as the node that a handler finds carries the pid of
    the process that the CPU was sent. */
module SchedulerCensus {
  import opened Scheduler
  import opened SchedulerCounts

  // ---- counting ----

  function Count(ps: seq<Proc>, pid: int): nat {
    if ps == [] then 0 else One(ps[0].pcb.pid == pid) + Count(ps[1..], pid)
  }

  lemma {:induction false} CountConcat(a: seq<Proc>, b: seq<Proc>, pid: int)
    ensures Count(a + b, pid) == Count(a, pid) + Count(b, pid)
  {
    if a == [] {
      assert a + b == b;
    } else {
      assert (a + b)[1..] == a[1..] + b;
      CountConcat(a[1..], b, pid);
    }
  }

  lemma CountSnoc(a: seq<Proc>, p: Proc, pid: int)
    ensures Count(a + [p], pid) == Count(a, pid) + One(p.pcb.pid == pid)
  {
    CountConcat(a, [p], pid);
  }

  lemma CountAround(a: seq<Proc>, i: nat, pid: int)
    requires i < |a|
    ensures Count(a, pid) == Count(a[..i], pid) + One(a[i].pcb.pid == pid) + Count(a[i + 1..], pid)
  {
    assert a == a[..i] + ([a[i]] + a[i + 1..]);
    CountConcat(a[..i], [a[i]] + a[i + 1..], pid);
  }

  lemma CountWithout(a: seq<Proc>, i: nat, pid: int)
    requires i < |a|
    ensures Count(Without(a, i), pid) == Count(a, pid) - One(a[i].pcb.pid == pid)
  {
    CountAround(a, i, pid);
    CountConcat(a[..i], a[i + 1..], pid);
  }

  lemma CountUpdate(a: seq<Proc>, i: nat, p: Proc, pid: int)
    requires i < |a|
    ensures Count(a[i := p], pid) == Count(a, pid) - One(a[i].pcb.pid == pid) + One(p.pcb.pid == pid)
  {
    CountAround(a, i, pid);
    CountAround(a[i := p], i, pid);
    assert a[i := p][..i] == a[..i] && a[i := p][i + 1..] == a[i + 1..];
  }

  /** The first of a list moves to its hand of one. */
  lemma CountHead(a: seq<Proc>, pid: int)
    requires a != []
    ensures Count(a, pid) == Count([a[0]], pid) + Count(a[1..], pid)
  {
    assert a == [a[0]] + a[1..];
    CountConcat([a[0]], a[1..], pid);
  }

  lemma Moved(a: seq<Proc>, b: seq<Proc>) returns (i: nat)
    requires a != [] && multiset(a) == multiset(b)
    ensures i < |b| && b[i] == a[0] && multiset(a[1..]) == multiset(Without(b, i))
  {
    assert a[0] in multiset(b);
    i :| 0 <= i < |b| && b[i] == a[0];
    assert a == [a[0]] + a[1..];
    assert b == b[..i] + [b[i]] + b[i + 1..];
    assert multiset(a[1..]) == multiset(a) - multiset{a[0]};
    assert multiset(Without(b, i)) == multiset(b) - multiset{b[i]};
  }

  lemma {:induction false} CountReordering(a: seq<Proc>, b: seq<Proc>, pid: int)
    requires multiset(a) == multiset(b)
    ensures Count(a, pid) == Count(b, pid)
  {
    if a == [] {
      assert |multiset(b)| == |b|;
    } else {
      var i := Moved(a, b);
      CountReordering(a[1..], Without(b, i), pid);
      CountWithout(b, i, pid);
    }
  }

  lemma {:induction false} CountPositive(a: seq<Proc>, i: nat, pid: int)
    requires i < |a| && a[i].pcb.pid == pid
    ensures Count(a, pid) >= 1
  {
    CountAround(a, i, pid);
  }

  function Sum(queues: seq<seq<Proc>>, pid: int): nat {
    if queues == [] then 0 else Count(queues[0], pid) + Sum(queues[1..], pid)
  }

  lemma {:induction false} SumUpdate(queues: seq<seq<Proc>>, i: nat, q: seq<Proc>, pid: int)
    requires i < |queues|
    ensures Sum(queues[i := q], pid) == Sum(queues, pid) - Count(queues[i], pid) + Count(q, pid)
  {
    if i == 0 {
      assert queues[0 := q][1..] == queues[1..];
    } else {
      assert queues[i := q][1..] == queues[1..][i - 1 := q];
      SumUpdate(queues[1..], i - 1, q, pid);
    }
  }

  lemma {:induction false} EmptySum(queues: seq<seq<Proc>>, pid: int)
    requires forall i :: 0 <= i < |queues| ==> queues[i] == []
    ensures Sum(queues, pid) == 0
  {
    if queues != [] {
      EmptySum(queues[1..], pid);
    }
  }

  function Procs(nodes: seq<Node>): seq<Proc> {
    seq(|nodes|, i requires 0 <= i < |nodes| => nodes[i].proc)
  }

  function InAdmitter(a: Admitter): seq<Proc> {
    if a.Holding? then [a.proc] else []
  }

  function InDestroyer(d: Destroyer): seq<Proc> {
    if d.Destroying? then [d.proc] else []
  }

  /** In how many places a pid is: new, in the admitting thread's hand, ready,
      in the dispatcher's hand, executing, blocked on a semaphore, at a device,
      ended, in the destroying thread's hand, destroyed. */
  function Places(k: Kernel, pid: int): nat {
    Count(k.incoming, pid) + Count(InAdmitter(k.admitter), pid) + Count(k.ready, pid)
    + Count(Carried(k.dispatcher), pid) + Count(Procs(k.executing), pid)
    + Sum(Blockings(k.semaphores), pid) + Sum(AtDevices(k.devices), pid)
    + Count(k.ended, pid) + Count(InDestroyer(k.destroyer), pid) + Count(k.destroyed, pid)
  }

  // ---- pieces of a step ----

  lemma NodesWithout(nodes: seq<Node>, pid: int, i: nat)
    requires i < |nodes| && nodes[i].proc.pcb.pid == pid
    ensures PidAt(nodes, pid) <= i
    ensures forall q :: Count(Procs(Without(nodes, PidAt(nodes, pid))), q) == Count(Procs(nodes), q) - One(q == pid)
  {
    var j := PidAt(nodes, pid);
    assert Procs(Without(nodes, j)) == Without(Procs(nodes), j);
    forall q ensures Count(Procs(Without(nodes, j)), q) == Count(Procs(nodes), q) - One(q == pid) {
      CountWithout(Procs(nodes), j, q);
    }
  }

  lemma NodesUpdate(nodes: seq<Node>, i: nat, p: Proc, q: int)
    requires i < |nodes|
    ensures Count(Procs(nodes[i := nodes[i].(proc := p)]), q) ==
      Count(Procs(nodes), q) - One(nodes[i].proc.pcb.pid == q) + One(p.pcb.pid == q)
  {
    CountUpdate(Procs(nodes), i, p, q);
    assert Procs(nodes[i := nodes[i].(proc := p)]) == Procs(nodes)[i := p];
  }

  lemma SemaphorePlaces(k: Kernel, s: nat, sem: Semaphore, pid: int)
    requires s < |k.semaphores|
    ensures Sum(Blockings(k.semaphores[s := sem]), pid) ==
      Sum(Blockings(k.semaphores), pid) - Count(k.semaphores[s].blocked, pid) + Count(sem.blocked, pid)
  {
    SumUpdate(Blockings(k.semaphores), s, sem.blocked, pid);
    assert Blockings(k.semaphores[s := sem]) == Blockings(k.semaphores)[s := sem.blocked];
  }

  lemma DevicePlaces(k: Kernel, d: nat, dev: Device, pid: int)
    requires d < |k.devices|
    ensures Sum(AtDevices(k.devices[d := dev]), pid) ==
      Sum(AtDevices(k.devices), pid) - Count(AtDevice(k.devices[d]), pid) + Count(AtDevice(dev), pid)
  {
    SumUpdate(AtDevices(k.devices), d, AtDevice(dev), pid);
    assert AtDevices(k.devices[d := dev]) == AtDevices(k.devices)[d := AtDevice(dev)];
  }

  lemma ReadyPlaces(k: Kernel, p: Proc, pid: int)
    ensures Places(AddReady(k, p), pid) == Places(k, pid) + One(p.pcb.pid == pid)
  {
    hide Count, Sum;
    CountSnoc(k.ready, p, pid);
  }

  lemma RemovedPlaces(k: Kernel, i: nat, pid: int)
    requires i < |k.executing|
    ensures var p := k.executing[i].proc.pcb.pid;
      Places(RemoveExecuting(k, p), pid) == Places(k, pid) - One(p == pid)
  {
    hide Count, Sum, PidAt;
    NodesWithout(k.executing, k.executing[i].proc.pcb.pid, i);
  }

  lemma UpdatedPlaces(k: Kernel, i: nat, pcb: Pcb, pid: int)
    requires i < |k.executing|
    ensures Places(Updated(k, i, pcb), pid) ==
      Places(k, pid) - One(k.executing[i].proc.pcb.pid == pid) + One(pcb.pid == pid)
  {
    hide Count, Sum;
    NodesUpdate(k.executing, i, k.executing[i].proc.(pcb := pcb), pid);
  }

  lemma SignalPlaces(k: Kernel, s: nat, pid: int)
    requires s < |k.semaphores|
    ensures Places(Signalled(k, s), pid) == Places(k, pid)
  {
    var sem := k.semaphores[s];
    if sem.blocked == [] {
      SemaphorePlaces(k, s, sem.(value := sem.value + 1), pid);
    } else {
      var sem' := Semaphore(sem.value + 1, sem.blocked[1..]);
      SemaphorePlaces(k, s, sem', pid);
      assert Count(sem.blocked, pid) == One(sem.blocked[0].pcb.pid == pid) + Count(sem.blocked[1..], pid);
      hide Count, Sum;
      ReadyPlaces(k.(semaphores := k.semaphores[s := sem']), sem.blocked[0], pid);
    }
  }

  lemma WaitPlaces(k: Kernel, i: nat, s: nat, pid: int)
    requires i < |k.executing| && s < |k.semaphores|
    ensures Places(Waited(k, i, s), pid) == Places(k, pid)
  {
    hide Count, Sum, PidAt;
    var sem, p := k.semaphores[s], k.executing[i].proc;
    if sem.value > 0 {
      SemaphorePlaces(k, s, sem.(value := sem.value - 1), pid);
    } else {
      var k0 := k.(semaphores := k.semaphores[s := Queueing(k, i, s)]);
      SemaphorePlaces(k, s, Queueing(k, i, s), pid);
      CountSnoc(sem.blocked, p, pid);
      assert Places(k0, pid) == Places(k, pid) + One(p.pcb.pid == pid);
      UpdatedPlaces(k0, i, Pcb(PROCESS_WAITING, 0), pid);
      var k1 := Updated(k0, i, Pcb(PROCESS_WAITING, 0));
      FreePlaces(k1, i, pid);
      RunningPlaces(StopProcessing(k1, k1.executing[i]), k.running - {k.executing[i].cpu}, k.ignored, false, pid);
    }
  }

  lemma RunningPlaces(k: Kernel, running: map<int, int>, ignored: nat, crashed: bool, pid: int)
    ensures Places(k.(running := running, ignored := ignored), pid) == Places(k, pid)
    ensures Places(k.(running := running, ignored := ignored, crashed := crashed), pid) == Places(k, pid)
  {
  }

  lemma FreePlaces(k: Kernel, i: nat, pid: int)
    requires i < |k.executing|
    ensures Places(StopProcessing(k, k.executing[i]), pid) ==
      Places(k, pid) - One(k.executing[i].proc.pcb.pid == pid)
  {
    hide Count, Sum, PidAt;
    RemovedPlaces(k, i, pid);
  }

  lemma LeftPlaces(k: Kernel, i: nat, m: Message, pid: int)
    requires i < |k.executing|
    requires Leaves(m) && (m.AskDevice? ==> m.d < |k.devices|)
    ensures Places(Left(k, k.executing[i], m), pid) == Places(k, pid)
  {
    hide Count, Sum, PidAt;
    var n := k.executing[i];
    FreePlaces(k, i, pid);
    RemovedPlaces(k, i, pid);
    var k1 := StopProcessing(k, n);
    match m
    case EndQuantum(_) => ReadyPlaces(k1, n.proc, pid);
    case AskDevice(_, d) =>
      var dev := k.devices[d];
      DevicePlaces(k1, d, dev.(queue := dev.queue + [n.proc], count := dev.count + 1), pid);
      QueueAtDevice(dev, n.proc, pid);
    case EndProcess(_) =>
      CountSnoc(k.ended, n.proc, pid);
      assert ExitProcess(k, n) == k1.(ended := k.ended + [n.proc], endedCount := k.endedCount + 1, degree := k.degree + 1);
    case LeaveBusy(_) => ReadyPlaces(RemoveExecuting(k, n.proc.pcb.pid), n.proc, pid);
  }

  lemma QueueAtDevice(dev: Device, p: Proc, pid: int)
    ensures Count(AtDevice(dev.(queue := dev.queue + [p], count := dev.count + 1)), pid) ==
      Count(AtDevice(dev), pid) + One(p.pcb.pid == pid)
  {
    var hand := if dev.worker.Serving? then [dev.worker.proc] else [];
    CountConcat(dev.queue + [p], hand, pid);
    CountConcat(dev.queue, hand, pid);
    CountSnoc(dev.queue, p, pid);
  }

  lemma WorkPlaces(k: Kernel, d: nat, w: Working, pid: int)
    requires CanWork(k, d, w)
    ensures Places(Worked(k, d, w), pid) == Places(k, pid)
  {
    hide Count, Sum, AtDevices;
    var dev := k.devices[d];
    match w
    case AwaitWork => DevicePlaces(k, d, dev.(worker := Called, count := dev.count - 1), pid);
    case TakeWork =>
      if dev.queue != [] {
        DevicePlaces(k, d, dev.(worker := Serving(dev.queue[0]), queue := dev.queue[1..]), pid);
        CountConcat(dev.queue[1..], [dev.queue[0]], pid);
        CountHead(dev.queue, pid);
        assert AtDevice(dev) == dev.queue;
      }
    case PushBack =>
      DevicePlaces(k, d, dev.(worker := Returned), pid);
      CountSnoc(dev.queue, dev.worker.proc, pid);
      CountSnoc(k.ready, dev.worker.proc, pid);
      assert AtDevice(dev.(worker := Returned)) == dev.queue;
    case PostBack => DevicePlaces(k, d, dev.(worker := Resting), pid);
  }

  predicate Arrives(k: Kernel, e: Event, pid: int) {
    e.Admit? && e.admission.Arrive? && pid == k.lastPid + 1
  }

  lemma AdmissionPlaces(k: Kernel, a: Admission, pid: int)
    requires CanAdmit(k, a)
    ensures Places(Admitted(k, a), pid) == Places(k, pid) + One(Arrives(k, Admit(a), pid))
  {
    CountNone(pid);
    hide Sum, Count;
    if a.Arrive? {
      var p := NewProc(k, a.weight, a.image);
      CountReordering(a.order, k.incoming + [p], pid);
      CountSnoc(k.incoming, p, pid);
    } else if a.TakeIncoming? && k.incoming != [] {
      CountHead(k.incoming, pid);
    } else if a.PushReady? {
      CountConcat(k.ready, [k.admitter.proc], pid);
    }
  }

  lemma CountNone(pid: int)
    ensures Count([], pid) == 0
  {
  }

  lemma SendingPlaces(k: Kernel, b: Dispatching, pid: int)
    requires CanSend(k, b)
    ensures Places(Dispatched(k, b), pid) == Places(k, pid)
  {
    CountNone(pid);
    hide Sum, Count;
    if b.TakeReady? && k.ready != [] {
      CountHead(k.ready, pid);
    } else if b.ListNode? {
      var n := Node(k.dispatcher.proc, k.dispatcher.cpu);
      assert Procs(k.executing + [n]) == Procs(k.executing) + [n.proc];
      CountConcat(Procs(k.executing), [n.proc], pid);
    }
  }

  lemma ClosingPlaces(k: Kernel, c: Ending, pid: int)
    requires CanClose(k, c)
    ensures Places(Closed(k, c), pid) == Places(k, pid)
  {
    CountNone(pid);
    hide Sum, Count;
    if c.TakeEnded? && k.ended != [] {
      CountHead(k.ended, pid);
    } else if c.Destroy? {
      CountConcat(k.destroyed, [k.destroyer.proc], pid);
    }
  }

  function PidOn(k: Kernel, cpu: int): int
    requires HasNode(k, cpu)
  {
    k.executing[NodeOf(k.executing, cpu)].proc.pcb.pid
  }

  /** A CPU hands its process back and the handler finds a node for it. */
  predicate Handing(k: Kernel, e: Event) {
    e.Serve? && Leaves(e.message) && e.cpu in k.running && HasNode(k, e.cpu)
  }

  /** The node found carries the pid of the process that the CPU was sent. */
  predicate Trusted(k: Kernel, e: Event) {
    Handing(k, e) ==> PidOn(k, e.cpu) == k.running[e.cpu]
  }

  lemma ServingPlaces(k: Kernel, cpu: int, m: Message, pid: int)
    requires CanServe(k, cpu, m)
    ensures Places(Served(k, cpu, m), pid) == Places(k, pid)
      - (if Handing(k, Serve(cpu, m)) then One(PidOn(k, cpu) == pid) else 0)
      + (if Handing(k, Serve(cpu, m)) then One(k.running[cpu] == pid) else 0)
  {
    hide Count, Sum, Signalled, Waited, Left, Places;
    var i := NodeOf(k.executing, cpu);
    if i == |k.executing| {
      var d := Served(k, cpu, m);
      RunningPlaces(k, d.running, d.ignored, d.crashed, pid);
    } else if m.Signal? {
      SignalPlaces(k, m.s, pid);
    } else if m.Wait? {
      WaitPlaces(k, i, m.s, pid);
    } else {
      var pcb := Pcb(k.running[cpu], m.image);
      UpdatedPlaces(k, i, pcb, pid);
      var k1 := Updated(k, i, pcb);
      LeftPlaces(k1, i, m, pid);
      RunningPlaces(Left(k1, k1.executing[i], m), k.running - {cpu}, k.ignored, false, pid);
      LeftRunning(k1, k1.executing[i], m);
    }
  }

  /** What leaving does not touch. */
  lemma LeftRunning(k: Kernel, n: Node, m: Message)
    requires Leaves(m) && (m.AskDevice? ==> m.d < |k.devices|)
    ensures var d := Left(k, n, m);
      && d.running == k.running && d.ignored == k.ignored && d.crashed == k.crashed
      && d.queued == k.queued && d.lastPid == k.lastPid && d.dispatcher == k.dispatcher
      && d.semaphores == k.semaphores && d.incoming == k.incoming
  {
    hide PidAt, Without;
  }

  /** No step loses or duplicates a process, and only an arrival adds one, except
      that a process handed back counts under the pid that its CPU sends. */
  lemma StepPlaces(k: Kernel, e: Event, pid: int)
    requires Enabled(k, e)
    ensures Places(Step(k, e), pid) == Places(k, pid) + One(Arrives(k, e, pid))
      - (if Handing(k, e) then One(PidOn(k, e.cpu) == pid) else 0)
      + (if Handing(k, e) then One(k.running[e.cpu] == pid) else 0)
  {
    hide Count, Sum;
    match e
    case Admit(a) => AdmissionPlaces(k, a, pid);
    case Send(b) => SendingPlaces(k, b, pid);
    case Link(l) =>
    case Serve(cpu, m) => ServingPlaces(k, cpu, m, pid);
    case Work(d, w) => WorkPlaces(k, d, w, pid);
    case Close(c) => ClosingPlaces(k, c, pid);
  }

  // ---- every run ----

  /** Pids grow, and each pid queued so far is in exactly one place. */
  ghost predicate Placed(k: Kernel) {
    && (forall i, j :: 0 <= i < j < |k.queued| ==> k.queued[i] < k.queued[j])
    && (forall i :: 0 <= i < |k.queued| ==> 0 < k.queued[i] <= k.lastPid)
    && (forall pid: int :: Places(k, pid) == One(pid in k.queued))
  }

  lemma ServedPids(k: Kernel, cpu: int, m: Message)
    requires CanServe(k, cpu, m)
    ensures Served(k, cpu, m).queued == k.queued && Served(k, cpu, m).lastPid == k.lastPid
  {
    hide PidAt, NodeOf, Without, Left;
    var i := NodeOf(k.executing, cpu);
    if i < |k.executing| && Leaves(m) {
      var k1 := Updated(k, i, Pcb(k.running[cpu], m.image));
      LeftRunning(k1, k1.executing[i], m);
    }
  }

  lemma QueuedPids(k: Kernel, e: Event)
    requires Enabled(k, e)
    ensures Step(k, e).queued == if e.Admit? && e.admission.Arrive? then k.queued + [k.lastPid + 1] else k.queued
    ensures Step(k, e).lastPid == if e.Admit? && (e.admission.Arrive? || e.admission.Refuse?) then k.lastPid + 1 else k.lastPid
  {
    hide WithoutFirst, Served;
    if e.Serve? {
      ServedPids(k, e.cpu, e.message);
    }
  }

  lemma PidOnIsQueued(k: Kernel, cpu: int)
    requires Placed(k) && HasNode(k, cpu)
    ensures PidOn(k, cpu) in k.queued && Places(k, PidOn(k, cpu)) == 1
  {
    var pid := PidOn(k, cpu);
    CountPositive(Procs(k.executing), NodeOf(k.executing, cpu), pid);
    hide Count, Sum;
    assert Places(k, pid) == One(pid in k.queued);
  }

  /** A step keeps every pid queued in exactly one place if and only if it does
      not hand a process back through the node of another. */
  lemma PlacedIffTrusted(k: Kernel, e: Event)
    requires Placed(k) && Enabled(k, e)
    ensures Placed(Step(k, e)) <==> Trusted(k, e)
  {
    hide Places, Step, Enabled, HasNode, PidOn, Handing;
    QueuedPids(k, e);
    if Trusted(k, e) {
      forall pid: int ensures Places(Step(k, e), pid) == One(pid in Step(k, e).queued) {
        StepPlaces(k, e, pid);
      }
    } else {
      HandedThrough(k, e);
    }
  }

  lemma HandedThrough(k: Kernel, e: Event)
    requires Placed(k) && Enabled(k, e) && !Trusted(k, e)
    ensures HasNode(k, e.cpu) && PidOn(k, e.cpu) in Step(k, e).queued && Places(Step(k, e), PidOn(k, e.cpu)) == 0
    ensures e.cpu in k.running && Places(Step(k, e), k.running[e.cpu]) == Places(k, k.running[e.cpu]) + 1
  {
    hide Places, Step, Placed;
    PidOnIsQueued(k, e.cpu);
    QueuedPids(k, e);
    StepPlaces(k, e, PidOn(k, e.cpu));
    StepPlaces(k, e, k.running[e.cpu]);
  }

  lemma InitialPlaced(degree: nat, values: seq<int>, devices: nat)
    ensures Placed(Initial(degree, values, devices))
  {
    var k := Initial(degree, values, devices);
    forall pid: int ensures Places(k, pid) == 0 {
      EmptySum(Blockings(k.semaphores), pid);
      EmptySum(AtDevices(k.devices), pid);
    }
  }

  predicate TrustedRun(k: Kernel, es: seq<Event>)
    requires CanRun(k, es)
    decreases |es|
  {
    es == [] || (Trusted(k, es[0]) && TrustedRun(Step(k, es[0]), es[1..]))
  }

  lemma {:induction false} RunKeepsPlaced(k: Kernel, es: seq<Event>)
    requires Placed(k) && CanRun(k, es) && TrustedRun(k, es)
    ensures Placed(Run(k, es))
    decreases |es|
  {
    hide Placed, Step, Enabled, Trusted;
    if es != [] {
      PlacedIffTrusted(k, es[0]);
      RunKeepsPlaced(Step(k, es[0]), es[1..]);
    }
  }

  /** In every run from the start without such a step, each pid ever queued is in
      exactly one place, and no other pid is anywhere. */
  lemma EveryPidInOnePlace(degree: nat, values: seq<int>, devices: nat, es: seq<Event>, pid: int)
    requires CanRun(Initial(degree, values, devices), es) && TrustedRun(Initial(degree, values, devices), es)
    ensures var k := Run(Initial(degree, values, devices), es);
      Places(k, pid) == if pid in k.queued then 1 else 0
  {
    hide CanRun, Run, TrustedRun, Places;
    InitialPlaced(degree, values, devices);
    RunKeepsPlaced(Initial(degree, values, devices), es);
  }
}
