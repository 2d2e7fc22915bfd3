/** The kernel as the program keeps it: global lists and queues, counting
    semaphores beside them, and what each thread has in hand. What the Scheduler
    modules prove of every step is here an invariant of the object: its lists and
    semaphores agree, each process and each CPU is in one place, the new
    processes are in order, and the degree is conserved. */
module KernelMachine {
  import opened Scheduler
  import opened SchedulerCounts
  import opened SchedulerCensus
  import opened SchedulerCpus
  import opened SchedulerOrder

  // ---- the invariant ----

  ghost predicate Kept(k: Kernel, limit: nat) {
    Counted(k) && Orderly(k) && SortedByWeight(k.incoming) && Degree(k) == limit
  }

  lemma StepKeeps(k: Kernel, e: Event, limit: nat)
    requires Kept(k, limit) && Enabled(k, e) && ConnectsNew(k, e)
    ensures Kept(Step(k, e), limit) <==> Regular(k, e)
  {
    StepCounts(k, e);
    OrderlyIffRegular(k, e);
    IncomingStep(k, e);
    hide Counted, Orderly, SortedByWeight, Degree, Step, Enabled, Regular;
  }

  /** Only the dispatcher's take of a CPU, messages, and CPUs that leave can
      break it. */
  lemma AdmitKeeps(k: Kernel, a: Admission, limit: nat)
    requires Kept(k, limit) && CanAdmit(k, a)
    ensures Kept(Admitted(k, a), limit)
  {
    StepKeeps(k, Admit(a), limit);
    hide Kept, CanAdmit, Admitted;
  }

  lemma CloseKeeps(k: Kernel, c: Ending, limit: nat)
    requires Kept(k, limit) && CanClose(k, c)
    ensures Kept(Closed(k, c), limit)
  {
    StepKeeps(k, Close(c), limit);
    hide Kept, CanClose, Closed;
  }

  lemma WorkKeeps(k: Kernel, d: nat, w: Working, limit: nat)
    requires Kept(k, limit) && CanWork(k, d, w)
    ensures Kept(Worked(k, d, w), limit)
  {
    StepKeeps(k, Work(d, w), limit);
    hide Kept, CanWork, Worked;
  }

  lemma SendKeeps(k: Kernel, b: Dispatching, limit: nat)
    requires Kept(k, limit) && CanSend(k, b)
    ensures Kept(Dispatched(k, b), limit) <==> !(b.TakeCpu? && k.freeCount + 1 == k.dropped)
  {
    StepKeeps(k, Send(b), limit);
    hide Kept, CanSend, Dispatched;
  }

  lemma ServeKeeps(k: Kernel, cpu: int, m: Message, limit: nat)
    requires Kept(k, limit) && CanServe(k, cpu, m)
    ensures Kept(Served(k, cpu, m), limit) <==> Regular(k, Serve(cpu, m))
  {
    StepKeeps(k, Serve(cpu, m), limit);
    hide Kept, CanServe, Served;
  }

  lemma LinkKeeps(k: Kernel, l: Linking, limit: nat)
    requires Kept(k, limit) && CanLink(k, l) && ConnectsNew(k, Link(l))
    ensures Kept(Linked(k, l), limit) <==> (l.LeaveIdle? ==> k.executing == [])
  {
    StepKeeps(k, Link(l), limit);
    hide Kept, CanLink, Linked;
  }

  lemma KeptLeaves(k: Kernel, cpu: int, limit: nat)
    requires Kept(k, limit) && CanLink(k, LeaveIdle(cpu)) && k.executing == []
    ensures forall c: int :: c != cpu ==> CpuPlaces(Linked(k, LeaveIdle(cpu)), c) == CpuPlaces(k, c)
    ensures cpu in k.free ==> CpuPlaces(Linked(k, LeaveIdle(cpu)), cpu) == 0
  {
    LeavesByItself(k, cpu);
    hide Counted, Placed, Matched, SortedByWeight, Degree, CpuPlaces, Linked;
  }

  lemma EmptyIsKept(degree: nat, values: seq<int>, devices: nat)
    ensures Kept(Initial(degree, values, devices), degree)
  {
    InitialCounts(degree, values, devices);
    InitialOrderly(degree, values, devices);
    hide Counted, Orderly, Degree;
  }

  // ---- what it says of one list at a time ----

  lemma KeptCounts(k: Kernel, limit: nat)
    requires Kept(k, limit)
    ensures k.admitter.Cleared? ==> k.incoming != []
    ensures k.dispatcher.Entitled? ==> k.ready != []
    ensures k.dispatcher.Promised? ==> (k.free == [] <==> k.freeCount + 1 == k.dropped)
    ensures k.destroyer.Awake? ==> k.ended != []
    ensures HasToken(k.admitter) ==> Active(k) < limit
    ensures Active(k) <= limit
  {
    hide Orderly, SortedByWeight, Unposted, Active;
  }

  /** When each wait passes, said of the lists: exactly when something has been
      put there and posted, or there is room for a process more. */
  lemma KeptWaits(k: Kernel, limit: nat)
    requires Kept(k, limit)
    ensures CanAdmit(k, TakeToken) <==> k.admitter.Idle? && Active(k) < limit
    ensures CanAdmit(k, AwaitIncoming) <==> k.admitter.Token? && |k.incoming| > One(k.posting)
    ensures CanClose(k, AwaitEnded) <==> k.destroyer.Asleep? && k.ended != []
    ensures CanSend(k, AwaitReady) <==>
      k.dispatcher.Waiting? && |k.ready| > One(k.admitter.Pushed?) + Unposted(k.devices)
    ensures CanSend(k, AwaitCpu) <==> k.dispatcher.Carrying? && |k.free| + k.dropped > 0
    ensures forall d: nat :: CanWork(k, d, AwaitWork) <==>
      d < |k.devices| && k.devices[d].worker.Resting? && k.devices[d].queue != []
  {
    hide Orderly, SortedByWeight, Unposted, Active;
    forall d: nat
      ensures CanWork(k, d, AwaitWork) <==> d < |k.devices| && k.devices[d].worker.Resting? && k.devices[d].queue != []
    {
      if d < |k.devices| {
        assert DeviceCounted(k.devices[d]);
      }
    }
  }

  /** What the waits and posts of the admitting thread change. */
  lemma AdmittedFields(k: Kernel)
    ensures CanAdmit(k, TakeToken) ==>
      k.degree > 0 && Admitted(k, TakeToken) == k.(degree := k.degree - 1, admitter := Token)
    ensures CanAdmit(k, AwaitIncoming) ==>
      k.incomingCount > 0 && Admitted(k, AwaitIncoming) == k.(incomingCount := k.incomingCount - 1, admitter := Cleared)
    ensures CanAdmit(k, PostReady) ==>
      Admitted(k, PostReady) == k.(readyCount := k.readyCount + 1, admitter := Idle)
  {
  }

  lemma KeptDevices(k: Kernel, limit: nat, d: nat)
    requires Kept(k, limit) && d < |k.devices|
    ensures k.devices[d].worker.Called? ==> k.devices[d].queue != []
  {
    assert DeviceCounted(k.devices[d]);
    hide Orderly, SortedByWeight, Unposted, Degree;
  }

  lemma KeptPlaces(k: Kernel, limit: nat, pid: int)
    requires Kept(k, limit)
    ensures Places(k, pid) == One(pid in k.queued) && (pid in k.queued ==> 0 < pid <= k.lastPid)
  {
    hide Counted, Exclusive, Matched, SortedByWeight, Degree, Places;
  }

  lemma KeptShortest(k: Kernel, limit: nat)
    requires Kept(k, limit) && k.admitter.Cleared?
    ensures k.incoming != [] && multiset(k.incoming) == multiset(k.incoming[1..]) + multiset{k.incoming[0]}
    ensures forall q :: q in k.incoming ==> k.incoming[0].weight <= q.weight
  {
    hide Orderly, Degree, Unposted;
    LeastFirst(k);
    hide SortedByWeight, Counted;
  }

  /** The CPU in the dispatcher's hand has no node. */
  lemma KeptUnlisted(k: Kernel, limit: nat)
    requires Kept(k, limit) && (k.dispatcher.Loaded? || k.dispatcher.Underway?)
    ensures !HasNode(k, k.dispatcher.cpu) && k.dispatcher.cpu !in k.free
  {
    hide Counted, Placed, Matched, SortedByWeight, Degree;
    var c := k.dispatcher.cpu;
    assert CpuPlaces(k, c) <= 1;
    if HasNode(k, c) {
      NotUnderway(k, NodeOf(k.executing, c));
      assert false;
    }
  }

  lemma ActiveGrows(k: Kernel, limit: nat)
    requires Kept(k, limit) && k.admitter.Holding?
    ensures Active(Admitted(k, PushReady)) == Active(k) + 1 <= limit
  {
    KeptCounts(k, limit);
    hide Kept, Total, Blockings, AtDevices;
  }

  lemma FoundNode(nodes: seq<Node>, cpu: int, i: nat)
    requires i <= |nodes| && forall j :: 0 <= j < i ==> nodes[j].cpu != cpu
    requires i < |nodes| ==> nodes[i].cpu == cpu
    ensures NodeOf(nodes, cpu) == i
  {
  }

  lemma FoundPid(nodes: seq<Node>, pid: int, i: nat)
    requires i <= |nodes| && forall j :: 0 <= j < i ==> nodes[j].proc.pcb.pid != pid
    requires i < |nodes| ==> nodes[i].proc.pcb.pid == pid
    ensures PidAt(nodes, pid) == i
  {
  }

  lemma FoundCpu(list: seq<int>, cpu: int, i: nat)
    requires i <= |list| && forall j :: 0 <= j < i ==> list[j] != cpu
    requires i < |list| ==> list[i] == cpu
    ensures IndexOf(list, cpu) == i
  {
  }

  class KernelState {
    const limit: nat
    var lastPid: nat
    var incoming: seq<Proc>
    var incomingCount: nat
    var posting: bool
    var degree: nat
    var admitter: Admitter
    var ready: seq<Proc>
    var readyCount: nat
    var dispatcher: Dispatcher
    var free: seq<int>
    var freeCount: nat
    var executing: seq<Node>
    var semaphores: seq<Semaphore>
    var devices: seq<Device>
    var ended: seq<Proc>
    var endedCount: nat
    var destroyer: Destroyer
    var crashed: bool
    ghost var queued: seq<int>
    ghost var dropped: nat
    ghost var destroyed: seq<Proc>
    ghost var running: map<int, int>
    ghost var ignored: nat

    ghost function State(): Kernel
      reads this
    {
      Kernel(lastPid, queued, incoming, incomingCount, posting, degree, admitter, ready, readyCount, dispatcher,
             free, freeCount, dropped, executing, running, ignored, semaphores, devices, ended, endedCount, destroyer,
             destroyed, crashed)
    }

    ghost predicate Valid()
      reads this
    {
      Kept(State(), limit)
    }

    constructor (degree: nat, values: seq<int>, deviceCount: nat)
      ensures Valid() && limit == degree && State() == Initial(degree, values, deviceCount)
    {
      limit := degree;
      lastPid, incoming, incomingCount, posting := 0, [], 0, false;
      this.degree, admitter := degree, Idle;
      ready, readyCount, dispatcher := [], 0, Waiting;
      free, freeCount, executing := [], 0, [];
      semaphores := seq(|values|, s requires 0 <= s < |values| => Semaphore(values[s], []));
      devices := seq(deviceCount, _ => Device(0, [], Resting));
      ended, endedCount, destroyer := [], 0, Asleep;
      crashed, queued, dropped, destroyed, running, ignored := false, [], 0, [], map[], 0;
      new;
      EmptyIsKept(degree, values, deviceCount);
      hide Kept;
    }

    // ---- the long-term scheduler ----

    method NextPid() returns (pid: int)
      modifies this`lastPid
      ensures pid == old(lastPid) + 1 && lastPid == old(lastPid) + 1
    {
      lastPid := lastPid + 1;
      return lastPid;
    }

    /** A program whose segments could not all be created: its pid is spent, and
        is the pid of nothing. */
    method Reject()
      requires Valid() && CanAdmit(State(), Refuse)
      modifies this`lastPid
      ensures Valid() && State() == Admitted(old(State()), Refuse)
      ensures lastPid !in queued && Places(State(), lastPid) == 0
    {
      AdmitKeeps(State(), Refuse, limit);
      KeptPlaces(State(), limit, lastPid + 1);
      hide Kept, Places;
      var pid := NextPid();
      KeptPlaces(State(), limit, pid);
    }

    /** The new node gets a pid no process had, is in one place, and joins the
        list, which the library sorts into some order by weight. */
    method Enqueue(weight: int, image: nat, order: seq<Proc>) returns (pid: int)
      requires Valid() && CanAdmit(State(), Arrive(weight, image, order))
      modifies this`lastPid, this`incoming, this`posting, this`queued
      ensures Valid() && State() == Admitted(old(State()), Arrive(weight, image, order))
      ensures pid !in old(queued) && Places(State(), pid) == 1
      ensures Proc(Pcb(pid, image), weight) in incoming
    {
      ghost var k := State();
      AdmitKeeps(k, Arrive(weight, image, order), limit);
      KeptPlaces(k, limit, lastPid + 1);
      InOrder(k, weight, image, order);
      hide Kept, Places, CanAdmit, SortedByWeight;
      pid := NextPid();
      incoming := order;
      posting := true;
      queued := queued + [pid];
      hide NewProc;
      KeptPlaces(State(), limit, pid);
    }

    lemma InOrder(k: Kernel, weight: int, image: nat, order: seq<Proc>)
      requires CanAdmit(k, Arrive(weight, image, order))
      ensures Proc(Pcb(k.lastPid + 1, image), weight) in order
    {
      var p := NewProc(k, weight, image);
      assert p in multiset(k.incoming + [p]);
      assert p in multiset(order);
    }

    method PostEnqueued()
      requires Valid() && CanAdmit(State(), PostIncoming)
      modifies this`incomingCount, this`posting
      ensures Valid() && State() == Admitted(old(State()), PostIncoming)
    {
      AdmitKeeps(State(), PostIncoming, limit);
      hide Kept;
      incomingCount, posting := incomingCount + 1, false;
    }

    // The thread that admits: two waits, then the node moves by its hand.

    /** There is room for one more process before it is chosen. */
    method AwaitDegree()
      requires Valid() && admitter.Idle? && Active(State()) < limit
      modifies this`degree, this`admitter
      ensures CanAdmit(old(State()), TakeToken)
      ensures Valid() && State() == Admitted(old(State()), TakeToken)
      ensures Active(State()) < limit
    {
      hide Kept, CanAdmit, Admitted, Active;
      KeptWaits(State(), limit);
      AdmitKeeps(State(), TakeToken, limit);
      AdmittedFields(State());
      degree, admitter := degree - 1, Token;
      KeptCounts(State(), limit);
    }

    /** Past the wait there is a process to take. */
    method AwaitNew()
      requires Valid() && admitter.Token? && |incoming| > One(posting)
      modifies this`incomingCount, this`admitter
      ensures CanAdmit(old(State()), AwaitIncoming)
      ensures Valid() && State() == Admitted(old(State()), AwaitIncoming)
      ensures incoming != []
    {
      hide Kept, CanAdmit, Admitted, Active;
      KeptWaits(State(), limit);
      AdmitKeeps(State(), AwaitIncoming, limit);
      AdmittedFields(State());
      incomingCount, admitter := incomingCount - 1, Cleared;
      KeptCounts(State(), limit);
    }

    /** A process of least weight, and no other, leaves the new ones. */
    method TakeShortest()
      requires Valid() && CanAdmit(State(), TakeIncoming)
      modifies this`incoming, this`admitter
      ensures Valid() && State() == Admitted(old(State()), TakeIncoming)
      ensures admitter.Holding? && multiset(old(incoming)) == multiset(incoming) + multiset{admitter.proc}
      ensures forall q :: q in old(incoming) ==> admitter.proc.weight <= q.weight
    {
      AdmitKeeps(State(), TakeIncoming, limit);
      KeptShortest(State(), limit);
      hide Kept;
      admitter := Holding(incoming[0]);
      incoming := incoming[1..];
    }

    /** One more process is active, and never more than the limit. */
    method PushAdmitted()
      requires Valid() && CanAdmit(State(), PushReady)
      modifies this`ready, this`admitter
      ensures Valid() && State() == Admitted(old(State()), PushReady)
      ensures Active(State()) == old(Active(State())) + 1 <= limit
      ensures ready == old(ready) + [old(admitter).proc]
    {
      AdmitKeeps(State(), PushReady, limit);
      ActiveGrows(State(), limit);
      hide Kept, Active;
      ready := ready + [admitter.proc];
      admitter := Pushed;
    }

    method PostAdmitted()
      requires Valid() && CanAdmit(State(), PostReady)
      modifies this`readyCount, this`admitter
      ensures Valid() && State() == Admitted(old(State()), PostReady)
    {
      hide Kept, CanAdmit, Admitted;
      AdmitKeeps(State(), PostReady, limit);
      AdmittedFields(State());
      readyCount, admitter := readyCount + 1, Idle;
    }

    // The thread that destroys.

    method AwaitFinished()
      requires Valid() && destroyer.Asleep? && ended != []
      modifies this`endedCount, this`destroyer
      ensures CanClose(old(State()), AwaitEnded)
      ensures Valid() && State() == Closed(old(State()), AwaitEnded)
      ensures ended != []
    {
      KeptWaits(State(), limit);
      CloseKeeps(State(), AwaitEnded, limit);
      hide Kept;
      endedCount, destroyer := endedCount - 1, Awake;
      KeptCounts(State(), limit);
    }

    /** The process that ended first is the one destroyed next; there is one. */
    method TakeFinished()
      requires Valid() && CanClose(State(), TakeEnded)
      modifies this`ended, this`destroyer
      ensures Valid() && State() == Closed(old(State()), TakeEnded)
      ensures old(ended) != [] && destroyer == Destroying(old(ended)[0]) && ended == old(ended)[1..]
    {
      CloseKeeps(State(), TakeEnded, limit);
      KeptCounts(State(), limit);
      hide Kept;
      destroyer := Destroying(ended[0]);
      ended := ended[1..];
    }

    /** The node goes, and its process is nowhere else. */
    method DestroyFinished()
      requires Valid() && CanClose(State(), Destroy)
      modifies this`destroyer, this`destroyed
      ensures Valid() && State() == Closed(old(State()), Destroy)
      ensures Places(State(), old(destroyer).proc.pcb.pid) == 1 && old(destroyer).proc in destroyed
    {
      CloseKeeps(State(), Destroy, limit);
      hide Kept;
      ghost var p := destroyer.proc;
      destroyed := destroyed + [destroyer.proc];
      destroyer := Asleep;
      DestroyedPlace(State(), p);
    }

    lemma DestroyedPlace(k: Kernel, p: Proc)
      requires Kept(k, limit) && k.destroyed != [] && k.destroyed[|k.destroyed| - 1] == p
      ensures Places(k, p.pcb.pid) == 1
    {
      CountPositive(k.destroyed, |k.destroyed| - 1, p.pcb.pid);
      KeptPlaces(k, limit, p.pcb.pid);
      hide Kept, Count, Sum;
    }

    // ---- the dispatcher ----

    method AwaitProcess()
      requires Valid() && dispatcher.Waiting? && |ready| > One(admitter.Pushed?) + Unposted(devices)
      modifies this`readyCount, this`dispatcher
      ensures CanSend(old(State()), AwaitReady)
      ensures Valid() && State() == Dispatched(old(State()), AwaitReady)
      ensures ready != []
    {
      KeptWaits(State(), limit);
      SendKeeps(State(), AwaitReady, limit);
      hide Kept;
      readyCount, dispatcher := readyCount - 1, Entitled;
      KeptCounts(State(), limit);
    }

    /** The process that became ready first; there is one. */
    method TakeProcess()
      requires Valid() && CanSend(State(), TakeReady)
      modifies this`ready, this`dispatcher
      ensures Valid() && State() == Dispatched(old(State()), TakeReady)
      ensures old(ready) != [] && dispatcher == Carrying(old(ready)[0]) && ready == old(ready)[1..]
    {
      SendKeeps(State(), TakeReady, limit);
      KeptCounts(State(), limit);
      hide Kept;
      dispatcher := Carrying(ready[0]);
      ready := ready[1..];
    }

    /** Past the wait there is a CPU, unless its entry was dropped. */
    method AwaitFreeCpu()
      requires Valid() && dispatcher.Carrying? && |free| + dropped > 0
      modifies this`freeCount, this`dispatcher
      ensures CanSend(old(State()), AwaitCpu)
      ensures Valid() && State() == Dispatched(old(State()), AwaitCpu)
      ensures free == [] <==> freeCount + 1 == dropped
    {
      KeptWaits(State(), limit);
      SendKeeps(State(), AwaitCpu, limit);
      hide Kept;
      freeCount, dispatcher := freeCount - 1, Promised(dispatcher.proc);
      KeptCounts(State(), limit);
    }

    /** The CPU that became free first, if one is there: otherwise, which is when
        the departure of an idle CPU dropped its entry, the thread crashes. */
    method TakeFreeCpu()
      requires Valid() && CanSend(State(), TakeCpu)
      modifies this`free, this`dispatcher, this`crashed
      ensures State() == Dispatched(old(State()), TakeCpu)
      ensures Valid() <==> old(freeCount) + 1 != old(dropped)
      ensures Valid() ==> old(free) != [] && dispatcher == Loaded(old(dispatcher).proc, old(free)[0]) && free == old(free)[1..]
    {
      SendKeeps(State(), TakeCpu, limit);
      KeptCounts(State(), limit);
      hide Kept;
      if free == [] {
        crashed := true;
      } else {
        dispatcher := Loaded(dispatcher.proc, free[0]);
        free := free[1..];
      }
    }

    /** The CPU runs the process, and no other node is its. */
    method SendPcb()
      requires Valid() && CanSend(State(), Scheduler.SendPcb)
      modifies this`dispatcher, this`running
      ensures Valid() && State() == Dispatched(old(State()), Scheduler.SendPcb)
      ensures dispatcher.Underway? && running == old(running)[dispatcher.cpu := dispatcher.proc.pcb.pid] && !HasNode(State(), dispatcher.cpu)
    {
      SendKeeps(State(), Scheduler.SendPcb, limit);
      hide Kept;
      running := running[dispatcher.cpu := dispatcher.proc.pcb.pid];
      dispatcher := Underway(dispatcher.proc, dispatcher.cpu);
      KeptUnlisted(State(), limit);
    }

    /** The node is the only one of its CPU, and the handlers find it. */
    method AddToExecutingList()
      requires Valid() && CanSend(State(), ListNode)
      modifies this`executing, this`dispatcher
      ensures Valid() && State() == Dispatched(old(State()), ListNode)
      ensures var n := Node(old(dispatcher).proc, old(dispatcher).cpu);
        executing == old(executing) + [n] && NodeOf(executing, n.cpu) == |old(executing)|
    {
      SendKeeps(State(), ListNode, limit);
      KeptUnlisted(State(), limit);
      FoundNode(executing + [Node(dispatcher.proc, dispatcher.cpu)], dispatcher.cpu, |executing|);
      hide Kept;
      executing := executing + [Node(dispatcher.proc, dispatcher.cpu)];
      dispatcher := Waiting;
    }

    // ---- queue operations shared by the handlers ----

    method AddToReadyQueue(p: Proc)
      modifies this`ready, this`readyCount
      ensures State() == AddReady(old(State()), p)
    {
      ready := ready + [p];
      readyCount := readyCount + 1;
    }

    method AddCpuToFreeList(cpu: int)
      modifies this`free, this`freeCount
      ensures State() == AddFree(old(State()), cpu)
    {
      free := free + [cpu];
      freeCount := freeCount + 1;
    }

    /** The first node that carries the pid goes. */
    method RemoveFromExecutingList(pid: int)
      modifies this`executing
      ensures State() == RemoveExecuting(old(State()), pid)
    {
      var i := 0;
      while i < |executing| && executing[i].proc.pcb.pid != pid
        invariant 0 <= i <= |executing| && forall j :: 0 <= j < i ==> executing[j].proc.pcb.pid != pid
      {
        i := i + 1;
      }
      FoundPid(executing, pid, i);
      if i < |executing| {
        executing := executing[..i] + executing[i + 1..];
      }
    }

    method LookUp(cpu: int) returns (i: nat)
      ensures i == NodeOf(executing, cpu)
    {
      i := 0;
      while i < |executing| && executing[i].cpu != cpu
        invariant 0 <= i <= |executing| && forall j :: 0 <= j < i ==> executing[j].cpu != cpu
      {
        i := i + 1;
      }
      FoundNode(executing, cpu, i);
    }

    /** The node of the CPU that sent a message. When none is found, and nothing
        executes, the message is dropped; otherwise its handler crashes. */
    method Fetch(cpu: int, m: Message) returns (found: bool, i: nat)
      requires CanServe(State(), cpu, m)
      modifies this`crashed, this`running, this`ignored
      ensures found <==> HasNode(old(State()), cpu)
      ensures found ==> i == NodeOf(executing, cpu) < |executing| && State() == old(State())
      ensures !found ==> State() == Served(old(State()), cpu, m)
    {
      hide NodeOf, Signalled, Waited, Left;
      i := LookUp(cpu);
      found := i < |executing|;
      if !found && executing == [] {
        ignored := ignored + 1;
        if Leaves(m) {
          running := running - {cpu};
        }
      } else if !found {
        crashed := true;
      }
    }

    method SetPcb(i: nat, pcb: Pcb)
      requires i < |executing|
      modifies this`executing
      ensures State() == Updated(old(State()), i, pcb)
      ensures executing[i] == old(executing)[i].(proc := old(executing)[i].proc.(pcb := pcb))
    {
      executing := executing[i := executing[i].(proc := executing[i].proc.(pcb := pcb))];
    }

    method Stop(n: Node)
      modifies this`executing, this`free, this`freeCount
      ensures State() == StopProcessing(old(State()), n)
    {
      RemoveFromExecutingList(n.proc.pcb.pid);
      AddCpuToFreeList(n.cpu);
    }

    /** Posted, counted and freed before it is removed. */
    method Exit(n: Node)
      modifies this`executing, this`free, this`freeCount, this`ended, this`endedCount, this`degree
      ensures State() == ExitProcess(old(State()), n)
    {
      hide PidAt, Without;
      ended := ended + [n.proc];
      endedCount := endedCount + 1;
      degree := degree + 1;
      assert State() == old(State()).(ended := ended, endedCount := endedCount, degree := degree);
      AddCpuToFreeList(n.cpu);
      RemoveFromExecutingList(n.proc.pcb.pid);
    }

    // ---- semaphores of the programs ----

    method SemaphoreSignal(s: nat)
      requires s < |semaphores|
      modifies this`semaphores, this`ready, this`readyCount
      ensures State() == Signalled(old(State()), s)
    {
      semaphores := semaphores[s := semaphores[s].(value := semaphores[s].value + 1)];
      var queue := semaphores[s].blocked;
      if queue != [] {
        semaphores := semaphores[s := semaphores[s].(blocked := queue[1..])];
        AddToReadyQueue(queue[0]);
      }
    }

    /** Whether the process was blocked; the value never changes then. */
    method SemaphoreWait(s: nat, p: Proc) returns (blocked: bool)
      requires s < |semaphores|
      modifies this`semaphores
      ensures blocked <==> old(semaphores)[s].value <= 0
      ensures var sem := old(semaphores)[s];
        State() == old(State()).(semaphores := old(semaphores)[s :=
          if blocked then sem.(blocked := sem.blocked + [p]) else sem.(value := sem.value - 1)])
    {
      if semaphores[s].value > 0 {
        semaphores := semaphores[s := semaphores[s].(value := semaphores[s].value - 1)];
        return false;
      }
      semaphores := semaphores[s := semaphores[s].(blocked := semaphores[s].blocked + [p])];
      return true;
    }

    // ---- the handlers of messages from CPUs ----

    /** The signal of the semaphore named. */
    method OnSignal(cpu: int, s: nat)
      requires Valid() && CanServe(State(), cpu, Signal(s))
      modifies this`semaphores, this`ready, this`readyCount, this`crashed, this`running, this`ignored
      ensures State() == Served(old(State()), cpu, Signal(s))
      ensures Valid() <==> Regular(old(State()), Serve(cpu, Signal(s)))
    {
      ServeKeeps(State(), cpu, Signal(s), limit);
      hide Kept, Regular, NodeOf, PidAt, Without;
      var found, i := Fetch(cpu, Signal(s));
      if found {
        SemaphoreSignal(s);
      }
    }

    /** The copy is blocked before the node is updated, and the update reads the
        header of the packet where the PCB was meant. */
    method WaitAt(i: nat, s: nat)
      requires i < |executing| && s < |semaphores|
      modifies this`semaphores, this`executing, this`free, this`freeCount, this`running
      ensures State() == Waited(old(State()), i, s)
    {
      hide PidAt, Without;
      ghost var cpu := executing[i].cpu;
      var blocked := SemaphoreWait(s, executing[i].proc);
      if blocked {
        SetPcb(i, Pcb(PROCESS_WAITING, 0));
        Stop(executing[i]);
        running := running - {cpu};
      }
    }

    /** The wait of the semaphore named, on the node of the CPU. */
    method OnWait(cpu: int, s: nat, image: nat)
      requires Valid() && CanServe(State(), cpu, Wait(s, image))
      modifies this`semaphores, this`executing, this`free, this`freeCount, this`crashed, this`running, this`ignored
      ensures State() == Served(old(State()), cpu, Wait(s, image))
      ensures Valid() <==> Regular(old(State()), Serve(cpu, Wait(s, image)))
    {
      ServeKeeps(State(), cpu, Wait(s, image), limit);
      hide Kept, Regular, NodeOf, PidAt, Without;
      var found, i := Fetch(cpu, Wait(s, image));
      if found {
        WaitAt(i, s);
      }
    }

    /** The process is ready again with the PCB sent. */
    method OnQuantumEnd(cpu: int, pcb: Pcb)
      requires Valid() && CanServe(State(), cpu, EndQuantum(pcb.image)) && pcb.pid == running[cpu]
      modifies this`executing, this`free, this`freeCount, this`ready, this`readyCount, this`crashed, this`running, this`ignored
      ensures State() == Served(old(State()), cpu, EndQuantum(pcb.image))
      ensures Valid() <==> Regular(old(State()), Serve(cpu, EndQuantum(pcb.image)))
    {
      ServeKeeps(State(), cpu, EndQuantum(pcb.image), limit);
      hide Kept, Regular, NodeOf, PidAt, Without;
      var found, i := Fetch(cpu, EndQuantum(pcb.image));
      if found {
        SetPcb(i, pcb);
        var n := executing[i];
        Stop(n);
        AddToReadyQueue(n.proc);
        running := running - {cpu};
      }
    }

    method BlockOnDevice(d: nat, p: Proc)
      requires d < |devices|
      modifies this`devices
      ensures State() == Blocked(old(State()), d, p)
    {
      devices := devices[d := devices[d].(queue := devices[d].queue + [p], count := devices[d].count + 1)];
    }

    /** The process joins the device's queue with the PCB sent. */
    method OnDevice(cpu: int, pcb: Pcb, d: nat)
      requires Valid() && CanServe(State(), cpu, AskDevice(pcb.image, d)) && pcb.pid == running[cpu]
      modifies this`executing, this`free, this`freeCount, this`devices, this`crashed, this`running, this`ignored
      ensures State() == Served(old(State()), cpu, AskDevice(pcb.image, d))
      ensures Valid() <==> Regular(old(State()), Serve(cpu, AskDevice(pcb.image, d)))
    {
      ServeKeeps(State(), cpu, AskDevice(pcb.image, d), limit);
      hide Kept, Regular, NodeOf, PidAt, Without;
      var found, i := Fetch(cpu, AskDevice(pcb.image, d));
      if found {
        SetPcb(i, pcb);
        var n := executing[i];
        Stop(n);
        BlockOnDevice(d, n.proc);
        running := running - {cpu};
      }
    }

    /** A process that finished, or that raised an exception. */
    method OnProcessEnd(cpu: int, pcb: Pcb)
      requires Valid() && CanServe(State(), cpu, EndProcess(pcb.image)) && pcb.pid == running[cpu]
      modifies this`executing, this`free, this`freeCount, this`ended, this`endedCount, this`degree, this`crashed, this`running, this`ignored
      ensures State() == Served(old(State()), cpu, EndProcess(pcb.image))
      ensures Valid() <==> Regular(old(State()), Serve(cpu, EndProcess(pcb.image)))
    {
      ServeKeeps(State(), cpu, EndProcess(pcb.image), limit);
      hide Kept, Regular, NodeOf, PidAt, Without;
      var found, i := Fetch(cpu, EndProcess(pcb.image));
      if found {
        SetPcb(i, pcb);
        var n := executing[i];
        Exit(n);
        running := running - {cpu};
      }
    }

    /** The process is ready again and its CPU is gone. */
    method OnDisconnection(cpu: int, pcb: Pcb)
      requires Valid() && CanServe(State(), cpu, LeaveBusy(pcb.image)) && pcb.pid == running[cpu]
      modifies this`executing, this`ready, this`readyCount, this`crashed, this`running, this`ignored
      ensures State() == Served(old(State()), cpu, LeaveBusy(pcb.image))
      ensures Valid() <==> Regular(old(State()), Serve(cpu, LeaveBusy(pcb.image)))
    {
      ServeKeeps(State(), cpu, LeaveBusy(pcb.image), limit);
      hide Kept, Regular, NodeOf, PidAt, Without;
      var found, i := Fetch(cpu, LeaveBusy(pcb.image));
      if found {
        SetPcb(i, pcb);
        var n := executing[i];
        RemoveFromExecutingList(n.proc.pcb.pid);
        AddToReadyQueue(n.proc);
        running := running - {cpu};
      }
    }

    /** A CPU connects under a socket number that no other has. */
    method OnConnection(cpu: int)
      requires Valid() && CpuPlaces(State(), cpu) == 0
      modifies this`free, this`freeCount
      ensures Valid() && State() == Linked(old(State()), Connect(cpu))
      ensures CpuPlaces(State(), cpu) == 1
    {
      LinkKeeps(State(), Connect(cpu), limit);
      hide Kept, Cpus;
      AddCpuToFreeList(cpu);
    }

    method LookUpFree(cpu: int) returns (i: nat)
      ensures i == IndexOf(free, cpu)
    {
      i := 0;
      while i < |free| && free[i] != cpu
        invariant 0 <= i <= |free| && forall j :: 0 <= j < i ==> free[j] != cpu
      {
        i := i + 1;
      }
      FoundCpu(free, cpu, i);
    }

    method DropFree(cpu: int)
      modifies this`free, this`dropped
      ensures State() == if cpu in old(free)
        then old(State()).(free := WithoutFirst(old(free), cpu), dropped := old(dropped) + 1) else old(State())
    {
      hide IndexOf;
      var i := LookUpFree(cpu);
      if i < |free| {
        free := free[..i] + free[i + 1..];
        dropped := dropped + 1;
      }
    }

    /** The entry goes; the semaphore that counts it stays as it is. Beside a
        process that executes, the handler uses the node it did not find. */
    method OnIdleDisconnection(cpu: int)
      requires Valid() && CanLink(State(), LeaveIdle(cpu))
      modifies this`free, this`dropped, this`crashed
      ensures State() == Linked(old(State()), LeaveIdle(cpu))
      ensures Valid() <==> executing == []
      ensures executing == [] ==>
        forall c: int :: c != cpu ==> CpuPlaces(State(), c) == CpuPlaces(old(State()), c)
      ensures executing == [] && cpu in old(free) ==> CpuPlaces(State(), cpu) == 0
    {
      LinkKeeps(State(), LeaveIdle(cpu), limit);
      if executing == [] {
        KeptLeaves(State(), cpu, limit);
      }
      hide Kept, WithoutFirst;
      if executing != [] {
        crashed := true;
        return;
      }
      DropFree(cpu);
    }

    // ---- the thread of a device ----

    /** Past the wait there is a process to serve. */
    method AwaitBlocked(d: nat)
      requires Valid() && d < |devices| && devices[d].worker.Resting? && devices[d].queue != []
      modifies this`devices
      ensures CanWork(old(State()), d, AwaitWork)
      ensures Valid() && State() == Worked(old(State()), d, AwaitWork)
      ensures |devices| == |old(devices)| && devices[d].queue != []
    {
      KeptWaits(State(), limit);
      WorkKeeps(State(), d, AwaitWork, limit);
      hide Kept;
      devices := devices[d := devices[d].(worker := Called, count := devices[d].count - 1)];
      KeptDevices(State(), limit, d);
    }

    /** The process that came to the device first; there is one. */
    method TakeBlocked(d: nat)
      requires Valid() && CanWork(State(), d, TakeWork)
      modifies this`devices
      ensures Valid() && State() == Worked(old(State()), d, TakeWork)
      ensures |devices| == |old(devices)| && old(devices)[d].queue != []
      ensures devices[d].worker == Serving(old(devices)[d].queue[0]) && devices[d].queue == old(devices)[d].queue[1..]
    {
      WorkKeeps(State(), d, TakeWork, limit);
      KeptDevices(State(), limit, d);
      hide Kept;
      var queue := devices[d].queue;
      devices := devices[d := devices[d].(worker := Serving(queue[0]), queue := queue[1..])];
    }

    /** The process served is the last of the ready ones and at no device. */
    method PushServed(d: nat)
      requires Valid() && CanWork(State(), d, PushBack)
      modifies this`devices, this`ready
      ensures Valid() && State() == Worked(old(State()), d, PushBack)
      ensures var p := old(devices)[d].worker.proc;
        ready == old(ready) + [p] && Places(State(), p.pcb.pid) == 1
    {
      WorkKeeps(State(), d, PushBack, limit);
      hide Kept;
      ghost var p := devices[d].worker.proc;
      ready := ready + [devices[d].worker.proc];
      devices := devices[d := devices[d].(worker := Returned)];
      ReadyPlace(State(), p);
    }

    lemma ReadyPlace(k: Kernel, p: Proc)
      requires Kept(k, limit) && k.ready != [] && k.ready[|k.ready| - 1] == p
      ensures Places(k, p.pcb.pid) == 1
    {
      CountPositive(k.ready, |k.ready| - 1, p.pcb.pid);
      KeptPlaces(k, limit, p.pcb.pid);
      hide Kept, Count, Sum;
    }

    method PostServed(d: nat)
      requires Valid() && CanWork(State(), d, PostBack)
      modifies this`devices, this`readyCount
      ensures Valid() && State() == Worked(old(State()), d, PostBack)
    {
      WorkKeeps(State(), d, PostBack, limit);
      hide Kept;
      readyCount := readyCount + 1;
      devices := devices[d := devices[d].(worker := Resting)];
    }
  }
}
