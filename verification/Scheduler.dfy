/** The kernel's queues and the threads that move processes between them, as a
    machine of small steps. The thread that serves the CPUs runs each handler as
    one step; every other thread is cut at each wait, pop, push and post. */
module Scheduler {

  datatype Pcb = Pcb(pid: int, image: nat)

  /** A node of a queue. `image` stands for all of the PCB but the pid. */
  datatype Proc = Proc(pcb: Pcb, weight: int)

  datatype Node = Node(proc: Proc, cpu: int)

  datatype Semaphore = Semaphore(value: int, blocked: seq<Proc>)

  /** The long-term scheduler's thread that admits processes. */
  datatype Admitter = Idle | Token | Cleared | Holding(proc: Proc) | Pushed

  /** `Underway` is a process sent to its CPU and not yet listed as executing. */
  datatype Dispatcher =
    | Waiting
    | Entitled
    | Carrying(proc: Proc)
    | Promised(proc: Proc)
    | Loaded(proc: Proc, cpu: int)
    | Underway(proc: Proc, cpu: int)

  /** A device with the thread that serves it. */
  datatype Worker = Resting | Called | Serving(proc: Proc) | Returned

  datatype Device = Device(count: nat, queue: seq<Proc>, worker: Worker)

  datatype Destroyer = Asleep | Awake | Destroying(proc: Proc)

  /** `running` is the pid of the process that each busy CPU was sent. `queued`
      (the pids ever queued), `destroyed`, `dropped` (free-CPU entries removed
      without a wait) and `ignored` (messages of CPUs answered by nothing) are
      history; `crashed` is a thread that used a null node. */
  datatype Kernel = Kernel(
    lastPid: nat, queued: seq<int>,
    incoming: seq<Proc>, incomingCount: nat, posting: bool,
    degree: nat, admitter: Admitter,
    ready: seq<Proc>, readyCount: nat, dispatcher: Dispatcher,
    free: seq<int>, freeCount: nat, dropped: nat,
    executing: seq<Node>, running: map<int, int>, ignored: nat,
    semaphores: seq<Semaphore>, devices: seq<Device>,
    ended: seq<Proc>, endedCount: nat, destroyer: Destroyer, destroyed: seq<Proc>,
    crashed: bool)

  /** The operation code with which a CPU sends the PCB of a process that must
      wait; the handler copies the packet's own header into the PCB. */
  const PROCESS_WAITING := 11

  function Initial(degree: nat, values: seq<int>, devices: nat): Kernel {
    Kernel(0, [], [], 0, false, degree, Idle, [], 0, Waiting, [], 0, 0, [], map[], 0,
           seq(|values|, s requires 0 <= s < |values| => Semaphore(values[s], [])),
           seq(devices, _ => Device(0, [], Resting)),
           [], 0, Asleep, [], false)
  }

  /** The long-term scheduler: the thread that accepts programs, and the one
      that admits processes. */
  datatype Admission =
    | Arrive(weight: int, image: nat, order: seq<Proc>)
    | Refuse
    | PostIncoming
    | TakeToken
    | AwaitIncoming
    | TakeIncoming
    | PushReady
    | PostReady

  datatype Dispatching = AwaitReady | TakeReady | AwaitCpu | TakeCpu | SendPcb | ListNode

  datatype Linking = Connect(cpu: int) | LeaveIdle(cpu: int)

  /** What a CPU with a process may send. The PCB in a message has the pid of the
      process that the CPU was sent; `image` is the rest of it. */
  datatype Message =
    | EndQuantum(image: nat)
    | Signal(s: nat)
    | Wait(s: nat, image: nat)
    | AskDevice(image: nat, d: nat)
    | EndProcess(image: nat)
    | LeaveBusy(image: nat)

  datatype Working = AwaitWork | TakeWork | PushBack | PostBack

  datatype Ending = AwaitEnded | TakeEnded | Destroy

  datatype Event =
    | Admit(admission: Admission)
    | Send(dispatching: Dispatching)
    | Link(linking: Linking)
    | Serve(cpu: int, message: Message)
    | Work(device: nat, working: Working)
    | Close(ending: Ending)

  // ---- list and queue operations ----

  /** The position of the node that runs on a CPU, as the handler looks it up. */
  function NodeOf(nodes: seq<Node>, cpu: int): (i: nat)
    ensures i <= |nodes|
    ensures i < |nodes| ==> nodes[i].cpu == cpu
    ensures forall j :: 0 <= j < i ==> nodes[j].cpu != cpu
  {
    if nodes == [] || nodes[0].cpu == cpu then 0 else 1 + NodeOf(nodes[1..], cpu)
  }

  function PidAt(nodes: seq<Node>, pid: int): (i: nat)
    ensures i <= |nodes|
    ensures i < |nodes| ==> nodes[i].proc.pcb.pid == pid
    ensures forall j :: 0 <= j < i ==> nodes[j].proc.pcb.pid != pid
  {
    if nodes == [] || nodes[0].proc.pcb.pid == pid then 0 else 1 + PidAt(nodes[1..], pid)
  }

  function Without<T>(list: seq<T>, i: nat): seq<T> {
    if i < |list| then list[..i] + list[i + 1..] else list
  }

  function IndexOf(list: seq<int>, cpu: int): (i: nat)
    ensures i <= |list|
    ensures i < |list| ==> list[i] == cpu
    ensures forall j :: 0 <= j < i ==> list[j] != cpu
  {
    if list == [] || list[0] == cpu then 0 else 1 + IndexOf(list[1..], cpu)
  }

  function WithoutFirst(list: seq<int>, cpu: int): (r: seq<int>)
    ensures cpu !in list ==> r == list
    ensures cpu in list ==> |r| == |list| - 1 && multiset(r) == multiset(list) - multiset{cpu}
  {
    var i := IndexOf(list, cpu);
    assert i < |list| ==> list == list[..i] + [cpu] + list[i + 1..];
    Without(list, i)
  }

  function RemoveExecuting(k: Kernel, pid: int): Kernel {
    k.(executing := Without(k.executing, PidAt(k.executing, pid)))
  }

  function AddFree(k: Kernel, cpu: int): Kernel {
    k.(free := k.free + [cpu], freeCount := k.freeCount + 1)
  }

  function AddReady(k: Kernel, p: Proc): Kernel {
    k.(ready := k.ready + [p], readyCount := k.readyCount + 1)
  }

  function StopProcessing(k: Kernel, n: Node): Kernel {
    AddFree(RemoveExecuting(k, n.proc.pcb.pid), n.cpu)
  }

  function ExitProcess(k: Kernel, n: Node): Kernel {
    var k1 := k.(ended := k.ended + [n.proc], endedCount := k.endedCount + 1, degree := k.degree + 1);
    RemoveExecuting(AddFree(k1, n.cpu), n.proc.pcb.pid)
  }

  /** The node in the executing list gets the PCB that the CPU sent. */
  function Updated(k: Kernel, i: nat, pcb: Pcb): Kernel
    requires i < |k.executing|
  {
    k.(executing := k.executing[i := k.executing[i].(proc := k.executing[i].proc.(pcb := pcb))])
  }

  /** The CPU has handed its process back. */
  function Released(k: Kernel, cpu: int): Kernel {
    k.(running := k.running - {cpu})
  }

  function Signalled(k: Kernel, s: nat): Kernel
    requires s < |k.semaphores|
  {
    var sem := k.semaphores[s];
    if sem.blocked == [] then k.(semaphores := k.semaphores[s := sem.(value := sem.value + 1)])
    else AddReady(k.(semaphores := k.semaphores[s := Semaphore(sem.value + 1, sem.blocked[1..])]), sem.blocked[0])
  }

  /** A wait that cannot be met blocks a copy of the node, and only then is the
      node given the PCB, made of the packet rather than of its data. */
  function Waited(k: Kernel, i: nat, s: nat): Kernel
    requires i < |k.executing| && s < |k.semaphores|
  {
    var sem, n := k.semaphores[s], k.executing[i];
    if sem.value > 0 then k.(semaphores := k.semaphores[s := sem.(value := sem.value - 1)])
    else
      var k1 := Updated(k.(semaphores := k.semaphores[s := sem.(blocked := sem.blocked + [n.proc])]),
                        i, Pcb(PROCESS_WAITING, 0));
      Released(StopProcessing(k1, k1.executing[i]), n.cpu)
  }

  function Blocked(k: Kernel, d: nat, p: Proc): Kernel
    requires d < |k.devices|
  {
    var dev := k.devices[d];
    k.(devices := k.devices[d := dev.(queue := dev.queue + [p], count := dev.count + 1)])
  }

  function WithDevice(k: Kernel, d: nat, dev: Device): Kernel
    requires d < |k.devices|
  {
    k.(devices := k.devices[d := dev])
  }

  // ---- the long-term scheduler ----

  predicate SortedByWeight(list: seq<Proc>) {
    forall i, j :: 0 <= i < j < |list| ==> list[i].weight <= list[j].weight
  }

  function NewProc(k: Kernel, weight: int, image: nat): Proc {
    Proc(Pcb(k.lastPid + 1, image), weight)
  }

  /** A thread goes past a counting semaphore only while it is positive. The
      library sort answers any reordering by weight. */
  predicate CanAdmit(k: Kernel, a: Admission) {
    match a
    case Arrive(weight, image, order) =>
      && !k.posting && SortedByWeight(order)
      && multiset(order) == multiset(k.incoming + [NewProc(k, weight, image)])
    case Refuse => !k.posting
    case PostIncoming => k.posting
    case TakeToken => k.admitter.Idle? && k.degree > 0
    case AwaitIncoming => k.admitter.Token? && k.incomingCount > 0
    case TakeIncoming => k.admitter.Cleared?
    case PushReady => k.admitter.Holding?
    case PostReady => k.admitter.Pushed?
  }

  function Admitted(k: Kernel, a: Admission): Kernel
    requires CanAdmit(k, a)
  {
    match a
    case Arrive(weight, image, order) =>
      k.(lastPid := k.lastPid + 1, queued := k.queued + [k.lastPid + 1], incoming := order, posting := true)
    case Refuse => k.(lastPid := k.lastPid + 1)
    case PostIncoming => k.(incomingCount := k.incomingCount + 1, posting := false)
    case TakeToken => k.(degree := k.degree - 1, admitter := Token)
    case AwaitIncoming => k.(incomingCount := k.incomingCount - 1, admitter := Cleared)
    case TakeIncoming =>
      if k.incoming == [] then k.(crashed := true)
      else k.(incoming := k.incoming[1..], admitter := Holding(k.incoming[0]))
    case PushReady => k.(ready := k.ready + [k.admitter.proc], admitter := Pushed)
    case PostReady => k.(readyCount := k.readyCount + 1, admitter := Idle)
  }

  predicate CanClose(k: Kernel, c: Ending) {
    match c
    case AwaitEnded => k.destroyer.Asleep? && k.endedCount > 0
    case TakeEnded => k.destroyer.Awake?
    case Destroy => k.destroyer.Destroying?
  }

  function Closed(k: Kernel, c: Ending): Kernel
    requires CanClose(k, c)
  {
    match c
    case AwaitEnded => k.(endedCount := k.endedCount - 1, destroyer := Awake)
    case TakeEnded =>
      if k.ended == [] then k.(crashed := true)
      else k.(ended := k.ended[1..], destroyer := Destroying(k.ended[0]))
    case Destroy => k.(destroyed := k.destroyed + [k.destroyer.proc], destroyer := Asleep)
  }

  // ---- the dispatcher and the free CPUs ----

  predicate CanSend(k: Kernel, b: Dispatching) {
    match b
    case AwaitReady => k.dispatcher.Waiting? && k.readyCount > 0
    case TakeReady => k.dispatcher.Entitled?
    case AwaitCpu => k.dispatcher.Carrying? && k.freeCount > 0
    case TakeCpu => k.dispatcher.Promised?
    case SendPcb => k.dispatcher.Loaded?
    case ListNode => k.dispatcher.Underway?
  }

  function Dispatched(k: Kernel, b: Dispatching): Kernel
    requires CanSend(k, b)
  {
    match b
    case AwaitReady => k.(readyCount := k.readyCount - 1, dispatcher := Entitled)
    case TakeReady =>
      if k.ready == [] then k.(crashed := true)
      else k.(ready := k.ready[1..], dispatcher := Carrying(k.ready[0]))
    case AwaitCpu => k.(freeCount := k.freeCount - 1, dispatcher := Promised(k.dispatcher.proc))
    case TakeCpu =>
      if k.free == [] then k.(crashed := true)
      else k.(free := k.free[1..], dispatcher := Loaded(k.dispatcher.proc, k.free[0]))
    case SendPcb =>
      k.(running := k.running[k.dispatcher.cpu := k.dispatcher.proc.pcb.pid],
         dispatcher := Underway(k.dispatcher.proc, k.dispatcher.cpu))
    case ListNode =>
      k.(executing := k.executing + [Node(k.dispatcher.proc, k.dispatcher.cpu)], dispatcher := Waiting)
  }

  /** Only a CPU without a process leaves idle. */
  predicate CanLink(k: Kernel, l: Linking) {
    l.LeaveIdle? ==> l.cpu !in k.running && NodeOf(k.executing, l.cpu) == |k.executing|
  }

  /** A CPU that leaves idle is looked up among the free only when nothing
      executes; otherwise the handler is given the node that it did not find. */
  function Linked(k: Kernel, l: Linking): Kernel
    requires CanLink(k, l)
  {
    match l
    case Connect(cpu) => AddFree(k, cpu)
    case LeaveIdle(cpu) =>
      if k.executing != [] then k.(crashed := true)
      else if cpu in k.free then k.(free := WithoutFirst(k.free, cpu), dropped := k.dropped + 1)
      else k
  }

  // ---- the thread that serves the CPUs ----

  /** Messages after which the CPU has no process. */
  predicate Leaves(m: Message) {
    !m.Signal? && !m.Wait?
  }

  /** A CPU speaks while it has a process, and names semaphores and devices that
      exist. */
  predicate CanServe(k: Kernel, cpu: int, m: Message) {
    && cpu in k.running
    && (m.Signal? || m.Wait? ==> m.s < |k.semaphores|)
    && (m.AskDevice? ==> m.d < |k.devices|)
  }

  predicate HasNode(k: Kernel, cpu: int) {
    NodeOf(k.executing, cpu) < |k.executing|
  }

  /** The handler gets the first node listed for the CPU, and stores in it the
      PCB sent. */
  function Served(k: Kernel, cpu: int, m: Message): Kernel
    requires CanServe(k, cpu, m)
  {
    var i := NodeOf(k.executing, cpu);
    if i == |k.executing| then Unlisted(k, cpu, m)
    else if m.Signal? then Signalled(k, m.s)
    else if m.Wait? then Waited(k, i, m.s)
    else
      var k1 := Updated(k, i, Pcb(k.running[cpu], m.image));
      Released(Left(k1, k1.executing[i], m), cpu)
  }

  /** No node is found: when nothing executes the message goes unanswered,
      otherwise its handler uses the node that is not there. */
  function Unlisted(k: Kernel, cpu: int, m: Message): Kernel {
    if k.executing != [] then k.(crashed := true)
    else if Leaves(m) then Released(k.(ignored := k.ignored + 1), cpu)
    else k.(ignored := k.ignored + 1)
  }

  /** The process of a node leaves its CPU. */
  function Left(k: Kernel, n: Node, m: Message): Kernel
    requires Leaves(m) && (m.AskDevice? ==> m.d < |k.devices|)
  {
    match m
    case EndQuantum(_) => AddReady(StopProcessing(k, n), n.proc)
    case AskDevice(_, d) => Blocked(StopProcessing(k, n), d, n.proc)
    case EndProcess(_) => ExitProcess(k, n)
    case LeaveBusy(_) => AddReady(RemoveExecuting(k, n.proc.pcb.pid), n.proc)
  }

  // ---- devices ----

  predicate CanWork(k: Kernel, d: nat, w: Working) {
    && d < |k.devices|
    && match w
       case AwaitWork => k.devices[d].worker.Resting? && k.devices[d].count > 0
       case TakeWork => k.devices[d].worker.Called?
       case PushBack => k.devices[d].worker.Serving?
       case PostBack => k.devices[d].worker.Returned?
  }

  function Worked(k: Kernel, d: nat, w: Working): Kernel
    requires CanWork(k, d, w)
  {
    var dev := k.devices[d];
    match w
    case AwaitWork => WithDevice(k, d, dev.(worker := Called, count := dev.count - 1))
    case TakeWork =>
      if dev.queue == [] then k.(crashed := true)
      else WithDevice(k, d, dev.(worker := Serving(dev.queue[0]), queue := dev.queue[1..]))
    case PushBack => WithDevice(k, d, dev.(worker := Returned)).(ready := k.ready + [dev.worker.proc])
    case PostBack => WithDevice(k, d, dev.(worker := Resting)).(readyCount := k.readyCount + 1)
  }

  // ---- the whole machine ----

  predicate Enabled(k: Kernel, e: Event) {
    && !k.crashed
    && match e
       case Admit(a) => CanAdmit(k, a)
       case Send(b) => CanSend(k, b)
       case Link(l) => CanLink(k, l)
       case Serve(cpu, m) => CanServe(k, cpu, m)
       case Work(d, w) => CanWork(k, d, w)
       case Close(c) => CanClose(k, c)
  }

  function Step(k: Kernel, e: Event): Kernel
    requires Enabled(k, e)
  {
    match e
    case Admit(a) => Admitted(k, a)
    case Send(b) => Dispatched(k, b)
    case Link(l) => Linked(k, l)
    case Serve(cpu, m) => Served(k, cpu, m)
    case Work(d, w) => Worked(k, d, w)
    case Close(c) => Closed(k, c)
  }

  // ---- runs ----

  predicate CanRun(k: Kernel, es: seq<Event>)
    decreases |es|
  {
    es == [] || (Enabled(k, es[0]) && CanRun(Step(k, es[0]), es[1..]))
  }

  function Run(k: Kernel, es: seq<Event>): Kernel
    requires CanRun(k, es)
    decreases |es|
  {
    if es == [] then k else Run(Step(k, es[0]), es[1..])
  }
}
