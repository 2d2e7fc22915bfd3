/** Each CPU is in one place: free, in the dispatcher's hand, or with one node of
    the executing list, which is that of the process it was sent. What breaks
    this is a wait that blocks, because it removes its node by a pid it has just
    overwritten, and a message that overtakes the listing of its node. */
module SchedulerCpus {
  import opened Scheduler
  import opened SchedulerCounts
  import opened SchedulerCensus

  function Cpus(nodes: seq<Node>): seq<int> {
    seq(|nodes|, i requires 0 <= i < |nodes| => nodes[i].cpu)
  }

  predicate InDispatcher(b: Dispatcher, c: int) {
    (b.Loaded? || b.Underway?) && b.cpu == c
  }

  function CpuPlaces(k: Kernel, c: int): nat {
    multiset(k.free)[c] + One(InDispatcher(k.dispatcher, c)) + multiset(Cpus(k.executing))[c]
  }

  ghost predicate Exclusive(k: Kernel) {
    forall c: int :: CpuPlaces(k, c) <= 1
  }

  /** The wait asked for cannot be met. */
  predicate Blocks(k: Kernel, e: Event) {
    && e.Serve? && e.message.Wait? && CanServe(k, e.cpu, e.message)
    && HasNode(k, e.cpu) && k.semaphores[e.message.s].value <= 0
  }

  /** No node listed before the one that blocks runs a process with the pid
      that the handler writes over its own. */
  predicate Clear(k: Kernel, e: Event) {
    Blocks(k, e) ==> NodeOf(k.executing, e.cpu) <= PidAt(k.executing, PROCESS_WAITING)
  }

  // ---- pieces of a step ----

  lemma CpusWithout(nodes: seq<Node>, i: nat, c: int)
    requires i < |nodes|
    ensures multiset(Cpus(Without(nodes, i)))[c] == multiset(Cpus(nodes))[c] - One(nodes[i].cpu == c)
  {
    var a, b := Cpus(nodes[..i]), Cpus(nodes[i + 1..]);
    assert Cpus(nodes) == a + [nodes[i].cpu] + b;
    assert Cpus(Without(nodes, i)) == a + b;
  }

  lemma CpusUpdate(nodes: seq<Node>, i: nat, p: Proc)
    requires i < |nodes|
    ensures Cpus(nodes[i := nodes[i].(proc := p)]) == Cpus(nodes)
  {
  }

  lemma {:induction false} TwoNodes(nodes: seq<Node>, i: nat)
    requires i < |nodes|
    ensures PidAt(nodes, nodes[i].proc.pcb.pid) < i ==> Count(Procs(nodes), nodes[i].proc.pcb.pid) >= 2
  {
    var pid, ps := nodes[i].proc.pcb.pid, Procs(nodes);
    var j := PidAt(nodes, pid);
    if j < i {
      CountAround(ps, j, pid);
      CountPositive(ps[j + 1..], i - j - 1, pid);
    }
  }

  /** A pid in one place names one node. */
  lemma {:induction false} UniqueNode(nodes: seq<Node>, i: nat)
    requires i < |nodes| && Count(Procs(nodes), nodes[i].proc.pcb.pid) <= 1
    ensures PidAt(nodes, nodes[i].proc.pcb.pid) == i
  {
    TwoNodes(nodes, i);
  }

  lemma PlacedIsUnique(k: Kernel, i: nat)
    requires Placed(k) && i < |k.executing|
    ensures PidAt(k.executing, k.executing[i].proc.pcb.pid) == i
  {
    hide Count, Sum;
    assert Places(k, k.executing[i].proc.pcb.pid) <= 1;
    UniqueNode(k.executing, i);
  }

  lemma SamePidsSameNode(nodes: seq<Node>, i: nat, p: Proc)
    requires i < |nodes| && p.pcb.pid == nodes[i].proc.pcb.pid && PidAt(nodes, p.pcb.pid) == i
    ensures PidAt(nodes[i := nodes[i].(proc := p)], p.pcb.pid) == i
  {
    var nodes' := nodes[i := nodes[i].(proc := p)];
    assert nodes'[i].proc.pcb.pid == p.pcb.pid;
    assert forall j :: 0 <= j < i ==> nodes'[j] == nodes[j];
  }

  /** Where the node to remove is found once its pid has been overwritten. */
  lemma OverwrittenNode(nodes: seq<Node>, i: nat)
    requires i < |nodes|
    ensures var nodes' := nodes[i := nodes[i].(proc := nodes[i].proc.(pcb := Pcb(PROCESS_WAITING, 0)))];
      PidAt(nodes', PROCESS_WAITING) == if i <= PidAt(nodes, PROCESS_WAITING) then i else PidAt(nodes, PROCESS_WAITING)
  {
    var nodes' := nodes[i := nodes[i].(proc := nodes[i].proc.(pcb := Pcb(PROCESS_WAITING, 0)))];
    var j, h := PidAt(nodes, PROCESS_WAITING), PidAt(nodes', PROCESS_WAITING);
    assert nodes'[i].proc.pcb.pid == PROCESS_WAITING;
    if h < i {
      assert nodes[h] == nodes'[h];
    }
    if j < i {
      assert nodes[j] == nodes'[j];
    }
  }

  lemma WaitCpus(k: Kernel, i: nat, s: nat, c: int)
    requires i < |k.executing| && s < |k.semaphores| && k.semaphores[s].value <= 0
    ensures var j := if i <= PidAt(k.executing, PROCESS_WAITING) then i else PidAt(k.executing, PROCESS_WAITING);
      CpuPlaces(Waited(k, i, s), c) ==
        CpuPlaces(k, c) + One(k.executing[i].cpu == c) - One(k.executing[j].cpu == c)
  {
    var p := k.executing[i].proc.(pcb := Pcb(PROCESS_WAITING, 0));
    var nodes := k.executing[i := k.executing[i].(proc := p)];
    OverwrittenNode(k.executing, i);
    CpusUpdate(k.executing, i, p);
    CpusWithout(nodes, PidAt(nodes, PROCESS_WAITING), c);
    hide Cpus;
  }

  lemma LeftCpus(k: Kernel, i: nat, m: Message, c: int)
    requires i < |k.executing| && PidAt(k.executing, k.executing[i].proc.pcb.pid) == i
    requires Leaves(m) && (m.AskDevice? ==> m.d < |k.devices|)
    ensures CpuPlaces(Left(k, k.executing[i], m), c) ==
      CpuPlaces(k, c) - One(m.LeaveBusy? && k.executing[i].cpu == c)
  {
    CpusWithout(k.executing, i, c);
    hide Cpus, PidAt;
  }

  lemma ServingCpus(k: Kernel, cpu: int, m: Message, c: int)
    requires Placed(k) && CanServe(k, cpu, m) && !Blocks(k, Serve(cpu, m)) && Trusted(k, Serve(cpu, m))
    ensures CpuPlaces(Served(k, cpu, m), c) ==
      CpuPlaces(k, c) - One(m.LeaveBusy? && HasNode(k, cpu) && cpu == c)
  {
    hide Placed, Cpus, PidAt, NodeOf, Left;
    var i := NodeOf(k.executing, cpu);
    if i < |k.executing| && Leaves(m) {
      var p := k.executing[i].proc.(pcb := Pcb(k.running[cpu], m.image));
      PlacedIsUnique(k, i);
      SamePidsSameNode(k.executing, i, p);
      CpusUpdate(k.executing, i, p);
      LeftCpus(Updated(k, i, p.pcb), i, m, c);
    }
  }

  lemma CpusSnoc(nodes: seq<Node>, n: Node)
    ensures Cpus(nodes + [n]) == Cpus(nodes) + [n.cpu]
  {
  }

  lemma SendingCpus(k: Kernel, b: Dispatching, c: int)
    requires CanSend(k, b)
    ensures CpuPlaces(Dispatched(k, b), c) == CpuPlaces(k, c)
  {
    hide Cpus;
    if b.TakeCpu? && k.free != [] {
      CountFirst(k.free, c);
    } else if b.ListNode? {
      CpusSnoc(k.executing, Node(k.dispatcher.proc, k.dispatcher.cpu));
      CountLast(Cpus(k.executing), k.dispatcher.cpu, c);
    }
  }

  lemma CountFirst(list: seq<int>, c: int)
    requires list != []
    ensures multiset(list)[c] == One(list[0] == c) + multiset(list[1..])[c]
  {
    assert list == [list[0]] + list[1..];
  }

  lemma CountLast(list: seq<int>, x: int, c: int)
    ensures multiset(list + [x])[c] == multiset(list)[c] + One(x == c)
  {
  }

  /** A socket number is not that of a connected CPU. */
  predicate ConnectsNew(k: Kernel, e: Event) {
    e.Link? && e.linking.Connect? ==> CpuPlaces(k, e.linking.cpu) == 0
  }

  lemma WorkCpus(k: Kernel, d: nat, w: Working, c: int)
    requires CanWork(k, d, w)
    ensures CpuPlaces(Worked(k, d, w), c) == CpuPlaces(k, c)
  {
    hide Cpus;
  }

  lemma ClosingCpus(k: Kernel, e: Ending, c: int)
    requires CanClose(k, e)
    ensures CpuPlaces(Closed(k, e), c) == CpuPlaces(k, c)
  {
    hide Cpus;
  }

  lemma AdmissionCpus(k: Kernel, a: Admission, c: int)
    requires CanAdmit(k, a)
    ensures CpuPlaces(Admitted(k, a), c) == CpuPlaces(k, c)
  {
    hide Cpus;
  }

  lemma LinkingCpus(k: Kernel, l: Linking, c: int)
    requires CanLink(k, l) && ConnectsNew(k, Link(l)) && CpuPlaces(k, c) <= 1
    ensures CpuPlaces(Linked(k, l), c) <= 1
  {
    hide Cpus;
  }

  lemma UnblockedCpus(k: Kernel, e: Event, c: int)
    requires Placed(k) && Exclusive(k) && Enabled(k, e) && ConnectsNew(k, e) && !Blocks(k, e) && Trusted(k, e)
    ensures CpuPlaces(Step(k, e), c) <= 1
  {
    assert CpuPlaces(k, c) <= 1;
    hide Placed, Exclusive, CpuPlaces, Served, Dispatched, Linked, Admitted, Worked;
    match e
    case Admit(a) => AdmissionCpus(k, a, c);
    case Work(d, w) => WorkCpus(k, d, w, c);
    case Send(b) => SendingCpus(k, b, c);
    case Link(l) => LinkingCpus(k, l, c);
    case Serve(cpu, m) => ServingCpus(k, cpu, m, c);
    case Close(_) => ClosingCpus(k, e.ending, c);
  }

  /** Each step keeps every CPU in at most one place if and only if it is not a
      wait that blocks while a node listed before it runs pid 11. */
  lemma ExclusiveIffClear(k: Kernel, e: Event)
    requires Placed(k) && Exclusive(k) && Enabled(k, e) && ConnectsNew(k, e) && Trusted(k, e)
    ensures Exclusive(Step(k, e)) <==> Clear(k, e)
  {
    if Blocks(k, e) {
      var i, j := NodeOf(k.executing, e.cpu), PidAt(k.executing, PROCESS_WAITING);
      var k1 := Step(k, e);
      assert k1 == Waited(k, i, e.message.s);
      hide Waited, CpuPlaces, Placed;
      forall c: int ensures CpuPlaces(k1, c) ==
        CpuPlaces(k, c) + One(e.cpu == c) - One(k.executing[if i <= j then i else j].cpu == c)
      {
        WaitCpus(k, i, e.message.s, c);
      }
      if j < i {
        Occupied(k, i);
        assert CpuPlaces(k1, e.cpu) == 2;
      }
    } else {
      forall c: int ensures CpuPlaces(Step(k, e), c) <= 1 {
        UnblockedCpus(k, e, c);
      }
    }
  }

  lemma Occupied(k: Kernel, i: nat)
    requires Exclusive(k) && i < |k.executing|
    ensures CpuPlaces(k, k.executing[i].cpu) == 1
  {
    var c := k.executing[i].cpu;
    assert CpuPlaces(k, c) <= 1;
    assert Cpus(k.executing)[i] == c;
    assert c in multiset(Cpus(k.executing));
  }

  // ---- the node of a CPU is that of the process it was sent ----

  predicate Busy(k: Kernel, c: int) {
    HasNode(k, c) || (k.dispatcher.Underway? && k.dispatcher.cpu == c)
  }

  ghost predicate BusyRun(k: Kernel) {
    forall c: int :: c in k.running <==> Busy(k, c)
  }

  ghost predicate NodesRun(k: Kernel) {
    forall i :: 0 <= i < |k.executing| ==>
      k.executing[i].cpu in k.running && k.running[k.executing[i].cpu] == k.executing[i].proc.pcb.pid
  }

  /** The busy CPUs are those with a node and the one just sent a process, each
      with the process it was sent. */
  ghost predicate Matched(k: Kernel) {
    && BusyRun(k) && NodesRun(k)
    && (k.dispatcher.Underway? ==>
          k.dispatcher.cpu in k.running && k.running[k.dispatcher.cpu] == k.dispatcher.proc.pcb.pid)
  }

  lemma MatchedIsTrusted(k: Kernel, e: Event)
    requires Matched(k) && Enabled(k, e)
    ensures Trusted(k, e)
  {
    if Handing(k, e) {
      var i := NodeOf(k.executing, e.cpu);
      assert k.running[k.executing[i].cpu] == k.executing[i].proc.pcb.pid;
    }
  }

  /** The process of the CPU leaves it in this step. */
  predicate Departs(k: Kernel, e: Event) {
    Handing(k, e) || Blocks(k, e)
  }

  lemma LeftNodes(k: Kernel, i: nat, m: Message)
    requires i < |k.executing| && PidAt(k.executing, k.executing[i].proc.pcb.pid) == i
    requires Leaves(m) && (m.AskDevice? ==> m.d < |k.devices|)
    ensures Left(k, k.executing[i], m).executing == Without(k.executing, i)
  {
    hide PidAt, Without;
  }

  lemma UpdatedWithout(nodes: seq<Node>, i: nat, n: Node)
    requires i < |nodes|
    ensures Without(nodes[i := n], i) == Without(nodes, i)
  {
  }

  lemma BlockedNodes(k: Kernel, i: nat, s: nat)
    requires i < |k.executing| && s < |k.semaphores| && k.semaphores[s].value <= 0
    requires i <= PidAt(k.executing, PROCESS_WAITING)
    ensures Waited(k, i, s).executing == Without(k.executing, i)
  {
    OverwrittenNode(k.executing, i);
    var n := k.executing[i].(proc := k.executing[i].proc.(pcb := Pcb(PROCESS_WAITING, 0)));
    UpdatedWithout(k.executing, i, n);
    hide PidAt, Without;
  }

  lemma HandedNodes(k: Kernel, e: Event)
    requires Placed(k) && Enabled(k, e) && Handing(k, e) && Trusted(k, e)
    ensures Step(k, e).executing == Without(k.executing, NodeOf(k.executing, e.cpu))
    ensures Step(k, e).running == k.running - {e.cpu} && Step(k, e).dispatcher == k.dispatcher
    ensures Step(k, e).ignored == k.ignored
  {
    hide Placed, PidAt, NodeOf, Left, Without;
    var i := NodeOf(k.executing, e.cpu);
    var p := k.executing[i].proc.(pcb := Pcb(k.running[e.cpu], e.message.image));
    PlacedIsUnique(k, i);
    SamePidsSameNode(k.executing, i, p);
    var k1 := Updated(k, i, p.pcb);
    LeftNodes(k1, i, e.message);
    LeftRunning(k1, k1.executing[i], e.message);
    UpdatedWithout(k.executing, i, k1.executing[i]);
  }

  /** In a clear step a process that leaves its CPU takes its own node along. */
  lemma ServedNodes(k: Kernel, e: Event)
    requires Placed(k) && Enabled(k, e) && e.Serve? && HasNode(k, e.cpu) && Trusted(k, e) && Clear(k, e)
    ensures var k1 := Step(k, e);
      && k1.dispatcher == k.dispatcher && k1.ignored == k.ignored
      && k1.executing == (if Departs(k, e) then Without(k.executing, NodeOf(k.executing, e.cpu)) else k.executing)
      && k1.running == (if Departs(k, e) then k.running - {e.cpu} else k.running)
  {
    hide Placed, PidAt, NodeOf, Left, Without;
    if Handing(k, e) {
      HandedNodes(k, e);
    } else if Blocks(k, e) {
      BlockedNodes(k, NodeOf(k.executing, e.cpu), e.message.s);
    }
  }

  lemma {:induction false} NodeIn(nodes: seq<Node>, i: nat)
    requires i < |nodes|
    ensures NodeOf(nodes, nodes[i].cpu) <= i
  {
  }

  /** No CPU has two nodes. */
  lemma OneNode(k: Kernel, i: nat, j: nat)
    requires Exclusive(k) && i < j < |k.executing|
    ensures k.executing[i].cpu != k.executing[j].cpu
  {
    var c, cs := k.executing[i].cpu, Cpus(k.executing);
    assert CpuPlaces(k, c) <= 1;
    assert cs == cs[..j] + [cs[j]] + cs[j + 1..];
    assert cs[..j][i] == c;
    assert c in multiset(cs[..j]);
  }

  /** Where the nodes that stay come from. */
  function Origin(i: nat, h: nat): nat {
    if h < i then h else h + 1
  }

  lemma OriginOf(nodes: seq<Node>, i: nat, h: nat)
    requires i < |nodes| && h < |Without(nodes, i)|
    ensures Origin(i, h) < |nodes| && Origin(i, h) != i && Without(nodes, i)[h] == nodes[Origin(i, h)]
  {
  }

  /** A node that stays is on another CPU. */
  lemma StaysElsewhere(k: Kernel, i: nat, h: nat)
    requires Exclusive(k) && i < |k.executing| && h < |Without(k.executing, i)|
    ensures Origin(i, h) < |k.executing| && Without(k.executing, i)[h] == k.executing[Origin(i, h)]
    ensures Without(k.executing, i)[h].cpu != k.executing[i].cpu
  {
    var j := Origin(i, h);
    OriginOf(k.executing, i, h);
    OneNode(k, if i < j then i else j, if i < j then j else i);
  }

  lemma StaysListed(nodes: seq<Node>, i: nat, j: nat)
    requires i < |nodes| && j < |nodes| && i != j
    ensures NodeOf(Without(nodes, i), nodes[j].cpu) < |Without(nodes, i)|
  {
    var rest, h := Without(nodes, i), if j < i then j else j - 1;
    assert rest[h] == nodes[j];
    NodeIn(rest, h);
  }

  lemma RemovedNode(k: Kernel, cpu: int, c: int)
    requires Exclusive(k) && HasNode(k, cpu)
    ensures var rest := Without(k.executing, NodeOf(k.executing, cpu));
      NodeOf(rest, c) < |rest| <==> HasNode(k, c) && c != cpu
  {
    var i, nodes := NodeOf(k.executing, cpu), k.executing;
    var rest := Without(nodes, i);
    hide Exclusive, Without;
    var h := NodeOf(rest, c);
    if h < |rest| {
      StaysElsewhere(k, i, h);
      NodeIn(nodes, Origin(i, h));
    } else if HasNode(k, c) && c != cpu {
      StaysListed(nodes, i, NodeOf(nodes, c));
    }
  }

  lemma BusyWithout(k: Kernel, cpu: int, k1: Kernel)
    requires Exclusive(k) && BusyRun(k) && HasNode(k, cpu) && k1.dispatcher == k.dispatcher
    requires k1.executing == Without(k.executing, NodeOf(k.executing, cpu)) && k1.running == k.running - {cpu}
    ensures BusyRun(k1)
  {
    NotUnderway(k, NodeOf(k.executing, cpu));
    hide Exclusive, NodeOf, Without;
    forall c: int ensures c in k1.running <==> Busy(k1, c) {
      RemovedNode(k, cpu, c);
      assert c in k.running <==> Busy(k, c);
    }
  }

  lemma NodesWithoutOne(k: Kernel, cpu: int, k1: Kernel)
    requires Exclusive(k) && NodesRun(k) && HasNode(k, cpu)
    requires k1.executing == Without(k.executing, NodeOf(k.executing, cpu)) && k1.running == k.running - {cpu}
    ensures NodesRun(k1)
  {
    var i := NodeOf(k.executing, cpu);
    hide Exclusive, NodeOf, Without;
    forall h | 0 <= h < |k1.executing|
      ensures k1.executing[h].cpu in k1.running && k1.running[k1.executing[h].cpu] == k1.executing[h].proc.pcb.pid
    {
      StaysElsewhere(k, i, h);
    }
  }

  /** The busy CPUs but one, when its node goes. */
  lemma MatchedWithout(k: Kernel, cpu: int, k1: Kernel)
    requires Exclusive(k) && Matched(k) && HasNode(k, cpu) && k1.dispatcher == k.dispatcher
    requires k1.executing == Without(k.executing, NodeOf(k.executing, cpu)) && k1.running == k.running - {cpu}
    ensures Matched(k1)
  {
    NotUnderway(k, NodeOf(k.executing, cpu));
    hide Exclusive, NodeOf, Without, BusyRun, NodesRun;
    BusyWithout(k, cpu, k1);
    NodesWithoutOne(k, cpu, k1);
  }

  lemma MatchedServe(k: Kernel, e: Event)
    requires Placed(k) && Exclusive(k) && Matched(k) && Enabled(k, e)
    requires e.Serve? && HasNode(k, e.cpu) && Clear(k, e)
    ensures Matched(Step(k, e))
  {
    hide Placed;
    MatchedIsTrusted(k, e);
    ServedNodes(k, e);
    if Departs(k, e) {
      hide Step, Exclusive, NodeOf, Matched, Without;
      MatchedWithout(k, e.cpu, Step(k, e));
    } else {
      hide Step, Exclusive, NodeOf, Without;
    }
  }

  /** A CPU with a node is not in the dispatcher's hand. */
  lemma NotUnderway(k: Kernel, i: nat)
    requires Exclusive(k) && i < |k.executing|
    ensures !InDispatcher(k.dispatcher, k.executing[i].cpu)
  {
    Occupied(k, i);
    var c := k.executing[i].cpu;
    assert Cpus(k.executing)[i] == c;
    assert c in multiset(Cpus(k.executing));
  }

  lemma MatchedSent(k: Kernel)
    requires Exclusive(k) && Matched(k) && k.dispatcher.Loaded?
    ensures Matched(Dispatched(k, SendPcb))
  {
    forall i | 0 <= i < |k.executing| ensures k.executing[i].cpu != k.dispatcher.cpu {
      NotUnderway(k, i);
    }
    hide Exclusive, NodeOf;
  }

  lemma ListedNode(nodes: seq<Node>, n: Node, c: int)
    ensures NodeOf(nodes + [n], c) < |nodes + [n]| <==> NodeOf(nodes, c) < |nodes| || n.cpu == c
  {
    var i, j := NodeOf(nodes, c), NodeOf(nodes + [n], c);
    hide NodeOf;
    assert (nodes + [n])[|nodes|] == n;
    assert forall h :: 0 <= h < |nodes| ==> (nodes + [n])[h] == nodes[h];
  }

  lemma MatchedListed(k: Kernel)
    requires Matched(k) && k.dispatcher.Underway?
    ensures Matched(Dispatched(k, ListNode))
  {
    var n, k1 := Node(k.dispatcher.proc, k.dispatcher.cpu), Dispatched(k, ListNode);
    forall c: int ensures HasNode(k1, c) <==> HasNode(k, c) || n.cpu == c {
      ListedNode(k.executing, n, c);
    }
    hide NodeOf, HasNode;
  }

  lemma MatchedSend(k: Kernel, b: Dispatching)
    requires Exclusive(k) && Matched(k) && CanSend(k, b)
    ensures Matched(Dispatched(k, b))
  {
    hide Exclusive, NodeOf;
    if b.SendPcb? {
      MatchedSent(k);
    } else if b.ListNode? {
      MatchedListed(k);
    }
  }

  lemma MatchedQuiet(k: Kernel, e: Event)
    requires Matched(k) && Enabled(k, e) && !e.Serve? && !e.Send?
    ensures Matched(Step(k, e)) && Step(k, e).ignored == k.ignored
  {
    QuietFields(k, e);
    hide Step, Enabled;
  }

  lemma QuietFields(k: Kernel, e: Event)
    requires Enabled(k, e) && !e.Serve? && !e.Send?
    ensures Step(k, e) == Step(k, e).(executing := k.executing, running := k.running, dispatcher := k.dispatcher,
                                      ignored := k.ignored)
  {
    hide WithoutFirst;
  }

  // ---- every step and every run ----

  ghost predicate Orderly(k: Kernel) {
    Placed(k) && Exclusive(k) && Matched(k) && k.ignored == 0 && !k.crashed
  }

  /** The handler of a message finds a node of its CPU. */
  predicate Answered(k: Kernel, e: Event) {
    e.Serve? ==> HasNode(k, e.cpu)
  }

  predicate Regular(k: Kernel, e: Event) {
    Clear(k, e) && Answered(k, e) && !NullNode(k, e) && !NullCpu(k, e)
  }

  lemma UnlistedFields(k: Kernel, e: Event)
    requires Enabled(k, e) && e.Serve? && !HasNode(k, e.cpu) && k.executing == []
    ensures Step(k, e).ignored == k.ignored + 1
  {
  }

  lemma MatchedStep(k: Kernel, e: Event)
    requires Placed(k) && Exclusive(k) && Matched(k) && Enabled(k, e) && Regular(k, e)
    ensures Matched(Step(k, e)) && Step(k, e).ignored == k.ignored
  {
    match e
    case Serve(cpu, m) =>
      hide Matched, Placed, Exclusive;
      MatchedServe(k, e);
      MatchedIsTrusted(k, e);
      ServedNodes(k, e);
      hide Step;
    case Send(b) =>
      hide Matched, Placed, Exclusive;
      MatchedSend(k, b);
    case _ =>
      hide Matched, Placed, Exclusive, Step;
      MatchedQuiet(k, e);
  }

  /** In every interleaving a step keeps all of it -- each pid in one place, each
      CPU in one place and running the process of its node, no message ignored
      and no null node used -- if and only if it is none of four: a wait that
      blocks with pid 11 listed earlier, a message of a CPU whose node is not
      listed, the departure of an idle CPU while others execute, and the taking
      of a CPU whose entry such a departure dropped. */
  lemma OrderlyIffRegular(k: Kernel, e: Event)
    requires Counted(k) && Orderly(k) && Enabled(k, e) && ConnectsNew(k, e)
    ensures Orderly(Step(k, e)) <==> Regular(k, e)
  {
    MatchedIsTrusted(k, e);
    hide Counted, Placed, Exclusive, Matched, Step, Enabled, HasNode, Trusted, Blocks, NullCpu;
    PlacedIffTrusted(k, e);
    ExclusiveIffClear(k, e);
    CrashIff(k, e);
    if Regular(k, e) {
      MatchedStep(k, e);
    } else if e.Serve? && !HasNode(k, e.cpu) && k.executing == [] {
      UnlistedFields(k, e);
    }
  }

  lemma InitialOrderly(degree: nat, values: seq<int>, devices: nat)
    ensures Orderly(Initial(degree, values, devices))
  {
    InitialPlaced(degree, values, devices);
    hide Placed;
  }

  ghost predicate RegularRun(k: Kernel, es: seq<Event>)
    requires CanRun(k, es)
    decreases |es|
  {
    es == [] || (ConnectsNew(k, es[0]) && Regular(k, es[0]) && RegularRun(Step(k, es[0]), es[1..]))
  }

  lemma {:induction false} RunKeepsOrder(k: Kernel, es: seq<Event>)
    requires Counted(k) && Orderly(k) && CanRun(k, es) && RegularRun(k, es)
    ensures Counted(Run(k, es)) && Orderly(Run(k, es)) && TrustedRun(k, es)
    decreases |es|
  {
    hide Counted, Placed, Exclusive, Matched, Step, Enabled, Regular, ConnectsNew, Trusted;
    if es != [] {
      StepCounts(k, es[0]);
      OrderlyIffRegular(k, es[0]);
      MatchedIsTrusted(k, es[0]);
      RunKeepsOrder(Step(k, es[0]), es[1..]);
    }
  }

  /** In every run from the start without such steps, each CPU is in at most one
      place and what a busy CPU sends is handled for the process it runs. */
  lemma EveryCpuInOnePlace(degree: nat, values: seq<int>, devices: nat, es: seq<Event>, cpu: int)
    requires CanRun(Initial(degree, values, devices), es) && RegularRun(Initial(degree, values, devices), es)
    ensures var k := Run(Initial(degree, values, devices), es);
      && CpuPlaces(k, cpu) <= 1
      && (HasNode(k, cpu) ==> cpu in k.running && PidOn(k, cpu) == k.running[cpu])
  {
    hide CpuPlaces, CanRun, RegularRun, Run, Counted, Placed;
    InitialOrderly(degree, values, devices);
    InitialCounts(degree, values, devices);
    RunKeepsOrder(Initial(degree, values, devices), es);
  }

  // ---- what leaves a CPU ----

  /** A process that leaves its CPU other than by a wait goes on, or ends, with
      the whole PCB that the CPU sent, at the end of the queue it goes to. */
  lemma HandsBackSentPcb(k: Kernel, cpu: int, m: Message)
    requires CanServe(k, cpu, m) && Leaves(m) && HasNode(k, cpu)
    ensures var n, k1 := k.executing[NodeOf(k.executing, cpu)], Served(k, cpu, m);
      var p := Proc(Pcb(k.running[cpu], m.image), n.proc.weight);
      && k1.free == (if m.LeaveBusy? then k.free else k.free + [cpu])
      && k1.ready == (if m.EndQuantum? || m.LeaveBusy? then k.ready + [p] else k.ready)
      && k1.ended == (if m.EndProcess? then k.ended + [p] else k.ended)
      && |k1.devices| == |k.devices|
      && forall d :: 0 <= d < |k.devices| ==>
           k1.devices[d].queue == if m.AskDevice? && d == m.d then k.devices[d].queue + [p] else k.devices[d].queue
  {
    hide PidAt, Without;
  }

  lemma WithoutOneCpu(list: seq<int>, cpu: int)
    requires cpu in list
    ensures var i := IndexOf(list, cpu);
      && i < |list| && list[i] == cpu && cpu !in list[..i]
      && WithoutFirst(list, cpu) == list[..i] + list[i + 1..]
  {
    var j :| 0 <= j < |list| && list[j] == cpu;
    hide IndexOf;
  }

  /** A CPU that leaves idle takes its own entry from the free list and leaves the
      others there in their order. Where each CPU is in one place, that one is in
      none afterwards, and the others are where they were. */
  lemma LeavesByItself(k: Kernel, cpu: int)
    requires CanLink(k, LeaveIdle(cpu)) && k.executing == []
    ensures cpu !in k.free ==> Linked(k, LeaveIdle(cpu)) == k
    ensures cpu in k.free ==>
      exists i :: 0 <= i < |k.free| && k.free[i] == cpu && cpu !in k.free[..i]
        && Linked(k, LeaveIdle(cpu)).free == k.free[..i] + k.free[i + 1..]
    ensures forall c: int :: c != cpu ==> CpuPlaces(Linked(k, LeaveIdle(cpu)), c) == CpuPlaces(k, c)
    ensures Exclusive(k) && cpu in k.free ==> CpuPlaces(Linked(k, LeaveIdle(cpu)), cpu) == 0
  {
    if cpu in k.free {
      WithoutOneCpu(k.free, cpu);
      assert CpuPlaces(k, cpu) <= 1 || !Exclusive(k);
    }
    hide Cpus, WithoutFirst, IndexOf;
  }
}
