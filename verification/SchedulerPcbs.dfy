/** With which PCB a process goes on: while it runs, its node keeps the one it
    was dispatched with, and a wait that blocks queues that one. */
module SchedulerPcbs {
  import opened Scheduler
  import opened SchedulerCounts
  import opened SchedulerCensus
  import opened SchedulerCpus

  /** In this run the process on the CPU neither hands itself back nor blocks. */
  ghost predicate Stays(k: Kernel, es: seq<Event>, cpu: int)
    requires CanRun(k, es)
    decreases |es|
  {
    es == [] || (!(Departs(k, es[0]) && es[0].cpu == cpu) && Stays(Step(k, es[0]), es[1..], cpu))
  }

  function NodeOn(k: Kernel, cpu: int): Node
    requires HasNode(k, cpu)
  {
    k.executing[NodeOf(k.executing, cpu)]
  }

  lemma NodeStaysListed(nodes: seq<Node>, i: nat, cpu: int)
    requires i < |nodes| && nodes[i].cpu != cpu && NodeOf(nodes, cpu) < |nodes|
    ensures var rest := Without(nodes, i);
      NodeOf(rest, cpu) < |rest| && rest[NodeOf(rest, cpu)] == nodes[NodeOf(nodes, cpu)]
  {
    var j, rest := NodeOf(nodes, cpu), Without(nodes, i);
    StaysListed(nodes, i, j);
    var h := NodeOf(rest, cpu);
    OriginOf(nodes, i, h);
    hide NodeOf, Without;
    if j < i {
      assert rest[j] == nodes[j] by { RestAt(nodes, i, j); }
    } else {
      assert rest[j - 1] == nodes[j] by { RestAt(nodes, i, j - 1); }
    }
  }

  lemma RestAt(nodes: seq<Node>, i: nat, h: nat)
    requires i < |nodes| && h < |nodes| - 1
    ensures |Without(nodes, i)| == |nodes| - 1
    ensures Without(nodes, i)[h] == if h < i then nodes[h] else nodes[h + 1]
  {
  }

  lemma NodeBeforeLast(nodes: seq<Node>, n: Node, cpu: int)
    requires NodeOf(nodes, cpu) < |nodes|
    ensures NodeOf(nodes + [n], cpu) == NodeOf(nodes, cpu)
  {
    var i, j := NodeOf(nodes, cpu), NodeOf(nodes + [n], cpu);
    hide NodeOf;
    assert (nodes + [n])[i] == nodes[i];
    assert forall h :: 0 <= h < |nodes| ==> (nodes + [n])[h] == nodes[h];
  }

  lemma SentNodes(k: Kernel, b: Dispatching)
    requires CanSend(k, b)
    ensures Dispatched(k, b).executing ==
      if b.ListNode? then k.executing + [Node(k.dispatcher.proc, k.dispatcher.cpu)] else k.executing
  {
  }

  /** No other thread and no other process touches the node. */
  lemma NodeStays(k: Kernel, e: Event, cpu: int)
    requires Orderly(k) && Enabled(k, e) && Regular(k, e) && HasNode(k, cpu) && !(Departs(k, e) && e.cpu == cpu)
    ensures HasNode(Step(k, e), cpu) && NodeOn(Step(k, e), cpu) == NodeOn(k, cpu)
  {
    match e
    case Serve(c, m) =>
      MatchedIsTrusted(k, e);
      hide Placed, Exclusive, Matched;
      ServedNodes(k, e);
      hide Step, NodeOf, Without;
      if Departs(k, e) {
        NodeStaysListed(k.executing, NodeOf(k.executing, c), cpu);
      }
    case Send(b) =>
      hide Placed, Exclusive, Matched;
      SentNodes(k, b);
      if b.ListNode? {
        NodeBeforeLast(k.executing, Node(k.dispatcher.proc, k.dispatcher.cpu), cpu);
      }
      hide Dispatched, NodeOf;
    case _ =>
      hide Placed, Exclusive, Matched;
      QuietFields(k, e);
      hide Step, NodeOf;
  }

  lemma {:induction false} NodeStaysOverRun(k: Kernel, es: seq<Event>, cpu: int)
    requires Counted(k) && Orderly(k) && CanRun(k, es) && RegularRun(k, es) && HasNode(k, cpu) && Stays(k, es, cpu)
    ensures Counted(Run(k, es)) && Orderly(Run(k, es))
    ensures HasNode(Run(k, es), cpu) && NodeOn(Run(k, es), cpu) == NodeOn(k, cpu)
    decreases |es|
  {
    hide Counted, Orderly, Step, Enabled, Regular, ConnectsNew, HasNode, NodeOn, Departs;
    if es != [] {
      NodeStays(k, es[0], cpu);
      StepCounts(k, es[0]);
      OrderlyIffRegular(k, es[0]);
      NodeStaysOverRun(Step(k, es[0]), es[1..], cpu);
    }
  }

  lemma BlockedCopy(k: Kernel, e: Event)
    requires Enabled(k, e) && Blocks(k, e)
    ensures |Step(k, e).semaphores| == |k.semaphores|
    ensures var s := e.message.s;
      Step(k, e).semaphores[s].blocked == k.semaphores[s].blocked + [NodeOn(k, e.cpu).proc]
  {
    WaitFields(k, NodeOf(k.executing, e.cpu), e.message.s);
    hide Waited;
  }

  lemma JustListed(k: Kernel)
    requires Orderly(k) && k.dispatcher.Underway?
    ensures var k1 := Dispatched(k, ListNode);
      HasNode(k1, k.dispatcher.cpu) && NodeOn(k1, k.dispatcher.cpu) == Node(k.dispatcher.proc, k.dispatcher.cpu)
  {
    var n := Node(k.dispatcher.proc, k.dispatcher.cpu);
    if HasNode(k, n.cpu) {
      NotUnderway(k, NodeOf(k.executing, n.cpu));
      assert false;
    }
    hide Orderly;
    ListedNode(k.executing, n, n.cpu);
    assert (k.executing + [n])[|k.executing|] == n;
    assert forall h :: 0 <= h < |k.executing| ==> (k.executing + [n])[h] == k.executing[h];
    hide NodeOf;
  }

  /** A process dispatched with a node waits with that same node, whatever else
      happens until it blocks and whatever PCB its CPU then sends: its queue, and
      so its next dispatch, get the PCB of the last one. */
  lemma BlocksWithDispatchedPcb(k: Kernel, es: seq<Event>, s: nat, image: nat)
    requires Counted(k) && Orderly(k) && k.dispatcher.Underway? && Enabled(k, Send(ListNode))
    requires CanRun(Step(k, Send(ListNode)), es) && RegularRun(Step(k, Send(ListNode)), es)
    requires Stays(Step(k, Send(ListNode)), es, k.dispatcher.cpu)
    requires var k1, e := Run(Step(k, Send(ListNode)), es), Serve(k.dispatcher.cpu, Wait(s, image));
      Enabled(k1, e) && Blocks(k1, e)
    ensures var p, k1, e := k.dispatcher.proc, Run(Step(k, Send(ListNode)), es), Serve(k.dispatcher.cpu, Wait(s, image));
      var k2 := Step(k1, e);
      && |k2.semaphores| == |k1.semaphores| && s < |k1.semaphores|
      && k2.semaphores[s].blocked == k1.semaphores[s].blocked + [p]
      && p.pcb.pid == k1.running[e.cpu]
  {
    var cpu, k0 := k.dispatcher.cpu, Step(k, Send(ListNode));
    JustListed(k);
    ListedIsOrderly(k);
    hide Counted, Placed, Exclusive, Step, CanRun, Run, RegularRun, Stays;
    NodeStaysOverRun(k0, es, cpu);
    BlockedCopy(Run(k0, es), Serve(cpu, Wait(s, image)));
    RunsItsNode(Run(k0, es), cpu);
  }

  lemma ListedIsOrderly(k: Kernel)
    requires Counted(k) && Orderly(k) && k.dispatcher.Underway? && Enabled(k, Send(ListNode))
    ensures Counted(Step(k, Send(ListNode))) && Orderly(Step(k, Send(ListNode)))
  {
    hide Counted, Placed, Exclusive, Matched, Step;
    StepCounts(k, Send(ListNode));
    OrderlyIffRegular(k, Send(ListNode));
  }

  lemma RunsItsNode(k: Kernel, cpu: int)
    requires Matched(k) && HasNode(k, cpu)
    ensures cpu in k.running && k.running[cpu] == NodeOn(k, cpu).proc.pcb.pid
  {
  }
}
