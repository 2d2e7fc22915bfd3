/** The rounds of the kernel's threads: what each does from one rest to the next. */
module SchedulerRounds {
  import opened Scheduler
  import opened SchedulerTraces

  function P(pid: int): Proc {
    Proc(Pcb(pid, 0), 0)
  }

  function Refusals(n: nat): seq<Event> {
    if n == 0 then [] else [Admit(Refuse)] + Refusals(n - 1)
  }

  /** Programs that do not fit spend pids. */
  lemma {:induction false} Refusing(k: Kernel, n: nat)
    requires !k.crashed && !k.posting
    ensures Reaches(k, Refusals(n), k.(lastPid := k.lastPid + n))
    decreases n
  {
    if n == 0 {
      Stand(k);
    } else {
      var k1 := Step(k, Admit(Refuse));
      Refusing(k1, n - 1);
      First(k, Admit(Refuse), Refusals(n - 1), k.(lastPid := k.lastPid + n));
    }
  }

  /** A program arrives. */
  function Arrival(pid: int): seq<Event> {
    [Admit(Arrive(0, 0, [P(pid)]))] + ([Admit(PostIncoming)] + [Admit(TakeToken)])
  }

  function Admittance(): seq<Event> {
    [Admit(AwaitIncoming)] + ([Admit(TakeIncoming)] + ([Admit(PushReady)] + [Admit(PostReady)]))
  }

  predicate Quiet(k: Kernel) {
    && !k.crashed && !k.posting && k.incoming == [] && k.incomingCount == 0 && k.admitter.Idle? && k.dispatcher.Waiting?
  }

  lemma Arriving(k: Kernel)
    requires Quiet(k) && k.degree > 0
    ensures var pid := k.lastPid + 1;
      Reaches(k, Arrival(pid), k.(lastPid := pid, queued := k.queued + [pid], incoming := [P(pid)],
                                  incomingCount := 1, degree := k.degree - 1, admitter := Token))
  {
    var pid := k.lastPid + 1;
    var a := Admit(Arrive(0, 0, [P(pid)]));
    assert k.incoming + [NewProc(k, 0, 0)] == [P(pid)];
    var k1 := Step(k, a);
    var k2 := Step(k1, Admit(PostIncoming));
    var k3 := Step(k2, Admit(TakeToken));
    Single(k2, Admit(TakeToken), k3);
    First(k1, Admit(PostIncoming), [Admit(TakeToken)], k3);
    First(k, a, [Admit(PostIncoming)] + [Admit(TakeToken)], k3);
    hide Reaches, Enabled;
  }

  lemma Admitting(k: Kernel, p: Proc)
    requires !k.crashed && k.incoming == [p] && k.incomingCount == 1 && k.admitter.Token?
    ensures Reaches(k, Admittance(), k.(incoming := [], incomingCount := 0, admitter := Idle,
                                       ready := k.ready + [p], readyCount := k.readyCount + 1))
  {
    var k1 := Step(k, Admit(AwaitIncoming));
    var k2 := Step(k1, Admit(TakeIncoming));
    var k3 := Step(k2, Admit(PushReady));
    var k4 := Step(k3, Admit(PostReady));
    Single(k3, Admit(PostReady), k4);
    First(k2, Admit(PushReady), [Admit(PostReady)], k4);
    First(k1, Admit(TakeIncoming), [Admit(PushReady)] + [Admit(PostReady)], k4);
    First(k, Admit(AwaitIncoming), [Admit(TakeIncoming)] + ([Admit(PushReady)] + [Admit(PostReady)]), k4);
    hide Reaches, Enabled;
  }

  lemma Coming(k: Kernel)
    requires Quiet(k) && k.degree > 0
    ensures var pid := k.lastPid + 1;
      Reaches(k, Arrival(pid) + Admittance(),
              k.(lastPid := pid, queued := k.queued + [pid], degree := k.degree - 1,
                 ready := k.ready + [P(pid)], readyCount := k.readyCount + 1))
  {
    var pid := k.lastPid + 1;
    Arriving(k);
    var k1 := k.(lastPid := pid, queued := k.queued + [pid], incoming := [P(pid)],
                 incomingCount := 1, degree := k.degree - 1, admitter := Token);
    hide Reaches;
    Admitting(k1, P(pid));
    Chain(k, Arrival(pid), k1, Admittance(), k1.(incoming := [], incomingCount := 0, admitter := Idle,
                                                ready := k.ready + [P(pid)], readyCount := k.readyCount + 1));
  }

  function Choice(): seq<Event> {
    [Send(AwaitReady)] + ([Send(TakeReady)] + ([Send(AwaitCpu)] + [Send(TakeCpu)]))
  }

  predicate CanGo(k: Kernel) {
    !k.crashed && k.dispatcher.Waiting? && k.ready != [] && k.readyCount > 0 && k.freeCount > 0
  }

  lemma Choosing(k: Kernel)
    requires CanGo(k)
    ensures k.free != [] ==>
      Reaches(k, Choice(), k.(ready := k.ready[1..], readyCount := k.readyCount - 1, free := k.free[1..],
                              freeCount := k.freeCount - 1, dispatcher := Loaded(k.ready[0], k.free[0])))
    ensures k.free == [] ==>
      Reaches(k, Choice(), k.(ready := k.ready[1..], readyCount := k.readyCount - 1, freeCount := k.freeCount - 1,
                              dispatcher := Promised(k.ready[0]), crashed := true))
  {
    var k1 := Step(k, Send(AwaitReady));
    var k2 := Step(k1, Send(TakeReady));
    var k3 := Step(k2, Send(AwaitCpu));
    var k4 := Step(k3, Send(TakeCpu));
    Single(k3, Send(TakeCpu), k4);
    First(k2, Send(AwaitCpu), [Send(TakeCpu)], k4);
    First(k1, Send(TakeReady), [Send(AwaitCpu)] + [Send(TakeCpu)], k4);
    First(k, Send(AwaitReady), [Send(TakeReady)] + ([Send(AwaitCpu)] + [Send(TakeCpu)]), k4);
    hide Enabled, Reaches;
  }

  /** The first ready process goes to the first free CPU. */
  function Launch(): seq<Event> {
    Choice() + ([Send(SendPcb)] + [Send(ListNode)])
  }

  lemma Going(k: Kernel)
    requires CanGo(k) && k.free != []
    ensures Reaches(k, Launch(),
      k.(ready := k.ready[1..], readyCount := k.readyCount - 1, free := k.free[1..], freeCount := k.freeCount - 1,
         running := k.running[k.free[0] := k.ready[0].pcb.pid], executing := k.executing + [Node(k.ready[0], k.free[0])]))
  {
    Choosing(k);
    var k1 := k.(ready := k.ready[1..], readyCount := k.readyCount - 1, free := k.free[1..],
                 freeCount := k.freeCount - 1, dispatcher := Loaded(k.ready[0], k.free[0]));
    var k2 := Step(k1, Send(SendPcb));
    var k3 := Step(k2, Send(ListNode));
    Single(k2, Send(ListNode), k3);
    First(k1, Send(SendPcb), [Send(ListNode)], k3);
    hide Reaches, Enabled;
    Chain(k, Choice(), k1, [Send(SendPcb)] + [Send(ListNode)], k3);
  }

  function Started(pid: int): seq<Event> {
    Arrival(pid) + Admittance() + Launch()
  }

  /** A program arrives, is admitted, and gets the first free CPU. */
  lemma Starting(k: Kernel)
    requires Quiet(k) && k.degree > 0 && k.ready == [] && k.readyCount == 0 && k.free != [] && k.freeCount > 0
    ensures var pid := k.lastPid + 1;
      Reaches(k, Started(pid),
              k.(lastPid := pid, queued := k.queued + [pid], degree := k.degree - 1, free := k.free[1..],
                 freeCount := k.freeCount - 1, executing := k.executing + [Node(P(pid), k.free[0])],
                 running := k.running[k.free[0] := pid]))
  {
    var pid := k.lastPid + 1;
    Coming(k);
    var k1 := k.(lastPid := pid, queued := k.queued + [pid], degree := k.degree - 1,
                 ready := k.ready + [P(pid)], readyCount := k.readyCount + 1);
    Going(k1);
    var k2 := k1.(ready := k1.ready[1..], readyCount := k1.readyCount - 1, free := k1.free[1..],
                  freeCount := k1.freeCount - 1, running := k1.running[k1.free[0] := pid],
                  executing := k1.executing + [Node(P(pid), k1.free[0])]);
    hide Reaches, Arrival, Admittance, Launch;
    Chain(k, Arrival(pid) + Admittance(), k1, Launch(), k2);
    assert k1.ready[1..] == k.ready;
  }

  /** A step that a CPU's message makes, as a run. */
  lemma Speaks(k: Kernel, cpu: int, m: Message, d: Kernel)
    requires Enabled(k, Serve(cpu, m)) && Step(k, Serve(cpu, m)) == d
    ensures Reaches(k, [Serve(cpu, m)], d)
  {
    Single(k, Serve(cpu, m), d);
  }
}
