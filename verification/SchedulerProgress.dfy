/** Progress: a thread waits only where there is nothing for it to do, every
    queue drains by the steps of its own thread, and a process can go all the
    way from its arrival to its destruction. */
module SchedulerProgress {
  import opened Scheduler
  import opened SchedulerCounts
  import opened SchedulerCensus
  import opened SchedulerCpus
  import opened SchedulerTraces
  import opened SchedulerRounds

  // ---- no thread waits beside its work ----

  /** Nobody has pushed a process to the ready queue without posting it. */
  predicate AllPosted(k: Kernel) {
    !k.admitter.Pushed? && Unposted(k.devices) == 0
  }

  /** What each thread waits for is there exactly when there is something for it
      to take: a new process once posted, a ready one once posted, a free CPU
      whose entry was not dropped, a process at the device, one that ended. */
  lemma WaitsPassIff(k: Kernel)
    requires Counted(k) && !k.crashed
    ensures k.admitter.Token? && !k.posting ==> (Enabled(k, Admit(AwaitIncoming)) <==> k.incoming != [])
    ensures k.dispatcher.Waiting? && AllPosted(k) ==> (Enabled(k, Send(AwaitReady)) <==> k.ready != [])
    ensures k.dispatcher.Carrying? && k.dropped == 0 ==> (Enabled(k, Send(AwaitCpu)) <==> k.free != [])
    ensures k.destroyer.Asleep? ==> (Enabled(k, Close(AwaitEnded)) <==> k.ended != [])
    ensures forall d: nat :: d < |k.devices| && k.devices[d].worker.Resting? ==>
      (Enabled(k, Work(d, AwaitWork)) <==> k.devices[d].queue != [])
  {
    hide Unposted;
    forall d: nat | d < |k.devices| && k.devices[d].worker.Resting?
      ensures Enabled(k, Work(d, AwaitWork)) <==> k.devices[d].queue != []
    {
      assert DeviceCounted(k.devices[d]);
    }
  }

  /** The admitting thread takes its token exactly while fewer processes are
      active than the limit. */
  lemma TokenPassesIff(k: Kernel, limit: nat)
    requires Degree(k) == limit && !k.crashed && k.admitter.Idle?
    ensures Enabled(k, Admit(TakeToken)) <==> Active(k) < limit
  {
    hide Active;
  }

  /** A thread of the kernel can step. */
  ghost predicate SomeThreadSteps(k: Kernel) {
    exists e: Event :: Enabled(k, e) && OwnThread(e)
  }

  /** Steps that wait for nobody outside the kernel. */
  predicate OwnThread(e: Event) {
    (e.Admit? && !e.admission.Arrive? && !e.admission.Refuse?) || e.Send? || e.Work? || e.Close?
  }

  predicate DeviceAtRest(d: Device) {
    d.worker.Resting? && d.queue == []
  }

  /** Nothing is in a thread's hand, and what is queued waits for room, for a CPU,
      or for a process outside. */
  ghost predicate AtRest(k: Kernel) {
    && !k.posting
    && ((k.admitter.Idle? && k.degree == 0) || (k.admitter.Token? && k.incoming == []))
    && ((k.dispatcher.Waiting? && k.ready == []) || (k.dispatcher.Carrying? && k.freeCount == 0))
    && (forall d :: 0 <= d < |k.devices| ==> DeviceAtRest(k.devices[d]))
    && k.destroyer.Asleep? && k.ended == []
  }

  lemma {:induction false} RestingIsPosted(devices: seq<Device>)
    requires forall d :: 0 <= d < |devices| ==> devices[d].worker.Resting?
    ensures Unposted(devices) == 0
  {
    RestingUnposted(devices);
  }

  /** The threads of the kernel all stop only when there is nothing to do. */
  lemma StopsOnlyAtRest(k: Kernel)
    requires Counted(k) && !k.crashed
    ensures !SomeThreadSteps(k) <==> AtRest(k)
  {
    if AtRest(k) {
      NothingAtRest(k);
    } else {
      SomethingToDo(k);
    }
  }

  lemma NothingAtRest(k: Kernel)
    requires Counted(k) && AtRest(k)
    ensures !SomeThreadSteps(k)
  {
    RestingIsPosted(k.devices);
    forall e: Event | OwnThread(e) ensures !Enabled(k, e) {
      if e.Work? && e.device < |k.devices| {
        assert DeviceAtRest(k.devices[e.device]) && DeviceCounted(k.devices[e.device]);
      }
      hide Unposted;
    }
  }

  lemma Steps(k: Kernel, e: Event)
    requires Enabled(k, e) && OwnThread(e)
    ensures SomeThreadSteps(k)
  {
  }

  lemma DeviceSteps(k: Kernel, d: nat) returns (w: Working)
    requires Counted(k) && !k.crashed && d < |k.devices| && !DeviceAtRest(k.devices[d])
    ensures Enabled(k, Work(d, w))
  {
    assert DeviceCounted(k.devices[d]);
    w := match k.devices[d].worker
      case Resting => AwaitWork
      case Called => TakeWork
      case Serving(_) => PushBack
      case Returned => PostBack;
  }

  lemma SomethingToDo(k: Kernel)
    requires Counted(k) && !k.crashed && !AtRest(k)
    ensures SomeThreadSteps(k)
  {
    hide Unposted;
    if d :| 0 <= d < |k.devices| && !DeviceAtRest(k.devices[d]) {
      var w := DeviceSteps(k, d);
      Steps(k, Work(d, w));
    } else if k.posting {
      Steps(k, Admit(PostIncoming));
    } else if !k.destroyer.Asleep? || k.ended != [] {
      Steps(k, Close(match k.destroyer case Asleep => AwaitEnded case Awake => TakeEnded case Destroying(_) => Destroy));
    } else if !((k.admitter.Idle? && k.degree == 0) || (k.admitter.Token? && k.incoming == [])) {
      Steps(k, Admit(match k.admitter
        case Idle => TakeToken
        case Token => AwaitIncoming
        case Cleared => TakeIncoming
        case Holding(_) => PushReady
        case Pushed => PostReady));
    } else {
      RestingIsPosted(k.devices);
      Steps(k, Send(match k.dispatcher
        case Waiting => AwaitReady
        case Entitled => TakeReady
        case Carrying(_) => AwaitCpu
        case Promised(_) => TakeCpu
        case Loaded(_, _) => SendPcb
        case Underway(_, _) => ListNode));
    }
  }

  // ---- CPUs may speak and leave, programs may come ----

  function Inserted(list: seq<Proc>, p: Proc): (r: seq<Proc>)
    ensures |r| == |list| + 1
  {
    if list == [] || p.weight < list[0].weight then [p] + list else [list[0]] + Inserted(list[1..], p)
  }

  lemma {:induction false} InsertedSame(list: seq<Proc>, p: Proc)
    ensures multiset(Inserted(list, p)) == multiset(list) + multiset{p}
    decreases |list|
  {
    if list != [] && p.weight >= list[0].weight {
      InsertedSame(list[1..], p);
      assert list == [list[0]] + list[1..];
    }
  }

  lemma {:induction false} InsertedFrom(list: seq<Proc>, p: Proc, i: nat)
    requires i < |list| + 1
    ensures Inserted(list, p)[i] == p || Inserted(list, p)[i] in list
    decreases |list|
  {
    if list != [] && p.weight >= list[0].weight && i > 0 {
      InsertedFrom(list[1..], p, i - 1);
    }
  }

  lemma {:induction false} InsertedSorts(list: seq<Proc>, p: Proc)
    requires SortedByWeight(list)
    ensures SortedByWeight(Inserted(list, p))
    decreases |list|
  {
    if list != [] && p.weight >= list[0].weight {
      InsertedSorts(list[1..], p);
      forall i | 0 <= i < |list| ensures Inserted(list[1..], p)[i] == p || Inserted(list[1..], p)[i] in list[1..] {
        InsertedFrom(list[1..], p, i);
      }
      hide SortedByWeight;
      SortedCons(list, Inserted(list[1..], p), p);
    }
  }

  lemma SortedCons(list: seq<Proc>, rest: seq<Proc>, p: Proc)
    requires list != [] && SortedByWeight(list) && SortedByWeight(rest) && list[0].weight <= p.weight
    requires forall i :: 0 <= i < |rest| ==> rest[i] == p || rest[i] in list[1..]
    ensures SortedByWeight([list[0]] + rest)
  {
    forall i | 0 <= i < |rest| ensures list[0].weight <= rest[i].weight {
      if rest[i] != p {
        var j :| 0 <= j < |list[1..]| && list[1..][j] == rest[i];
        assert list[j + 1] == rest[i];
      }
    }
  }

  /** A program can arrive whenever the last one has been posted. */
  lemma CanArrive(k: Kernel, weight: int, image: nat) returns (order: seq<Proc>)
    requires SortedByWeight(k.incoming) && !k.posting && !k.crashed
    ensures Enabled(k, Admit(Arrive(weight, image, order)))
  {
    InsertedSorts(k.incoming, NewProc(k, weight, image));
    InsertedSame(k.incoming, NewProc(k, weight, image));
    order := Inserted(k.incoming, NewProc(k, weight, image));
    hide SortedByWeight;
  }

  /** A CPU with a process may send any message about semaphores and devices that
      exist, and a free one may leave; a CPU does the one or the other. */
  lemma CpusMaySpeak(k: Kernel, cpu: int, m: Message)
    requires Orderly(k)
    requires (m.Signal? || m.Wait? ==> m.s < |k.semaphores|) && (m.AskDevice? ==> m.d < |k.devices|)
    ensures HasNode(k, cpu) ==> Enabled(k, Serve(cpu, m))
    ensures cpu in k.free ==> Enabled(k, Link(LeaveIdle(cpu))) && !Enabled(k, Serve(cpu, m))
    ensures HasNode(k, cpu) || cpu in k.running ==> !Enabled(k, Link(LeaveIdle(cpu)))
  {
    hide Placed, NodesRun;
    assert CpuPlaces(k, cpu) <= 1;
    assert cpu in k.running <==> Busy(k, cpu);
    if HasNode(k, cpu) {
      var i := NodeOf(k.executing, cpu);
      assert Cpus(k.executing)[i] == cpu;
      assert cpu in multiset(Cpus(k.executing));
    }
    hide NodeOf, Cpus;
  }

  // ---- every queue drains ----

  function ServingOne(d: nat): seq<Event> {
    [Work(d, AwaitWork)] + ([Work(d, TakeWork)] + ([Work(d, PushBack)] + [Work(d, PostBack)]))
  }

  /** One process served. */
  lemma ServesFirst(k: Kernel, d: nat)
    requires Counted(k) && !k.crashed && d < |k.devices| && k.devices[d].worker.Resting? && k.devices[d].queue != []
    ensures k.devices[d].count > 0
    ensures var dev := k.devices[d];
      Reaches(k, ServingOne(d), k.(ready := k.ready + [dev.queue[0]], readyCount := k.readyCount + 1,
                                 devices := k.devices[d := Device(dev.count - 1, dev.queue[1..], Resting)]))
  {
    var dev := k.devices[d];
    assert DeviceCounted(dev);
    var k1 := Step(k, Work(d, AwaitWork));
    var k2 := Step(k1, Work(d, TakeWork));
    var k3 := Step(k2, Work(d, PushBack));
    var k4 := Step(k3, Work(d, PostBack));
    Single(k3, Work(d, PostBack), k4);
    First(k2, Work(d, PushBack), [Work(d, PostBack)], k4);
    First(k1, Work(d, TakeWork), [Work(d, PushBack)] + [Work(d, PostBack)], k4);
    First(k, Work(d, AwaitWork), [Work(d, TakeWork)] + ([Work(d, PushBack)] + [Work(d, PostBack)]), k4);
    assert k4.devices == k.devices[d := Device(dev.count - 1, dev.queue[1..], Resting)];
    hide Reaches, Enabled, Counted;
  }

  predicate OfDevice(es: seq<Event>, d: nat) {
    forall i :: 0 <= i < |es| ==> es[i].Work? && es[i].device == d
  }

  lemma ReachesCounts(k: Kernel, es: seq<Event>, d: Kernel)
    requires Counted(k) && Reaches(k, es, d)
    ensures Counted(d)
  {
    ReachesIsRun(k, es, d);
    RunCounts(k, es);
  }

  /** Whatever else stands still, the steps of a device's own thread serve the
      process with `j` ahead of it, after those ahead, and make it ready. */
  lemma {:induction false} DeviceDrains(k: Kernel, d: nat, j: nat) returns (es: seq<Event>)
    requires Counted(k) && !k.crashed && d < |k.devices| && k.devices[d].worker.Resting? && j < |k.devices[d].queue|
    ensures OfDevice(es, d) && k.devices[d].count > j
    ensures var dev := k.devices[d];
      Reaches(k, es, k.(ready := k.ready + dev.queue[..j + 1], readyCount := k.readyCount + j + 1,
                        devices := k.devices[d := Device(dev.count - (j + 1), dev.queue[j + 1..], Resting)]))
    decreases j
  {
    var dev := k.devices[d];
    ServesFirst(k, d);
    var k1 := k.(ready := k.ready + [dev.queue[0]], readyCount := k.readyCount + 1,
                 devices := k.devices[d := Device(dev.count - 1, dev.queue[1..], Resting)]);
    if j == 0 {
      es := ServingOne(d);
      assert dev.queue[..1] == [dev.queue[0]];
    } else {
      ReachesCounts(k, ServingOne(d), k1);
      var rest := DeviceDrains(k1, d, j - 1);
      es := ServingOne(d) + rest;
      DrainedMore(k, d, j);
      hide Counted, Reaches;
      Chain(k, ServingOne(d), k1, rest,
            k1.(ready := k1.ready + k1.devices[d].queue[..j], readyCount := k1.readyCount + j,
                devices := k1.devices[d := Device(k1.devices[d].count - j, k1.devices[d].queue[j..], Resting)]));
    }
  }

  lemma DrainedMore(k: Kernel, d: nat, j: nat)
    requires d < |k.devices| && 0 < j < |k.devices[d].queue| && k.devices[d].count > j
    ensures var dev := k.devices[d];
      var devs := k.devices[d := Device(dev.count - 1, dev.queue[1..], Resting)];
      && k.ready + [dev.queue[0]] + dev.queue[1..][..j] == k.ready + dev.queue[..j + 1]
      && dev.queue[1..][j..] == dev.queue[j + 1..]
      && devs[d := Device(dev.count - 1 - j, dev.queue[1..][j..], Resting)]
         == k.devices[d := Device(dev.count - (j + 1), dev.queue[j + 1..], Resting)]
  {
    assert [k.devices[d].queue[0]] + k.devices[d].queue[1..][..j] == k.devices[d].queue[..j + 1];
  }

  lemma FromReturned(k: Kernel, d: nat)
    requires !k.crashed && d < |k.devices| && k.devices[d].worker.Returned?
    ensures Reaches(k, [Work(d, PostBack)], k.(readyCount := k.readyCount + 1,
                                               devices := k.devices[d := k.devices[d].(worker := Resting)]))
  {
    Single(k, Work(d, PostBack), Step(k, Work(d, PostBack)));
  }

  lemma FromServing(k: Kernel, d: nat)
    requires !k.crashed && d < |k.devices| && k.devices[d].worker.Serving?
    ensures Reaches(k, [Work(d, PushBack)] + [Work(d, PostBack)],
      k.(ready := k.ready + [k.devices[d].worker.proc], readyCount := k.readyCount + 1,
         devices := k.devices[d := k.devices[d].(worker := Resting)]))
  {
    var k1 := Step(k, Work(d, PushBack));
    FromReturned(k1, d);
    assert k1.devices[d := k1.devices[d].(worker := Resting)] == k.devices[d := k.devices[d].(worker := Resting)];
    hide Reaches;
    First(k, Work(d, PushBack), [Work(d, PostBack)],
          k1.(readyCount := k1.readyCount + 1, devices := k1.devices[d := k1.devices[d].(worker := Resting)]));
  }

  lemma FromCalled(k: Kernel, d: nat)
    requires !k.crashed && d < |k.devices| && k.devices[d].worker.Called? && k.devices[d].queue != []
    ensures var dev := k.devices[d];
      Reaches(k, [Work(d, TakeWork)] + ([Work(d, PushBack)] + [Work(d, PostBack)]),
        k.(ready := k.ready + [dev.queue[0]], readyCount := k.readyCount + 1,
           devices := k.devices[d := dev.(queue := dev.queue[1..], worker := Resting)]))
  {
    var dev, k1 := k.devices[d], Step(k, Work(d, TakeWork));
    FromServing(k1, d);
    assert k1.devices[d := k1.devices[d].(worker := Resting)]
      == k.devices[d := dev.(queue := dev.queue[1..], worker := Resting)];
    hide Reaches;
    First(k, Work(d, TakeWork), [Work(d, PushBack)] + [Work(d, PostBack)],
          k1.(ready := k1.ready + [dev.queue[0]], readyCount := k1.readyCount + 1,
              devices := k1.devices[d := k1.devices[d].(worker := Resting)]));
  }

  /** The same from the middle of a round: the device's thread first comes to rest,
      without passing over anybody. */
  lemma ComesToRest(k: Kernel, d: nat) returns (es: seq<Event>, k1: Kernel)
    requires Counted(k) && !k.crashed && d < |k.devices|
    ensures OfDevice(es, d) && Reaches(k, es, k1) && !k1.crashed && Counted(k1)
    ensures |k1.devices| == |k.devices| && k1.devices[d].worker.Resting?
    ensures k.devices[d].worker.Serving? ==>
      k1.ready == k.ready + [k.devices[d].worker.proc] && k1.devices[d].queue == k.devices[d].queue
    ensures k.devices[d].worker.Called? ==>
      && k.devices[d].queue != [] && k1.ready == k.ready + [k.devices[d].queue[0]]
      && k1.devices[d].queue == k.devices[d].queue[1..]
    ensures k.devices[d].worker.Resting? || k.devices[d].worker.Returned? ==>
      k1.ready == k.ready && k1.devices[d].queue == k.devices[d].queue
  {
    hide Reaches;
    var dev := k.devices[d];
    assert DeviceCounted(dev);
    match dev.worker {
    case Resting =>
      es, k1 := [], k;
      Stand(k);
    case Called =>
      FromCalled(k, d);
      es := [Work(d, TakeWork)] + ([Work(d, PushBack)] + [Work(d, PostBack)]);
      k1 := k.(ready := k.ready + [dev.queue[0]], readyCount := k.readyCount + 1,
               devices := k.devices[d := dev.(queue := dev.queue[1..], worker := Resting)]);
    case Serving(p) =>
      FromServing(k, d);
      es := [Work(d, PushBack)] + [Work(d, PostBack)];
      k1 := k.(ready := k.ready + [p], readyCount := k.readyCount + 1,
               devices := k.devices[d := dev.(worker := Resting)]);
    case Returned =>
      FromReturned(k, d);
      es := [Work(d, PostBack)];
      k1 := k.(readyCount := k.readyCount + 1, devices := k.devices[d := dev.(worker := Resting)]);
    }
    hide Counted;
    ReachesCounts(k, es, k1);
  }

  /** In every reachable state, a process at a device has a run of that device's
      own steps at whose end it is ready. */
  lemma ServedEventually(k: Kernel, d: nat, p: Proc) returns (es: seq<Event>)
    requires Counted(k) && !k.crashed && d < |k.devices| && p in AtDevice(k.devices[d])
    ensures OfDevice(es, d) && CanRun(k, es) && p in Run(k, es).ready
  {
    var a, k1 := ComesToRest(k, d);
    if p in k1.ready {
      es := a;
      ReachesIsRun(k, a, k1);
    } else {
      var j := StillQueued(k, k1, d, p);
      var b := DeviceDrains(k1, d, j);
      es := a + b;
      var dev := k1.devices[d];
      var k2 := k1.(ready := k1.ready + dev.queue[..j + 1], readyCount := k1.readyCount + j + 1,
                    devices := k1.devices[d := Device(dev.count - (j + 1), dev.queue[j + 1..], Resting)]);
      hide Counted, Reaches;
      Chain(k, a, k1, b, k2);
      ReachesIsRun(k, es, k2);
      assert dev.queue[..j + 1][j] == p;
    }
  }

  lemma StillQueued(k: Kernel, k1: Kernel, d: nat, p: Proc) returns (j: nat)
    requires d < |k.devices| && |k1.devices| == |k.devices| && p in AtDevice(k.devices[d]) && p !in k1.ready
    requires k.devices[d].worker.Serving? ==>
      k1.ready == k.ready + [k.devices[d].worker.proc] && k1.devices[d].queue == k.devices[d].queue
    requires k.devices[d].worker.Called? ==>
      && k.devices[d].queue != [] && k1.ready == k.ready + [k.devices[d].queue[0]]
      && k1.devices[d].queue == k.devices[d].queue[1..]
    requires k.devices[d].worker.Resting? || k.devices[d].worker.Returned? ==> k1.devices[d].queue == k.devices[d].queue
    ensures j < |k1.devices[d].queue| && k1.devices[d].queue[j] == p
  {
    var queue := k.devices[d].queue;
    if k.devices[d].worker.Serving? {
      assert k1.ready[|k.ready|] == k.devices[d].worker.proc;
    } else if k.devices[d].worker.Called? {
      assert k1.ready[|k.ready|] == queue[0];
      assert queue == [queue[0]] + queue[1..];
    }
    assert p in k1.devices[d].queue;
    j :| 0 <= j < |k1.devices[d].queue| && k1.devices[d].queue[j] == p;
  }

  // ---- the other queues ----

  function DestroyingOne(): seq<Event> {
    [Close(AwaitEnded)] + ([Close(TakeEnded)] + [Close(Destroy)])
  }

  lemma DestroysFirst(k: Kernel)
    requires !k.crashed && k.destroyer.Asleep? && k.ended != [] && k.endedCount > 0
    ensures Reaches(k, DestroyingOne(), k.(ended := k.ended[1..], endedCount := k.endedCount - 1,
                                           destroyed := k.destroyed + [k.ended[0]]))
  {
    var k1 := Step(k, Close(AwaitEnded));
    var k2 := Step(k1, Close(TakeEnded));
    var k3 := Step(k2, Close(Destroy));
    Single(k2, Close(Destroy), k3);
    First(k1, Close(TakeEnded), [Close(Destroy)], k3);
    First(k, Close(AwaitEnded), [Close(TakeEnded)] + [Close(Destroy)], k3);
    hide Reaches, Enabled;
  }

  predicate OfDestroyer(es: seq<Event>) {
    forall i :: 0 <= i < |es| ==> es[i].Close?
  }

  /** All that ended are destroyed, in the order in which they ended. */
  lemma {:induction false} EndedDrains(k: Kernel) returns (es: seq<Event>)
    requires !k.crashed && k.destroyer.Asleep? && k.endedCount == |k.ended|
    ensures OfDestroyer(es)
    ensures Reaches(k, es, k.(ended := [], endedCount := 0, destroyed := k.destroyed + k.ended))
    decreases |k.ended|
  {
    if k.ended == [] {
      es := [];
      Stand(k);
      assert k.destroyed + [] == k.destroyed;
    } else {
      DestroysFirst(k);
      var k1 := k.(ended := k.ended[1..], endedCount := k.endedCount - 1, destroyed := k.destroyed + [k.ended[0]]);
      var rest := EndedDrains(k1);
      es := DestroyingOne() + rest;
      assert [k.ended[0]] + k.ended[1..] == k.ended;
      assert k1.destroyed + k1.ended == k.destroyed + k.ended;
      hide Reaches;
      Chain(k, DestroyingOne(), k1, rest, k1.(ended := [], endedCount := 0, destroyed := k1.destroyed + k1.ended));
    }
  }

  lemma AdmitsFirst(k: Kernel)
    requires !k.crashed && k.admitter.Idle? && k.degree > 0 && k.incoming != [] && k.incomingCount > 0
    ensures Reaches(k, [Admit(TakeToken)] + Admittance(),
      k.(degree := k.degree - 1, incoming := k.incoming[1..], incomingCount := k.incomingCount - 1,
         ready := k.ready + [k.incoming[0]], readyCount := k.readyCount + 1))
  {
    var k0 := Step(k, Admit(TakeToken));
    var k1 := Step(k0, Admit(AwaitIncoming));
    var k2 := Step(k1, Admit(TakeIncoming));
    var k3 := Step(k2, Admit(PushReady));
    var k4 := Step(k3, Admit(PostReady));
    Single(k3, Admit(PostReady), k4);
    First(k2, Admit(PushReady), [Admit(PostReady)], k4);
    First(k1, Admit(TakeIncoming), [Admit(PushReady)] + [Admit(PostReady)], k4);
    First(k0, Admit(AwaitIncoming), [Admit(TakeIncoming)] + ([Admit(PushReady)] + [Admit(PostReady)]), k4);
    First(k, Admit(TakeToken), Admittance(), k4);
    hide Reaches, Enabled;
  }

  predicate OfAdmitter(es: seq<Event>) {
    forall i :: 0 <= i < |es| ==> es[i].Admit? && !es[i].admission.Arrive?
  }

  lemma TakeDrop(a: seq<Proc>, b: seq<Proc>, n: nat)
    requires 0 < n <= |b|
    ensures a + [b[0]] + b[1..][..n - 1] == a + b[..n] && b[1..][n - 1..] == b[n..]
  {
    assert [b[0]] + b[1..][..n - 1] == b[..n];
  }

  lemma AdmitterChain(a: seq<Event>, b: seq<Event>)
    requires OfAdmitter(a) && OfAdmitter(b)
    ensures OfAdmitter(a + b)
  {
  }

  /** As many of the new processes are admitted, in their order, as the degree has
      room for. */
  lemma {:induction false} IncomingDrains(k: Kernel, n: nat) returns (es: seq<Event>)
    requires !k.crashed && k.admitter.Idle? && k.incomingCount == |k.incoming| && n <= |k.incoming| && n <= k.degree
    ensures OfAdmitter(es)
    ensures Reaches(k, es, k.(degree := k.degree - n, incoming := k.incoming[n..], incomingCount := k.incomingCount - n,
                              ready := k.ready + k.incoming[..n], readyCount := k.readyCount + n))
    decreases n
  {
    if n == 0 {
      es := [];
      Stand(k);
      assert k.incoming[0..] == k.incoming && k.ready + k.incoming[..0] == k.ready;
    } else {
      AdmitsFirst(k);
      var k1 := k.(degree := k.degree - 1, incoming := k.incoming[1..], incomingCount := k.incomingCount - 1,
                   ready := k.ready + [k.incoming[0]], readyCount := k.readyCount + 1);
      var rest := IncomingDrains(k1, n - 1);
      es := [Admit(TakeToken)] + Admittance() + rest;
      AdmitterChain([Admit(TakeToken)] + Admittance(), rest);
      TakeDrop(k.ready, k.incoming, n);
      hide Reaches, OfAdmitter;
      Chain(k, [Admit(TakeToken)] + Admittance(), k1, rest,
            k1.(degree := k1.degree - (n - 1), incoming := k1.incoming[n - 1..], incomingCount := k1.incomingCount - (n - 1),
                ready := k1.ready + k1.incoming[..n - 1], readyCount := k1.readyCount + (n - 1)));
    }
  }

  function Pairs(ps: seq<Proc>, cpus: seq<int>): seq<Node>
    requires |ps| == |cpus|
  {
    seq(|ps|, i requires 0 <= i < |ps| => Node(ps[i], cpus[i]))
  }

  predicate OfDispatcher(es: seq<Event>) {
    forall i :: 0 <= i < |es| ==> es[i].Send?
  }

  /** As many ready processes as there are free CPUs are sent and listed, the
      first to the first. */
  lemma {:induction false} ReadyDrains(k: Kernel, n: nat) returns (es: seq<Event>, d: Kernel)
    requires !k.crashed && k.dispatcher.Waiting? && k.readyCount == |k.ready| && k.freeCount == |k.free|
    requires n <= |k.ready| && n <= |k.free|
    ensures OfDispatcher(es) && Reaches(k, es, d) && !d.crashed && d.dispatcher.Waiting?
    ensures d.ready == k.ready[n..] && d.free == k.free[n..]
    ensures d.executing == k.executing + Pairs(k.ready[..n], k.free[..n])
    decreases n
  {
    if n == 0 {
      es, d := [], k;
      Stand(k);
      assert k.ready[0..] == k.ready && k.free[0..] == k.free;
    } else {
      Going(k);
      var k1 := k.(ready := k.ready[1..], readyCount := k.readyCount - 1, free := k.free[1..],
                   freeCount := k.freeCount - 1, running := k.running[k.free[0] := k.ready[0].pcb.pid],
                   executing := k.executing + [Node(k.ready[0], k.free[0])]);
      var rest;
      rest, d := ReadyDrains(k1, n - 1);
      es := Launch() + rest;
      assert [Node(k.ready[0], k.free[0])] + Pairs(k.ready[1..][..n - 1], k.free[1..][..n - 1])
        == Pairs(k.ready[..n], k.free[..n]);
      hide Reaches;
      Chain(k, Launch(), k1, rest, d);
    }
  }

  // ---- from arrival to destruction ----

  function Proc1(image: nat): Proc {
    Proc(Pcb(1, image), 0)
  }

  /** Process 1 runs on CPU 1 and nothing else is listed. */
  predicate Alone(k: Kernel, image: nat) {
    !k.crashed && k.executing == [Node(Proc1(image), 1)] && k.running == map[1 := 1]
  }

  lemma AloneFound(k: Kernel, image: nat, sent: nat)
    requires Alone(k, image)
    ensures NodeOf(k.executing, 1) == 0 && PidAt([Node(Proc1(sent), 1)], 1) == 0
    ensures Updated(k, 0, Pcb(1, sent)).executing == [Node(Proc1(sent), 1)]
    ensures Without([Node(Proc1(sent), 1)], 0) == [] && k.running - {1} == map[]
  {
    assert k.executing[0].cpu == 1 && [Node(Proc1(sent), 1)][0].proc.pcb.pid == 1;
    hide NodeOf, PidAt;
  }

  lemma AsksDevice(k: Kernel, image: nat, sent: nat, d: nat)
    requires Alone(k, image) && d < |k.devices|
    ensures var dev := k.devices[d];
      Reaches(k, [Serve(1, AskDevice(sent, d))], k.(free := k.free + [1], freeCount := k.freeCount + 1, executing := [],
        running := map[], devices := k.devices[d := dev.(queue := dev.queue + [Proc1(sent)], count := dev.count + 1)]))
  {
    AloneFound(k, image, sent);
    hide NodeOf, PidAt, Without;
    Single(k, Serve(1, AskDevice(sent, d)), Step(k, Serve(1, AskDevice(sent, d))));
    hide Reaches;
  }

  lemma EndsAlone(k: Kernel, image: nat, sent: nat)
    requires Alone(k, image)
    ensures Reaches(k, [Serve(1, EndProcess(sent))], k.(free := k.free + [1], freeCount := k.freeCount + 1,
      executing := [], running := map[], ended := k.ended + [Proc1(sent)], endedCount := k.endedCount + 1,
      degree := k.degree + 1))
  {
    AloneFound(k, image, sent);
    hide NodeOf, PidAt, Without;
    Single(k, Serve(1, EndProcess(sent)), Step(k, Serve(1, EndProcess(sent))));
    hide Reaches;
  }

  /** The kernel before and after a process's life: only the pid is spent, and the
      process is among those destroyed, with the PCB its CPU sent last. */
  function Before(degree: nat, values: seq<int>, devices: nat): Kernel {
    Initial(degree, values, devices).(free := [1], freeCount := 1)
  }

  function Lived(k: Kernel, image: nat): Kernel {
    k.(lastPid := 1, queued := [1], destroyed := [Proc1(image)])
  }

  function Running(k: Kernel, image: nat): Kernel {
    k.(lastPid := 1, queued := [1], degree := if k.degree == 0 then 0 else k.degree - 1, free := [], freeCount := 0,
       executing := [Node(Proc1(image), 1)], running := map[1 := 1])
  }

  /** A kernel at the start, but for a CPU that is free. */
  predicate OneCpu(k: Kernel) {
    && Quiet(k) && Counted(k) && k.degree > 0 && k.lastPid == 0 && k.queued == []
    && k.ready == [] && k.readyCount == 0 && k.free == [1] && k.freeCount == 1 && k.executing == []
    && k.running == map[] && k.ended == [] && k.endedCount == 0 && k.destroyer.Asleep? && k.destroyed == []
  }

  lemma Begins(k: Kernel)
    requires OneCpu(k)
    ensures Reaches(k, Started(1), Running(k, 0))
  {
    hide Reaches;
    Starting(k);
    assert k.queued + [1] == [1] && k.free[1..] == [] && k.executing + [Node(P(1), 1)] == [Node(P(1), 1)];
    assert k.running[1 := 1] == map[1 := 1];
  }

  function AtDeviceD(k: Kernel, d: nat): Kernel
    requires d < |k.devices|
  {
    Running(k, 0).(free := [1], freeCount := 1, executing := [], running := map[],
                   devices := k.devices[d := Device(1, [Proc1(9)], Resting)])
  }

  lemma GoesToDevice(k: Kernel, d: nat)
    requires OneCpu(k) && d < |k.devices| && k.devices[d] == Device(0, [], Resting)
    ensures Reaches(Running(k, 0), [Serve(1, AskDevice(9, d))], AtDeviceD(k, d))
  {
    hide Reaches;
    AsksDevice(Running(k, 0), 0, 9, d);
    assert [] + [1] == [1] && [] + [Proc1(9)] == [Proc1(9)];
  }

  lemma ComesBack(k: Kernel, d: nat)
    requires OneCpu(k) && d < |k.devices| && k.devices[d] == Device(0, [], Resting) && Counted(AtDeviceD(k, d))
    ensures Reaches(AtDeviceD(k, d), ServingOne(d) + Launch(), Running(k, 9))
  {
    hide Reaches, Counted;
    var k1 := AtDeviceD(k, d);
    ServesFirst(k1, d);
    var k2 := k1.(ready := [Proc1(9)], readyCount := 1, devices := k.devices);
    assert k1.devices[d := Device(0, [], Resting)] == k.devices;
    assert [] + [Proc1(9)] == [Proc1(9)] && [Proc1(9)][1..] == [] && [1][1..] == [];
    Going(k2);
    assert k2.running[1 := 1] == map[1 := 1] && k2.executing + [Node(Proc1(9), 1)] == [Node(Proc1(9), 1)];
    hide ServingOne, Launch;
    Chain(k1, ServingOne(d), k2, Launch(), Running(k, 9));
  }

  lemma Finishes(k: Kernel)
    requires OneCpu(k)
    ensures Reaches(Running(k, 9), [Serve(1, EndProcess(8))] + DestroyingOne(), Lived(k, 8))
  {
    hide Reaches, Counted;
    var k1 := Running(k, 9);
    EndsAlone(k1, 9, 8);
    var k2 := k1.(free := [1], freeCount := 1, executing := [], running := map[], ended := [Proc1(8)], endedCount := 1,
                  degree := k.degree);
    assert [] + [1] == [1] && [] + [Proc1(8)] == [Proc1(8)] && [Proc1(8)][1..] == [];
    DestroysFirst(k2);
    hide DestroyingOne;
    Chain(k1, [Serve(1, EndProcess(8))], k2, DestroyingOne(), Lived(k, 8));
  }

  lemma Connects(degree: nat, values: seq<int>, devices: nat)
    requires degree > 0
    ensures Reaches(Initial(degree, values, devices), [Link(Connect(1))], Before(degree, values, devices))
    ensures OneCpu(Before(degree, values, devices)) && |Before(degree, values, devices).devices| == devices
    ensures forall d :: 0 <= d < devices ==> Before(degree, values, devices).devices[d] == Device(0, [], Resting)
  {
    var k := Initial(degree, values, devices);
    assert [] + [1] == [1];
    Single(k, Link(Connect(1)), Before(degree, values, devices));
    InitialCounts(degree, values, devices);
    ReachesCounts(k, [Link(Connect(1))], Before(degree, values, devices));
    hide Reaches, Counted;
  }

  /** With any degree, semaphores and devices there is a run in which a program
      arrives, is admitted, runs, uses the device `d`, runs again, ends and is
      destroyed, after which everything else is as it was. */
  lemma LifeOfAProcess(degree: nat, values: seq<int>, devices: nat, d: nat) returns (es: seq<Event>)
    requires degree > 0 && d < devices
    ensures var k := Initial(degree, values, devices);
      && CanRun(k, es)
      && Run(k, es) == k.(lastPid := 1, queued := [1], free := [1], freeCount := 1, destroyed := [Proc1(8)])
  {
    var k0, k := Initial(degree, values, devices), Before(degree, values, devices);
    Connects(degree, values, devices);
    InitialCounts(degree, values, devices);
    Begins(k);
    GoesToDevice(k, d);
    Finishes(k);
    hide Reaches, Counted, Launch, ServingOne, DestroyingOne, Started, OneCpu, Running, AtDeviceD;
    var a := [Link(Connect(1))] + Started(1);
    Chain(k0, [Link(Connect(1))], k, Started(1), Running(k, 0));
    Chain(k0, a, Running(k, 0), [Serve(1, AskDevice(9, d))], AtDeviceD(k, d));
    ReachesCounts(k0, a + [Serve(1, AskDevice(9, d))], AtDeviceD(k, d));
    ComesBack(k, d);
    Chain(k0, a + [Serve(1, AskDevice(9, d))], AtDeviceD(k, d), ServingOne(d) + Launch(), Running(k, 9));
    es := a + [Serve(1, AskDevice(9, d))] + (ServingOne(d) + Launch()) + ([Serve(1, EndProcess(8))] + DestroyingOne());
    Chain(k0, a + [Serve(1, AskDevice(9, d))] + (ServingOne(d) + Launch()), Running(k, 9),
          [Serve(1, EndProcess(8))] + DestroyingOne(), Lived(k, 8));
    ReachesIsRun(k0, es, Lived(k, 8));
  }
}
