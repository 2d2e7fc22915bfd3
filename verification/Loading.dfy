/** Loading a program: the kernel asks for its segments one after the other and,
    when one is not created, has everything of the new process destroyed. */
module Loading {
  import opened Segments
  import opened UmvRuns
  import opened UmvAccounts

  predicate AsksFor(ops: seq<Op>, pid: int) {
    forall i :: 0 <= i < |ops| ==> ops[i].Request? && ops[i].pid == pid
  }

  ghost function Others(v: Arrays, pid: int): Arrays {
    map k | k in v && k.0 != pid :: v[k]
  }

  ghost function Replies(u: Umv, ops: seq<Op>): (r: seq<Reply>)
    requires Valid(u) && LegalRun(u, ops)
    ensures |r| == |ops|
    decreases |ops|
  {
    if ops == [] then []
    else
      StepLooks(u, ops[0]);
      [Step(u, ops[0]).1] + Replies(After(u, ops[0]), ops[1..])
  }

  lemma RequestKeepsOthers(v: Arrays, w: Arrays, op: Op, reply: Reply)
    requires op.Request? && Looks(v, op, reply, w)
    ensures Others(w, op.pid) == Others(v, op.pid)
  {
  }

  lemma {:induction false} RequestsKeepOthers(u: Umv, ops: seq<Op>, pid: int)
    requires Valid(u) && LegalRun(u, ops) && AsksFor(ops, pid)
    ensures Others(View(Run(u, ops)), pid) == Others(View(u), pid)
    decreases |ops|
  {
    hide View, Valid, Legal, Step, Looks, Others;
    if ops != [] {
      assert ops[0].Request? && ops[0].pid == pid;
      StepLooks(u, ops[0]);
      RequestKeepsOthers(View(u), View(After(u, ops[0])), ops[0], Step(u, ops[0]).1);
      RequestsKeepOthers(After(u, ops[0]), ops[1..], pid);
    }
  }

  /** Whatever was created before a request of the program failed, destroying
      the process gives back the memory as it was, for every other process. */
  lemma RejectionRestores(u: Umv, ops: seq<Op>, pid: int)
    requires Valid(u) && LegalRun(u, ops) && AsksFor(ops, pid)
    requires forall k :: k in View(u) ==> k.0 != pid
    ensures var v := Run(u, ops);
      && Legal(v, Destroy(pid)) && Valid(After(v, Destroy(pid)))
      && View(After(v, Destroy(pid))) == View(u)
  {
    var v := Run(u, ops);
    RequestsKeepOthers(u, ops, pid);
    StepLooks(v, Destroy(pid));
    assert Others(View(u), pid) == View(u);
    hide View, Valid, Run, LegalRun;
  }

  predicate IsGranted(op: Op, reply: Reply) {
    op.Request? && op.size > 0 && reply.Address?
  }

  ghost function StepReply(u: Umv, op: Op): Reply
    requires Valid(u) && Legal(u, op)
  {
    StepLooks(u, op);
    Step(u, op).1
  }

  lemma RepliesAre(u: Umv, ops: seq<Op>)
    requires Valid(u) && LegalRun(u, ops) && ops != []
    ensures Replies(u, ops) == [StepReply(u, ops[0])] + Replies(After(u, ops[0]), ops[1..])
  {
    hide View, Looks;
  }

  lemma RepliesHead(u: Umv, ops: seq<Op>, i: nat)
    requires Valid(u) && LegalRun(u, ops) && i < |ops|
    ensures |Replies(u, ops)| == |ops|
    ensures i == 0 ==> Replies(u, ops)[0] == StepReply(u, ops[0])
    ensures |Replies(After(u, ops[0]), ops[1..])| == |ops| - 1
    ensures i > 0 ==> Replies(u, ops)[i] == Replies(After(u, ops[0]), ops[1..])[i - 1]
    ensures Run(u, ops) == Run(After(u, ops[0]), ops[1..])
  {
    RepliesAre(u, ops);
    RunTail(u, ops);
    hide View, Valid, Replies, StepReply, Run, LegalRun;
  }

  lemma RunTail(u: Umv, ops: seq<Op>)
    requires Valid(u) && LegalRun(u, ops) && ops != []
    ensures Run(u, ops) == Run(After(u, ops[0]), ops[1..])
  {
    hide View, Valid, Legal;
  }

  /** What one request does to the map of byte arrays. */
  lemma RequestLooks(u: Umv, op: Op)
    requires Valid(u) && Legal(u, op) && op.Request?
    ensures IsGranted(op, StepReply(u, op)) ==>
      var key := (op.pid, StepReply(u, op).virt);
      key !in View(u) && key in View(After(u, op)) && |View(After(u, op))[key]| == op.size
    ensures forall key :: key in View(u) ==> key in View(After(u, op))
  {
    StepLooks(u, op);
  }

  /** Each request granted is a new byte array of the size asked, and it is
      there when the last request has been answered. */
  lemma {:induction false} GrantedStays(u: Umv, ops: seq<Op>, pid: int, i: nat)
    requires Valid(u) && LegalRun(u, ops) && AsksFor(ops, pid) && i < |ops|
    ensures |Replies(u, ops)| == |ops|
    ensures IsGranted(ops[i], Replies(u, ops)[i]) ==>
      var key := (pid, Replies(u, ops)[i].virt);
      key !in View(u) && key in View(Run(u, ops)) && |View(Run(u, ops))[key]| == ops[i].size
    decreases |ops|
  {
    hide View, Valid, Legal, Replies, StepReply, After, Run;
    RepliesHead(u, ops, i);
    assert ops[0].Request? && ops[0].pid == pid;
    RequestLooks(u, ops[0]);
    var v := After(u, ops[0]);
    if i > 0 {
      GrantedStays(v, ops[1..], pid, i - 1);
    } else if IsGranted(ops[0], StepReply(u, ops[0])) {
      UntouchedSurvives(v, ops[1..], (pid, StepReply(u, ops[0]).virt));
    }
  }

  /** No two of them have the same virtual address. */
  lemma {:induction false} GrantedAreApart(u: Umv, ops: seq<Op>, pid: int, i: nat, j: nat)
    requires Valid(u) && LegalRun(u, ops) && AsksFor(ops, pid) && i < j < |ops|
    ensures |Replies(u, ops)| == |ops|
    ensures IsGranted(ops[i], Replies(u, ops)[i]) && IsGranted(ops[j], Replies(u, ops)[j]) ==>
      Replies(u, ops)[i].virt != Replies(u, ops)[j].virt
    decreases |ops|
  {
    hide View, Valid, Legal, Replies, StepReply, After, Run;
    RepliesHead(u, ops, i);
    RepliesHead(u, ops, j);
    assert ops[0].Request? && ops[0].pid == pid;
    var v := After(u, ops[0]);
    if i == 0 {
      RequestLooks(u, ops[0]);
      GrantedStays(v, ops[1..], pid, j - 1);
    } else {
      GrantedAreApart(v, ops[1..], pid, i - 1, j - 1);
    }
  }

  // ---- when a program is rejected ----

  /** All the bytes that the program asks for. */
  function Asked(ops: seq<Op>): int {
    if ops == [] then 0 else (if ops[0].Request? then ops[0].size else 0) + Asked(ops[1..])
  }

  ghost predicate Rejected(replies: seq<Reply>) {
    exists i :: 0 <= i < |replies| && replies[i] == NotCreated
  }

  /** One request: an empty one is answered with no address under the normal code,
      and uses nothing; any other is refused exactly when it does not fit. */
  lemma OneRequest(u: Umv, op: Op)
    requires Valid(u) && Legal(u, op) && op.Request?
    ensures StepReply(u, op) == NotCreated <==> op.size > 0 && Used(u.list) + op.size > |u.mem|
    ensures op.size == 0 ==> StepReply(u, op) == Address(-1) && After(u, op) == u
    ensures |After(u, op).mem| == |u.mem|
    ensures Used(After(u, op).list) == Used(u.list) + (if StepReply(u, op) == NotCreated then 0 else op.size)
  {
    hide Valid, View, LegalRequest, Used;
    if op.size > 0 {
      RefusedIffFull(u, op.first, op.second, op.pid, op.size);
      RequestUses(u, op.first, op.second, op.pid, op.size);
      hide Requested;
    }
  }

  lemma RejectedHead(reply: Reply, rest: seq<Reply>)
    ensures Rejected([reply] + rest) <==> reply == NotCreated || Rejected(rest)
  {
    if i :| 0 <= i < |rest| && rest[i] == NotCreated {
      assert ([reply] + rest)[i + 1] == NotCreated;
    }
    assert ([reply] + rest)[0] == reply;
  }

  lemma UsedAtMost(u: Umv)
    requires Valid(u)
    ensures 0 <= Used(u.list) <= |u.mem|
  {
    hide Pairwise;
    UsedIsNatural(u.list, |u.mem|, u.nextId);
    if u.list != [] {
      SizesAreNatural(u.list, |u.mem|, u.nextId);
      UsedAtMostSize(u.list);
    }
  }

  lemma SizesAreNatural(list: seq<Segment>, total: int, nextId: int)
    requires AllWellFormed(list, total, nextId)
    ensures forall i :: 0 <= i < |list| ==> list[i].size >= 0
  {
    forall i | 0 <= i < |list| ensures list[i].size >= 0 {
      assert WellFormed(list[i], total, nextId);
    }
  }

  lemma {:induction false} UsedIsNatural(list: seq<Segment>, total: int, nextId: int)
    requires AllWellFormed(list, total, nextId)
    ensures Used(list) >= 0
  {
    if list != [] {
      assert WellFormed(list[0], total, nextId);
      UsedIsNatural(list[1..], total, nextId);
      UsedConcat([list[0]], list[1..]);
      UsedOne(list[0]);
      assert [list[0]] + list[1..] == list;
    }
  }

  lemma {:induction false} AskedIsNatural(u: Umv, ops: seq<Op>, pid: int)
    requires Valid(u) && LegalRun(u, ops) && AsksFor(ops, pid)
    ensures Asked(ops) >= 0
    decreases |ops|
  {
    hide Valid, LegalRequest, View;
    if ops != [] {
      assert ops[0].Request?;
      AskedIsNatural(After(u, ops[0]), ops[1..], pid);
    }
  }

  /** The kernel rejects a program, for a request not created, if and only if all
      that the program asks for is more than was free: the requests that ask for
      nothing never reject it, and neither do the order and the holes. */
  lemma {:induction false} RejectedIff(u: Umv, ops: seq<Op>, pid: int)
    requires Valid(u) && LegalRun(u, ops) && AsksFor(ops, pid)
    ensures Rejected(Replies(u, ops)) <==> Used(u.list) + Asked(ops) > |u.mem|
    decreases |ops|
  {
    hide Valid, View, Legal, Used, StepReply, After, Rejected;
    UsedAtMost(u);
    if ops == [] {
      assert !Rejected([]) by { NobodyRejected(); }
    } else {
      assert ops[0].Request? && ops[0].pid == pid;
      var v := After(u, ops[0]);
      OneRequest(u, ops[0]);
      RejectedIff(v, ops[1..], pid);
      AskedIsNatural(v, ops[1..], pid);
      RepliesAre(u, ops);
      RejectedHead(StepReply(u, ops[0]), Replies(v, ops[1..]));
      SizeIsNatural(u, ops[0]);
    }
  }

  lemma NobodyRejected()
    ensures !Rejected([])
  {
  }

  lemma SizeIsNatural(u: Umv, op: Op)
    requires Valid(u) && Legal(u, op) && op.Request?
    ensures op.size >= 0
  {
  }
}
