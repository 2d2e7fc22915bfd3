/** Runs given with the states that they go through. */
module SchedulerTraces {
  import opened Scheduler

  /** The states that a run goes through. */
  ghost predicate Trace(k: Kernel, es: seq<Event>, d: Kernel, ks: seq<Kernel>) {
    && |ks| == |es| + 1 && ks[0] == k && ks[|es|] == d
    && forall i :: 0 <= i < |es| ==> Enabled(ks[i], es[i]) && Step(ks[i], es[i]) == ks[i + 1]
  }

  ghost predicate Reaches(k: Kernel, es: seq<Event>, d: Kernel) {
    exists ks: seq<Kernel> :: Trace(k, es, d, ks)
  }

  /** It is a run in the sense of the theorems. */
  lemma {:induction false} TraceIsRun(k: Kernel, es: seq<Event>, d: Kernel, ks: seq<Kernel>)
    requires Trace(k, es, d, ks)
    ensures CanRun(k, es) && Run(k, es) == d
    decreases |es|
  {
    hide Step, Enabled;
    if es != [] {
      assert Enabled(ks[0], es[0]) && Step(ks[0], es[0]) == ks[1];
      TraceIsRun(ks[1], es[1..], d, ks[1..]);
    }
  }

  lemma ReachesIsRun(k: Kernel, es: seq<Event>, d: Kernel)
    requires Reaches(k, es, d)
    ensures CanRun(k, es) && Run(k, es) == d
  {
    var ks: seq<Kernel> :| Trace(k, es, d, ks);
    TraceIsRun(k, es, d, ks);
  }

  lemma Single(k: Kernel, e: Event, d: Kernel)
    requires Enabled(k, e) && Step(k, e) == d
    ensures Reaches(k, [e], d)
  {
    assert Trace(k, [e], d, [k, d]);
  }

  lemma Stand(k: Kernel)
    ensures Reaches(k, [], k)
  {
    assert Trace(k, [], k, [k]);
  }

  lemma Chain(k: Kernel, a: seq<Event>, d: Kernel, b: seq<Event>, f: Kernel)
    requires Reaches(k, a, d) && Reaches(d, b, f)
    ensures Reaches(k, a + b, f)
  {
    var ks :| Trace(k, a, d, ks);
    var ls :| Trace(d, b, f, ls);
    TraceChain(k, a, d, ks, b, f, ls);
  }

  lemma TraceChain(k: Kernel, a: seq<Event>, d: Kernel, ks: seq<Kernel>, b: seq<Event>, f: Kernel, ls: seq<Kernel>)
    requires Trace(k, a, d, ks) && Trace(d, b, f, ls)
    ensures Trace(k, a + b, f, ks + ls[1..])
  {
    hide Step, Enabled;
    var ms := ks + ls[1..];
    forall i | 0 <= i < |a + b| ensures Enabled(ms[i], (a + b)[i]) && Step(ms[i], (a + b)[i]) == ms[i + 1] {
      if i < |a| {
        assert Enabled(ks[i], a[i]) && Step(ks[i], a[i]) == ks[i + 1];
      } else {
        var j := i - |a|;
        assert Enabled(ls[j], b[j]) && Step(ls[j], b[j]) == ls[j + 1];
        assert ms[i] == ls[j] && ms[i + 1] == ls[j + 1];
      }
    }
  }

  lemma First(k: Kernel, e: Event, es: seq<Event>, d: Kernel)
    requires Enabled(k, e) && Reaches(Step(k, e), es, d)
    ensures Reaches(k, [e] + es, d)
  {
    Single(k, e, Step(k, e));
    hide Step, Enabled;
    Chain(k, [e], Step(k, e), es, d);
  }
}
