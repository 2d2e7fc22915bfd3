/** A stack that overflows: where it is noticed, and what happens from then on. */
module StackOverflow {
  import opened Bytes
  import opened CallStack
  import opened StackRuns
  import StackQuanta

  /** An assignment stops the process exactly when the cell is not in the segment,
      and writes nothing then. */
  lemma AssignStopsIff(c: Cpu, at: int, value: word)
    requires c.status == Normal
    ensures Assign(c, at, value).status == (if InSegment(c, at, WORD) then Normal else CallStack.StackOverflow)
    ensures !InSegment(c, at, WORD) ==> Assign(c, at, value) == c.(status := CallStack.StackOverflow, names := map[])
  {
    hide Encode, Overwrite;
  }

  lemma DefineMoves(c: Cpu, name: byte)
    requires c.status == Normal
    ensures var (d, at) := Define(c, name);
      && d.status == Normal && d.base == c.base && |d.mem| == |c.mem| && d.sp == c.sp && d.pc == c.pc
      && at == c.sp + VARIABLE * c.ctx + 1
  {
    hide Overwrite;
  }

  /** A definition that does not fit raises nothing; the assignment to the cell it
      answered does. The overflow is noticed there if and only if the variable
      does not fit. */
  lemma OverflowIsNoticedIff(c: Cpu, f: Frames, name: byte, value: word)
    requires Sound(c, f)
    ensures Define(c, name).0.status == Normal
    ensures Assign(Define(c, name).0, Define(c, name).1, value).status == CallStack.StackOverflow
      <==> End(f, c.base) + VARIABLE > c.base + |c.mem|
  {
    hide Image, Start, End, Dict, Define, Encode, Overwrite, Assign;
    Extent(c, f);
    DefineMoves(c, name);
    AssignStopsIff(Define(c, name).0, Define(c, name).1, value);
  }

  lemma StoppedStep(c: Cpu, p: StackQuanta.Primitive)
    requires c.status != Normal
    ensures StackQuanta.Apply(c, p) == c
    ensures p.Definition? ==> Define(c, p.name).1 == 0
  {
  }

  /** From then on no primitive changes anything: not the segment, not the stack
      fields, not the names and not the state. */
  lemma {:induction false} StoppedForGood(c: Cpu, ps: seq<StackQuanta.Primitive>)
    requires c.status != Normal
    ensures StackQuanta.Run(c, ps) == c.(pc := StackQuanta.Run(c, ps).pc)
    decreases |ps|
  {
    if ps != [] {
      StoppedStep(c, ps[0]);
      StoppedForGood(Next(c), ps[1..]);
    }
  }
}
