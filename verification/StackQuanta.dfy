/** The cycle of a CPU, one primitive after another, and the quanta in which a
    process gets it: a properly nested run is a plain sequence of primitives,
    and where it is cut into quanta, on whichever CPUs, cannot be observed. */
module StackQuanta {
  import opened Bytes
  import opened CallStack
  import opened StackRuns

  datatype Primitive =
    | Definition(name: byte)
    | Assignment(at: word, value: word)
    | Jump(entry: word)
    | Call(entry: word)
    | CallWithValue(entry: word, target: word)
    | End
    | Answer(value: word)

  function Apply(c: Cpu, p: Primitive): Cpu {
    match p
    case Definition(name) => Define(c, name).0
    case Assignment(at, value) => Assign(c, at, value)
    case Jump(entry) => Jumped(c, entry)
    case Call(entry) => CallPlain(c, entry)
    case CallWithValue(entry, target) => CallValued(c, entry, target)
    case End => Closed(c)
    case Answer(value) => Answered(c, value)
  }

  /** One instruction after the other on one CPU. */
  function Run(c: Cpu, ps: seq<Primitive>): Cpu
    decreases |ps|
  {
    if ps == [] then c else Run(Next(Apply(c, ps[0])), ps[1..])
  }

  /** The primitives a run goes through: its calls opened and closed in line,
      its changes of CPU left out. */
  function OpPrimitives(op: StackRuns.Op): seq<Primitive> {
    match op
    case Def(name) => [Definition(name)]
    case Set(at, value) => [Assignment(at, value)]
    case Goto(entry) => [Jump(entry)]
    case Resume => []
    case Sub(entry, body) => [Call(entry)] + Primitives(body) + [End]
    case Fun(entry, target, body, result) => [CallWithValue(entry, target)] + Primitives(body) + [Answer(result)]
  }

  function Primitives(code: Code): seq<Primitive> {
    if code.Done? then [] else OpPrimitives(code.op) + Primitives(code.rest)
  }

  lemma {:induction false} RunConcat(c: Cpu, a: seq<Primitive>, b: seq<Primitive>)
    ensures Run(c, a + b) == Run(Run(c, a), b)
    decreases |a|
  {
    if a == [] {
      assert a + b == b;
    } else {
      assert (a + b)[1..] == a[1..] + b;
      RunConcat(Next(Apply(c, a[0])), a[1..], b);
    }
  }

  lemma RunOne(c: Cpu, p: Primitive)
    ensures Run(c, [p]) == Next(Apply(c, p))
  {
    assert [p][1..] == [];
  }

  lemma RunCall(c: Cpu, open: Primitive, body: seq<Primitive>, close: Primitive)
    ensures Run(c, [open] + body + [close]) == Next(Apply(Run(Next(Apply(c, open)), body), close))
  {
    RunConcat(c, [open] + body, [close]);
    RunConcat(c, [open], body);
    RunOne(c, open);
    RunOne(Run(Next(Apply(c, open)), body), close);
  }

  lemma {:induction false} OpIsPrimitives(c: Cpu, f: Frames, op: StackRuns.Op)
    requires Sound(c, f) && LegalCode(f, c.base, c.base + |c.mem|, Then(op, Done))
    ensures ExecOp(c, op) == Run(c, OpPrimitives(op))
    decreases op, 1
  {
    hide Sound, LegalCode;
    match op
    case Def(name) => RunOne(c, Definition(name));
    case Set(at, value) => RunOne(c, Assignment(at, value));
    case Goto(entry) => RunOne(c, Jump(entry));
    case Resume =>
      MigrationIsInvisible(c, f);
    case Sub(entry, body) =>
      SubBody(c, f, op, body);
      QuantaAreInvisible(Next(CallPlain(c, entry)), Push(f, Plain(c.pc), []), body);
      RunCall(c, Call(entry), Primitives(body), End);
    case Fun(entry, target, body, result) =>
      FunBody(c, f, op, body);
      QuantaAreInvisible(Next(CallValued(c, entry, target)), Push(f, Valued(c.pc, target), []), body);
      RunCall(c, CallWithValue(entry, target), Primitives(body), Answer(result));
  }

  /** A process preempted after any instructions, any number of times, and taken
      up each time by a CPU that rebuilds its dictionary, ends as if one CPU had
      run its primitives in line. */
  lemma {:induction false} QuantaAreInvisible(c: Cpu, f: Frames, code: Code)
    requires Sound(c, f) && LegalCode(f, c.base, c.base + |c.mem|, code)
    ensures Exec(c, code) == Run(c, Primitives(code))
    decreases code, 0
  {
    hide Sound, LegalCode, ExecOp, OpPrimitives;
    match code
    case Done =>
    case Then(op, rest) =>
      LegalHead(f, c.base, c.base + |c.mem|, op, rest);
      var h := OpGrows(c, f, op);
      LegalAfter(f, h, c.base, c.base + |c.mem|, OpWrites(op), op, rest);
      OpIsPrimitives(c, f, op);
      QuantaAreInvisible(ExecOp(c, op), h, rest);
      RunConcat(c, OpPrimitives(op), Primitives(rest));
  }
}
