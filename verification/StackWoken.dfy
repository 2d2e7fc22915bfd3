/** A process that blocked is woken with the PCB it was dispatched with, over the
    segment as its quantum left it. This says where it goes on. */
module StackWoken {
  import opened Bytes
  import opened CallStack
  import opened StackRuns

  /** A call that the quantum opens and does not close. */
  datatype Open = OpenPlain(entry: word) | OpenValued(entry: word, target: word)

  /** What runs between a dispatch and the wait that blocks: a properly nested
      run, and then perhaps a call inside which the quantum goes on. */
  datatype Quantum = Level(code: Code) | Deeper(code: Code, call: Open, rest: Quantum)

  function Opened(c: Cpu, call: Open): Cpu {
    if call.OpenPlain? then Next(CallPlain(c, call.entry)) else Next(CallValued(c, call.entry, call.target))
  }

  function Elapsed(c: Cpu, q: Quantum): Cpu
    decreases q
  {
    if q.Level? then Exec(c, q.code) else Elapsed(Opened(Exec(c, q.code), q.call), q.rest)
  }

  /** The frames once a run has defined its variables, but for their values. */
  function Defined(f: Frames, names: seq<byte>): Frames {
    f.(vars := f.vars + seq(|names|, i requires 0 <= i < |names| => Var(names[i], 0)))
  }

  function LinkOf(call: Open, pc: word): Link {
    if call.OpenPlain? then Plain(pc) else Valued(pc, call.target)
  }

  predicate Fits(f: Frames, base: int, limit: int, call: Open) {
    && End(f, base) + LinkOf(call, 0).Size() <= limit
    && (call.OpenValued? ==> IsCell(f, base, call.target))
  }

  predicate LegalQuantum(f: Frames, base: int, limit: int, q: Quantum)
    decreases q
  {
    && LegalCode(f, base, limit, q.code)
    && (q.Deeper? ==>
          var g := Defined(f, Defs(q.code));
          Fits(g, base, limit, q.call) && LegalQuantum(Push(g, LinkOf(q.call, 0), []), base, limit, q.rest))
  }

  function Assigned(q: Quantum): set<int> {
    if q.Level? then Writes(q.code) else Writes(q.code) + Assigned(q.rest)
  }

  /** Where the program counter is after a run: past each instruction in turn,
      and at the entry after a jump. */
  function LandsAt(pc: word, code: Code): word
    decreases code
  {
    if code.Done? then pc
    else LandsAt(if code.op.Goto? then code.op.entry else if code.op.Resume? then pc else (pc + 1) % 0x1_0000_0000, code.rest)
  }

  /** The process as the next CPU takes it up: stack pointer, counter and program
      counter of `c`, over the segment of `d`. */
  function Woken(c: Cpu, d: Cpu): Cpu {
    WithNames(d.(sp := c.sp, ctx := c.ctx, pc := c.pc, names := map[]))
  }

  // ---- the frames under a quantum ----

  /** `h` is a context of `g`, or `g` itself. */
  predicate Contains(g: Frames, h: Frames) {
    g == h || (g.Push? && Contains(g.below, h))
  }

  lemma {:induction false} ContainsImage(g: Frames, h: Frames, base: int)
    requires Contains(g, h)
    ensures Image(h, base) <= Image(g, base)
    ensures g != h ==> Start(g, base) > Start(h, base)
  {
    hide Image, Floor, VarsImage, LinkImage;
    if g != h {
      ContainsImage(g.below, h, base);
      ChainEndsAtBase(g, base);
      ImageParts(g, base);
    }
  }

  lemma {:induction false} ContainsBelow(g: Frames, h: Frames)
    requires Contains(g, h) && h.Push?
    ensures Contains(g, h.below)
    ensures g != h.below
  {
    if g != h {
      ContainsBelow(g.below, h);
      BelowDiffers(g, h.below);
    }
  }

  lemma {:induction false} BelowDiffers(g: Frames, h: Frames)
    requires g.Push? && Contains(g.below, h)
    ensures g != h
  {
    DeeperThan(g.below, h);
  }

  lemma {:induction false} DeeperThan(g: Frames, h: Frames)
    requires Contains(g, h)
    ensures Depth(g) >= Depth(h)
  {
    if g != h {
      DeeperThan(g.below, h);
    }
  }

  lemma SameDefined(f: Frames, h: Frames, base: int, w: set<int>, defs: seq<byte>)
    requires Grown(f, h, base, w, defs)
    ensures SameShape(Defined(f, defs), h)
  {
    if f.Push? {
      GrownStart(f.below, h.below, base, w, []);
    }
  }

  lemma Opens(c: Cpu, f: Frames, call: Open)
    requires Sound(c, f) && Fits(f, c.base, c.base + |c.mem|, call)
    ensures var d := Opened(c, call);
      && Sound(d, Push(f, LinkOf(call, c.pc), [])) && d.base == c.base && |d.mem| == |c.mem|
  {
    hide Sound, CallPlain, CallValued;
    if call.OpenPlain? {
      CallPlainPushes(c, f, call.entry);
      NextKeepsSound(CallPlain(c, call.entry), Push(f, Plain(c.pc), []));
    } else {
      CallValuedPushes(c, f, call.entry, call.target);
      NextKeepsSound(CallValued(c, call.entry, call.target), Push(f, Valued(c.pc, call.target), []));
    }
  }

  lemma FitsShape(f: Frames, g: Frames, base: int, limit: int, call: Open)
    requires SameShape(f, g) && Fits(f, base, limit, call)
    ensures Fits(g, base, limit, call)
  {
    ShapeDecides(f, g, base);
    if call.OpenValued? {
      CellShape(f, g, base, call.target);
    }
  }

  lemma {:induction false} LegalQuantumShape(f: Frames, g: Frames, base: int, limit: int, q: Quantum)
    requires SameShape(f, g) && LegalQuantum(f, base, limit, q)
    ensures LegalQuantum(g, base, limit, q)
    decreases q
  {
    LegalShape(f, g, base, limit, q.code);
    if q.Deeper? {
      var f', g' := Defined(f, Defs(q.code)), Defined(g, Defs(q.code));
      assert SameShape(f', g');
      FitsShape(f', g', base, limit, q.call);
      LegalQuantumShape(Push(f', LinkOf(q.call, 0), []), Push(g', LinkOf(q.call, 0), []), base, limit, q.rest);
    }
  }

  lemma PushShape(f: Frames, g: Frames, call: Open, pc: word)
    requires SameShape(f, g)
    ensures SameShape(Push(f, LinkOf(call, 0), []), Push(g, LinkOf(call, pc), []))
  {
  }

  /** After a quantum the context it was dispatched in is there, with the
      variables defined in it, under the calls left open. */
  lemma {:induction false} QuantumGrows(c: Cpu, f: Frames, q: Quantum) returns (g: Frames, h: Frames)
    requires Sound(c, f) && LegalQuantum(f, c.base, c.base + |c.mem|, q)
    ensures var d := Elapsed(c, q);
      && Sound(d, g) && d.base == c.base && |d.mem| == |c.mem|
      && Contains(g, h) && Grown(f, h, c.base, Assigned(q), Defs(q.code))
      && (q.Level? <==> g == h)
    decreases q
  {
    hide Sound, Grown, LegalCode, Exec;
    var g0 := ExecGrows(c, f, q.code);
    if q.Level? {
      g, h := g0, g0;
    } else {
      var d0, limit := Exec(c, q.code), c.base + |c.mem|;
      var f1, link := Defined(f, Defs(q.code)), LinkOf(q.call, d0.pc);
      SameDefined(f, g0, c.base, Writes(q.code), Defs(q.code));
      FitsShape(f1, g0, c.base, limit, q.call);
      Opens(d0, g0, q.call);
      PushShape(f1, g0, q.call, d0.pc);
      LegalQuantumShape(Push(f1, LinkOf(q.call, 0), []), Push(g0, link, []), c.base, limit, q.rest);
      var h1;
      g, h1 := QuantumGrows(Opened(d0, q.call), Push(g0, link, []), q.rest);
      h := GrownUnder(g0, link, h1, c.base, Assigned(q.rest), Defs(q.rest.code));
      ContainsBelow(g, h1);
      GrownTrans(f, g0, h, c.base, Writes(q.code), Assigned(q.rest), Defs(q.code), []);
      assert Defs(q.code) + [] == Defs(q.code);
    }
  }

  // ---- forgetting what was defined ----

  function Forgotten(h: Frames, n: nat): Frames
    requires n <= |h.vars|
  {
    h.(vars := h.vars[..n])
  }

  lemma {:induction false} ForgottenImage(h: Frames, n: nat, base: int)
    requires n <= |h.vars|
    ensures Image(Forgotten(h, n), base) <= Image(h, base) && Start(Forgotten(h, n), base) == Start(h, base)
    decreases |h.vars| - n
  {
    if n == |h.vars| {
      assert h.vars[..n] == h.vars;
    } else {
      ForgottenImage(h, n + 1, base);
      assert h.vars[..n + 1] == h.vars[..n] + [h.vars[n]];
      ImageSnoc(Forgotten(h, n), base, h.vars[n]);
    }
  }

  lemma {:induction false} ForgottenGrown(f: Frames, h: Frames, base: int, w: set<int>, defs: seq<byte>)
    requires Grown(f, h, base, w, defs)
    ensures |f.vars| <= |h.vars| && Grown(f, Forgotten(h, |f.vars|), base, w, [])
  {
    var b := Forgotten(h, |f.vars|);
    assert |b.vars| == |f.vars| && forall j :: 0 <= j < |f.vars| ==> b.vars[j] == h.vars[j];
  }

  /** Whatever its quantum did inside the context it was dispatched in, the woken
      process is in that context as dispatched, at the program counter it was
      dispatched with, without the variables it has defined since and over the
      values it has assigned since: it runs its quantum again from the start. */
  lemma WokenRepeats(c: Cpu, f: Frames, q: Quantum) returns (b: Frames)
    requires Sound(c, f) && LegalQuantum(f, c.base, c.base + |c.mem|, q)
    ensures var w := Woken(c, Elapsed(c, q));
      && Sound(w, b) && Grown(f, b, c.base, Assigned(q), [])
      && w.pc == c.pc && w.sp == c.sp && w.ctx == c.ctx && w.names == c.names
      && w.mem == Elapsed(c, q).mem
  {
    var g, h := QuantumGrows(c, f, q);
    ForgottenGrown(f, h, c.base, Assigned(q), Defs(q.code));
    b := Forgotten(h, |f.vars|);
    ForgottenImage(h, |f.vars|, c.base);
    ContainsImage(g, h, c.base);
    WokenSound(c, f, Elapsed(c, q), g, b, Assigned(q));
  }

  lemma WokenSound(c: Cpu, f: Frames, d: Cpu, g: Frames, b: Frames, w: set<int>)
    requires Sound(c, f) && Sound(d, g) && d.base == c.base && |d.mem| == |c.mem|
    requires Grown(f, b, c.base, w, []) && Image(b, c.base) <= Image(g, c.base)
    ensures Sound(Woken(c, d), b) && Woken(c, d) == d.(sp := c.sp, ctx := c.ctx, pc := c.pc, names := c.names)
  {
    hide Image, Start, End, Rebuilt, Dict;
    GrownStart(f, b, c.base, w, []);
    DictDependsOnNames(f.vars, b.vars, c.sp);
    hide Grown;
    RebuiltAt(b, c.base, d.mem);
  }

  // ---- when that is where it blocked ----

  lemma {:induction false} ExecLands(c: Cpu, f: Frames, code: Code)
    requires Sound(c, f) && LegalCode(f, c.base, c.base + |c.mem|, code)
    ensures Exec(c, code).pc == LandsAt(c.pc, code)
    decreases code
  {
    hide Sound, LegalCode, ExecOp, Grown;
    if code.Then? {
      LegalHead(f, c.base, c.base + |c.mem|, code.op, code.rest);
      OpLands(c, f, code.op);
      var h := OpGrows(c, f, code.op);
      LegalAfter(f, h, c.base, c.base + |c.mem|, OpWrites(code.op), code.op, code.rest);
      ExecLands(ExecOp(c, code.op), h, code.rest);
    }
  }

  lemma OpLands(c: Cpu, f: Frames, op: Op)
    requires Sound(c, f) && LegalCode(f, c.base, c.base + |c.mem|, Then(op, Done))
    ensures ExecOp(c, op).pc ==
      if op.Goto? then op.entry else if op.Resume? then c.pc else (c.pc + 1) % 0x1_0000_0000
  {
    if op.Sub? {
      hide Sound, LegalCode, Grown, ExecOp;
      var h := SubGrows(c, f, op, op.body);
    } else if op.Fun? {
      hide Sound, LegalCode, Grown, ExecOp;
      var h := FunGrows(c, f, op, op.body);
    } else if op.Goto? {
      EntryReached(op.entry);
    } else {
      hide Image, Start, End, Encode, Overwrite, Rebuilt;
    }
  }

  /** The woken process is the process that blocked if and only if its quantum
      left no call open, defined nothing in the context it was dispatched in, and
      its instructions lead back to the one it was dispatched at. */
  lemma WokenResumesIff(c: Cpu, f: Frames, q: Quantum)
    requires Sound(c, f) && LegalQuantum(f, c.base, c.base + |c.mem|, q)
    ensures Woken(c, Elapsed(c, q)) == Elapsed(c, q)
      <==> q.Level? && Defs(q.code) == [] && LandsAt(c.pc, q.code) == c.pc
  {
    var d := Elapsed(c, q);
    var g, h := QuantumGrows(c, f, q);
    var b := WokenRepeats(c, f, q);
    if q.Level? {
      ExecLands(c, f, q.code);
      MigrationIsInvisible(d, g);
      SameWhereCounted(c, f, d, g, q);
    } else {
      ContainsImage(g, h, c.base);
      GrownStart(f, h, c.base, Assigned(q), Defs(q.code));
      MovedAway(c, f, d, g);
    }
  }

  lemma MovedAway(c: Cpu, f: Frames, d: Cpu, g: Frames)
    requires Sound(c, f) && Sound(d, g) && d.base == c.base && Start(g, c.base) > Start(f, c.base)
    ensures Woken(c, d) != d
  {
    hide Image, Start, Rebuilt, Dict;
  }

  lemma SameWhereCounted(c: Cpu, f: Frames, d: Cpu, g: Frames, q: Quantum)
    requires Sound(c, f) && Sound(d, g) && d.base == c.base && WithNames(d) == d
    requires Grown(f, g, c.base, Assigned(q), Defs(q.code))
    ensures Woken(c, d) == d <==> Defs(q.code) == [] && d.pc == c.pc
  {
    hide Image, Start, Rebuilt, Dict;
    GrownStart(f, g, c.base, Assigned(q), Defs(q.code));
  }

  /** In particular, a quantum without jumps that runs any instruction at all is
      not resumed where it blocked. */
  lemma {:induction false} StraightLands(pc: word, code: Code)
    requires Straight(code)
    ensures LandsAt(pc, code) == (pc + Instructions(code)) % 0x1_0000_0000
    decreases code
  {
    if code.Then? {
      var pc1: word := if code.op.Resume? then pc else (pc + 1) % 0x1_0000_0000;
      StraightLands(pc1, code.rest);
      if !code.op.Resume? {
        WrapsOnce(pc + 1, Instructions(code.rest));
      }
    } else {
      WrapsOnce(pc, 0);
    }
  }

  lemma WrapsOnce(x: nat, y: nat)
    ensures (x % 0x1_0000_0000 + y) % 0x1_0000_0000 == (x + y) % 0x1_0000_0000
  {
    var q := x / 0x1_0000_0000;
    assert x == 0x1_0000_0000 * q + x % 0x1_0000_0000;
    Multiples(x % 0x1_0000_0000 + y, q);
  }

  lemma {:induction false} Multiples(x: nat, q: nat)
    ensures (x + 0x1_0000_0000 * q) % 0x1_0000_0000 == x % 0x1_0000_0000
    decreases q
  {
    if q > 0 {
      Multiples(x, q - 1);
    }
  }

  predicate Straight(code: Code) {
    code.Done? || (!code.op.Goto? && Straight(code.rest))
  }

  function Instructions(code: Code): nat {
    if code.Done? then 0 else (if code.op.Resume? then 0 else 1) + Instructions(code.rest)
  }

  lemma StraightResumesIff(c: Cpu, f: Frames, code: Code)
    requires Sound(c, f) && LegalCode(f, c.base, c.base + |c.mem|, code)
    requires Straight(code) && Instructions(code) < 0x1_0000_0000
    ensures Woken(c, Exec(c, code)) == Exec(c, code) <==> Instructions(code) == 0
  {
    WokenResumesIff(c, f, Level(code));
    StraightLands(c.pc, code);
    NothingDefined(code);
    hide Sound, LegalCode, Woken, Exec, LandsAt;
    NotBack(c.pc, Instructions(code));
  }

  lemma NotBack(pc: word, n: nat)
    requires n < 0x1_0000_0000
    ensures (pc + n) % 0x1_0000_0000 == pc <==> n == 0
  {
  }

  lemma {:induction false} NothingDefined(code: Code)
    ensures Instructions(code) == 0 ==> Defs(code) == []
    decreases code
  {
    if code.Then? {
      NothingDefined(code.rest);
    }
  }

  // ---- a quantum that closes the context it was dispatched in ----

  lemma LowByteWritten(mem: seq<byte>, n: nat, w: word, name: byte)
    requires n + 4 <= |mem| && mem[n..n + 4] == Encode(w)
    ensures Decode(Overwrite(mem, n, [name])[n..n + 4]) == w - w % 256 + name
  {
    var b := Overwrite(mem, n, [name])[n..n + 4];
    assert b[0] == name;
    forall i | 1 <= i < 4 ensures b[i] == Encode(w)[i] {
      assert Overwrite(mem, n, [name])[n + i] == mem[n + i] == mem[n..n + 4][i];
    }
    DecodeEncode(w);
  }

  lemma ReadsSlice(c: Cpu, at: int)
    requires InSegment(c, at, WORD)
    ensures ReadWord(c, at) == Decode(c.mem[at - c.base..at - c.base + WORD])
  {
  }

  lemma PlainGeometry(c: Cpu, b: Frames, pc: word, vars: seq<Var>)
    requires Sound(c, Push(b, Plain(pc), vars))
    ensures 0 <= Start(b, c.base) < 0x1_0000_0000
    ensures c.base + |Image(b, c.base)| == End(b, c.base) && c.sp == End(b, c.base) + 2 * WORD
    ensures Image(b, c.base) + LinkImage(Start(b, c.base), Plain(pc)) <= c.mem
  {
    hide Image, LinkImage, Floor, VarsImage, Start, End, Dict, Encode, Decode;
    var f := Push(b, Plain(pc), vars);
    Extent(c, f);
    EndOf(f, c.base);
    EndOf(b, c.base);
    ChainEndsAtBase(f, c.base);
    ChainEndsAtBase(b, c.base);
    PrefixOfFloor(f, c.base, c.mem);
  }

  /** The saved stack pointer of a context is above the caller's variables. */
  lemma SavedPointer(c: Cpu, b: Frames, pc: word, vars: seq<Var>)
    requires Sound(c, Push(b, Plain(pc), vars))
    ensures var n := |Image(b, c.base)|;
      && n + 2 * WORD <= |c.mem| && c.sp == c.base + n + 2 * WORD && c.base + n == End(b, c.base)
      && 0 <= Start(b, c.base) < 0x1_0000_0000 && c.mem[n..n + 4] == Encode(Start(b, c.base))
  {
    hide Sound, Image, LinkImage, Start, End, Encode, Decode;
    PlainGeometry(c, b, pc, vars);
    PlainLink(Start(b, c.base), pc);
    Regroup(Image(b, c.base), Encode(Start(b, c.base)), Encode(pc));
    Shorter(Image(b, c.base) + Encode(Start(b, c.base)), Encode(pc), c.mem);
    PrefixSlice(Image(b, c.base), c.mem, Encode(Start(b, c.base)));
  }

  lemma DefinedOverLink(c: Cpu, b: Frames, pc: word, vars: seq<Var>, name: byte)
    requires Sound(c, Push(b, Plain(pc), vars))
    ensures CanFinish(c)
    ensures var d := Next(Define(Next(Finish(c)), name).0);
      && d.base == c.base && |Image(b, c.base)| < |c.mem| && d.status == Normal
      && d.mem == Overwrite(c.mem, |Image(b, c.base)|, [name])
  {
    hide Image, Start, End, Dict, Encode, Overwrite, Finish, CanFinish, Define;
    SavedPointer(c, b, pc, vars);
    FinishUndoes(c, b, pc, vars);
    var c1 := Next(Finish(c));
    NextKeepsSound(Finish(c), b);
    Extent(c1, b);
    DefineFields(c1, name, |Image(b, c.base)|);
  }

  /** Dispatched inside a call, the process returns, its caller defines a variable
      and it blocks. Woken, it is inside the call again, over a link whose first
      byte is now the name: the next `finalizar` restores the caller's stack
      pointer if and only if that byte happens to be the same. */
  lemma ClosedContextIsResumed(c: Cpu, b: Frames, pc: word, vars: seq<Var>, name: byte)
    requires Sound(c, Push(b, Plain(pc), vars))
    ensures CanFinish(c)
    ensures var w := Woken(c, Next(Define(Next(Finish(c)), name).0));
      && w.sp == c.sp && w.pc == c.pc && CanFinish(w)
      && (Finish(w).sp == Start(b, c.base) <==> name == Start(b, c.base) % 256)
  {
    hide Sound, Image, Start, End, Dict, Encode, Decode, Overwrite, Define, Rebuilt;
    SavedPointer(c, b, pc, vars);
    DefinedOverLink(c, b, pc, vars, name);
    LowByteWritten(c.mem, |Image(b, c.base)|, Start(b, c.base), name);
    var w := Woken(c, Next(Define(Next(Finish(c)), name).0));
    ReadsSlice(w, w.sp - 2 * WORD);
    Popped(w);
    hide Finish, CanFinish;
  }

  lemma Popped(w: Cpu)
    requires w.status == Normal && w.sp != w.base && InSegment(w, w.sp - 2 * WORD, 2 * WORD)
    ensures CanFinish(w) && Finish(w).sp == ReadWord(w, w.sp - 2 * WORD)
  {
    hide Rebuilt, Decode;
  }
}
