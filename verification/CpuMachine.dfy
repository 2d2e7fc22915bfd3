/** The CPU as the program keeps it: the fields of the PCB, the dictionary and
    the state, with the stack in a segment of the memory manager, reached by
    read and write requests. Every primitive is tied to the function of the same
    purpose in CallStack, about which StackRuns proves what calls promise. */
module CpuMachine {
  import opened Bytes
  import opened Segments
  import opened UmvRuns
  import opened UmvMemory
  import CallStack
  import StackRuns

  const NOT_FOUND := 0xFFFF_FFFF

  /** The names of `info`, one every five bytes, are those of the segment. */
  lemma {:induction false} RebuiltFromSlice(mem: seq<byte>, from: nat, sp: int, n: nat, info: seq<byte>)
    requires from + 5 * n <= |mem| && 5 * n <= |info| && info[..5 * n] == mem[from..from + 5 * n]
    ensures CallStack.Rebuilt(info, 0, sp, n) == CallStack.Rebuilt(mem, from, sp, n)
  {
    if n > 0 {
      assert info[..5 * n][5 * (n - 1)] == mem[from..from + 5 * n][5 * (n - 1)];
      assert info[..5 * (n - 1)] == info[..5 * n][..5 * (n - 1)] == mem[from..from + 5 * n][..5 * (n - 1)];
      RebuiltFromSlice(mem, from, sp, n - 1, info);
    }
  }

  /** The dictionary of `c` can be rebuilt: its variables lie in the segment. */
  predicate Rebuildable(c: CallStack.Cpu) {
    0 <= c.ctx && Reachable(c, c.sp) && CallStack.InSegment(c, c.sp, CallStack.VARIABLE * c.ctx)
  }

  /** `finalizar` finds what it pops, and the caller's variables. */
  predicate ReadyToFinish(c: CallStack.Cpu) {
    c.status == CallStack.Normal && c.sp != c.base ==>
      Reachable(c, c.sp) && CallStack.CanFinish(c) && Rebuildable(CallStack.Finish(c))
  }

  /** An offset that a request can carry without becoming negative. */
  predicate Reachable(c: CallStack.Cpu, at: int) {
    0 <= at - c.base < CallStack.MAX_SEGMENT
  }

  /** A push of up to three words above the variables has such an offset. */
  predicate CanPush(c: CallStack.Cpu) {
    c.base <= c.sp && 0 <= c.ctx && Reachable(c, c.sp + CallStack.VARIABLE * c.ctx + 3 * CallStack.WORD)
  }

  /** `retornar` finds what it pops, and answers at an address in reach. */
  predicate ReadyToReturn(c: CallStack.Cpu, value: word) {
    c.status == CallStack.Normal ==>
      && CallStack.CanReturn(c) && Reachable(c, c.sp - CallStack.WORD)
      && Reachable(c, CallStack.ReadWord(c, c.sp - CallStack.WORD))
      && ReadyToFinish(Answering(c, value))
  }

  /** The state in which `retornar` calls `finalizar`. */
  function Answering(c: CallStack.Cpu, value: word): CallStack.Cpu
    requires CallStack.CanReturn(c)
  {
    var d := CallStack.Assign(c, CallStack.ReadWord(c, c.sp - CallStack.WORD), value);
    d.(sp := d.sp - CallStack.WORD)
  }

  /** In a process that is where its frames say, every primitive can run: what
      the methods below ask of their caller holds. */
  lemma SoundIsReady(c: CallStack.Cpu, f: CallStack.Frames, value: word)
    requires CallStack.Sound(c, f)
    ensures CanPush(c) && Rebuildable(c)
    ensures forall at: int :: CallStack.IsCell(f, c.base, at) ==> Reachable(c, at)
    ensures f.Bottom? || f.link.Plain? ==> ReadyToFinish(c)
    ensures f.Push? && f.link.Valued? && CallStack.IsCell(f.below, c.base, f.link.target) ==> ReadyToReturn(c, value)
  {
    hide CallStack.Image, CallStack.Floor, CallStack.Start, CallStack.End, CallStack.Finish, CallStack.Dict,
      CallStack.ReadWord, CallStack.IsCell, CallStack.Assign;
    StackRuns.Extent(c, f);
    CallStack.ChainEndsAtBase(f, c.base);
    forall at: int | CallStack.IsCell(f, c.base, at) ensures Reachable(c, at) {
      CallStack.CellBounds(f, c.base, at);
    }
    if f.Push? && f.link.Plain? {
      StackRuns.FinishUndoes(c, f.below, f.link.pc, f.vars);
      StackRuns.Extent(CallStack.Finish(c), f.below);
    } else if f.Push? && CallStack.IsCell(f.below, c.base, f.link.target) {
      ReturnIsReady(c, f, value);
    }
  }

  /** The answer for an unknown name is -1 as an address, and never the position of
      a variable: a name is unknown exactly when that is its position. */
  lemma UnknownIffNotFound(c: CallStack.Cpu, f: CallStack.Frames, name: byte)
    requires CallStack.Sound(c, f)
    ensures NOT_FOUND == CallStack.ToWord(-1)
    ensures name in c.names ==> CallStack.IsCell(f, c.base, c.names[name] + 1) && c.names[name] + 1 != NOT_FOUND
  {
    hide CallStack.Image, CallStack.Start, CallStack.End;
    StackRuns.Extent(c, f);
    StackRuns.DictFindsLast(f.vars, c.sp, name);
    if name in c.names {
      var j :| 0 <= j < |f.vars| && CallStack.Dict(f.vars, c.sp)[name] == c.sp + CallStack.VARIABLE * j;
      assert CallStack.LocalIndex(f, c.base, c.names[name] + 1) == j;
      CallStack.CellBounds(f, c.base, c.names[name] + 1);
    }
  }

  lemma ReturnIsReady(c: CallStack.Cpu, f: CallStack.Frames, value: word)
    requires CallStack.Sound(c, f) && f.Push? && f.link.Valued? && CallStack.IsCell(f.below, c.base, f.link.target)
    ensures ReadyToReturn(c, value)
  {
    hide CallStack.Image, CallStack.Floor, CallStack.Start, CallStack.End, CallStack.Finish, CallStack.Dict,
      CallStack.ReadWord, CallStack.IsCell, CallStack.SetCell, CallStack.Assign, CallStack.LinkImage;
    var b, target := f.below, f.link.target;
    StackRuns.ReturnReads(c, b, f.link.pc, target, f.vars);
    CallStack.CellBounds(b, c.base, target);
    StackRuns.ReturnUndoes(c, b, f.link.pc, target, f.vars, value);
    StackRuns.Extent(CallStack.Return(c, value), CallStack.SetCell(b, c.base, target, value));
    StackRuns.AnswerFields(c, b, target, value);
    var d := Answering(c, value);
    assert CallStack.Return(c, value) == CallStack.Finish(d);
  }

  /** The process that a PCB and the memory manager describe. */
  ghost function InMemory(u: Umv, pid: int, base: word, sp: int, ctx: int, pc: word): CallStack.Cpu
    requires Valid(u) && (pid, base as int) in View(u)
  {
    CallStack.WithNames(CallStack.Cpu(View(u)[(pid, base as int)], base, sp, ctx, pc, map[], CallStack.Normal))
  }

  /** While the process waits in a queue, whatever the memory manager creates,
      writes, destroys and compacts for others, wherever the stack segment is
      moved: the process taken up is the process handed back. */
  lemma StackSurvives(u: Umv, ops: seq<Op>, pid: int, c: CallStack.Cpu, f: CallStack.Frames)
    requires Valid(u) && LegalRun(u, ops) && CallStack.Sound(c, f)
    requires c.base < 0x1_0000_0000 && (pid, c.base) in View(u) && View(u)[(pid, c.base)] == c.mem
    requires forall i :: 0 <= i < |ops| ==> !Touches(ops[i], (pid, c.base))
    ensures Valid(Run(u, ops)) && (pid, c.base) in View(Run(u, ops))
    ensures InMemory(Run(u, ops), pid, c.base, c.sp, c.ctx, c.pc) == c
  {
    hide View, Valid, Run, LegalRun, CallStack.Rebuilt, CallStack.Image, CallStack.Dict;
    UntouchedSurvives(u, ops, (pid, c.base));
    StackRuns.MigrationIsInvisible(c, f);
  }

  class Machine {
    const umv: Memory
    var pid: int
    var base: word
    var sp: int
    var ctx: int
    var pc: word
    var names: map<byte, int>
    var status: CallStack.Status

    /** The stack segment of the process exists. */
    ghost predicate Attached()
      reads this, umv, umv.mem
    {
      Valid(umv.State()) && pid > 0 && Key() in View(umv.State())
    }

    ghost function Key(): (int, int)
      reads this
    {
      (pid, base)
    }

    ghost function State(): CallStack.Cpu
      reads this, umv, umv.mem
      requires Attached()
    {
      CallStack.Cpu(View(umv.State())[Key()], base, sp, ctx, pc, names, status)
    }

    /** Every segment but this one. */
    ghost function Others(): map<(int, int), seq<byte>>
      reads this, umv, umv.mem
      requires Attached()
    {
      View(umv.State()) - {Key()}
    }

    constructor (umv: Memory)
      ensures this.umv == umv && status == CallStack.Normal
    {
      this.umv := umv;
      pid, base, sp, ctx, pc, names, status := -1, 0, 0, 0, 0, map[], CallStack.Normal;
    }

    method WriteStack(at: int, bytes: seq<byte>) returns (ok: bool)
      requires Attached() && Reachable(State(), at)
      modifies umv.mem
      ensures Attached() && Others() == old(Others())
      ensures ok <==> CallStack.InSegment(old(State()), at, |bytes|)
      ensures State() == CallStack.Written(old(State()), at, bytes)
    {
      hide Valid, View, WriteBytes, Overwrite, InReach;
      ghost var u := umv.State();
      ValidIsInside(u);
      WriteUpdatesOne(u, bytes, base, at - base, pid);
      ok := umv.Write(bytes, base, at - base, pid);
    }

    method ReadStack(at: int, n: nat) returns (r: Option<seq<byte>>)
      requires Attached() && Reachable(State(), at)
      ensures r == if CallStack.InSegment(State(), at, n) then Some(State().mem[at - base..at - base + n]) else None
    {
      hide Valid, View, ReadBytes;
      ValidIsInside(umv.State());
      ReadIsSlice(umv.State(), base, at - base, n, pid);
      r := umv.Read(base, at - base, n, pid);
    }

    /** The answer is compared with a code the memory never sends. */
    method Push(bytes: seq<byte>, offset: int)
      requires Attached() && Reachable(State(), sp + offset)
      modifies this`ctx, umv.mem
      ensures Attached() && Others() == old(Others())
      ensures State() == CallStack.Pushed(old(State()), bytes, offset)
    {
      hide CallStack.Written, View, Valid;
      var ok := WriteStack(sp + offset, bytes);
      ctx := ctx + 1;
    }

    method PopWord(offset: int) returns (w: word)
      requires Attached() && Reachable(State(), sp + offset)
      requires CallStack.InSegment(State(), sp + offset, CallStack.WORD)
      ensures w == CallStack.ReadWord(State(), sp + offset)
    {
      hide View, Valid;
      var r := ReadStack(sp + offset, CallStack.WORD);
      w := Decode(r.value);
    }

    method Define(name: byte) returns (at: int)
      requires Attached() && CanPush(State())
      modifies this`ctx, this`names, umv.mem
      ensures Attached() && Others() == old(Others())
      ensures (State(), at) == CallStack.Define(old(State()), name)
    {
      hide CallStack.Written, View, Valid;
      if status == CallStack.Normal {
        Push([name], ctx * CallStack.VARIABLE);
        var position := sp + ctx * CallStack.VARIABLE - CallStack.VARIABLE;
        names := names[name := position];
        return position + 1;
      }
      return 0;
    }

    /** One past the position the dictionary gives; for an unknown name the
        unsigned form of -1. */
    method Position(name: byte) returns (at: int)
      ensures at == if status == CallStack.Normal && name in names then names[name] + 1 else NOT_FOUND
    {
      if status == CallStack.Normal && name in names {
        return names[name] + 1;
      }
      return NOT_FOUND;
    }

    method Dereference(at: word) returns (value: word)
      requires Attached()
      requires status == CallStack.Normal ==>
        Reachable(State(), at) && CallStack.InSegment(State(), at, CallStack.WORD)
      ensures value == if status == CallStack.Normal then CallStack.ReadWord(State(), at) else 0
    {
      hide View, Valid;
      if status == CallStack.Normal {
        var r := ReadStack(at, CallStack.WORD);
        return Decode(r.value);
      }
      return 0;
    }

    method Assign(at: word, value: word)
      requires Attached() && (status == CallStack.Normal ==> Reachable(State(), at))
      modifies this`status, this`names, umv.mem
      ensures Attached() && Others() == old(Others())
      ensures State() == CallStack.Assign(old(State()), at, value)
      ensures old(status) == CallStack.Normal ==>
        (status == CallStack.StackOverflow <==> !CallStack.InSegment(old(State()), at, CallStack.WORD))
      ensures status == CallStack.StackOverflow ==> State().mem == old(State()).mem
    {
      hide View, Valid, Encode;
      if status == CallStack.Normal {
        var ok := WriteStack(at, Encode(value));
        if !ok {
          status, names := CallStack.StackOverflow, map[];
        }
      }
    }

    method JumpTo(entry: word)
      requires Attached()
      modifies this`pc
      ensures Attached() && Others() == old(Others())
      ensures State() == CallStack.Jumped(old(State()), entry)
    {
      hide View, Valid;
      if status == CallStack.Normal {
        pc := (entry - 1) % 0x1_0000_0000;
      }
    }

    method PushLink()
      requires Attached() && CanPush(State())
      modifies this`ctx, umv.mem
      ensures Attached() && Others() == old(Others())
      ensures State() == CallStack.PushedLink(old(State()))
    {
      hide View, Valid, Encode, CallStack.Written, CallStack.ToWord;
      Push(Encode(CallStack.ToWord(sp)), ctx * CallStack.VARIABLE);
      Push(Encode(pc), ctx * CallStack.VARIABLE - 1);
    }

    method ChangeContext(extra: int, entry: word)
      requires Attached()
      modifies this`sp, this`ctx, this`pc, this`names
      ensures Attached() && Others() == old(Others())
      ensures State() == CallStack.ChangedContext(old(State()), extra, entry)
    {
      hide View, Valid;
      sp := sp + (ctx * CallStack.VARIABLE - extra);
      ctx := 0;
      JumpTo(entry);
      names := map[];
    }

    method CallPlain(entry: word)
      requires Attached() && CanPush(State())
      modifies this`sp, this`ctx, this`pc, this`names, umv.mem
      ensures Attached() && Others() == old(Others())
      ensures State() == CallStack.CallPlain(old(State()), entry)
    {
      hide View, Valid, CallStack.PushedLink, CallStack.ChangedContext;
      if status == CallStack.Normal {
        PushLink();
        ChangeContext(2, entry);
      }
    }

    method CallValued(entry: word, target: word)
      requires Attached() && CanPush(State())
      modifies this`sp, this`ctx, this`pc, this`names, umv.mem
      ensures Attached() && Others() == old(Others())
      ensures State() == CallStack.CallValued(old(State()), entry, target)
    {
      hide View, Valid, CallStack.Written, CallStack.ChangedContext, Encode;
      if status == CallStack.Normal {
        PushLink();
        Push(Encode(target), ctx * CallStack.VARIABLE - 2);
        ChangeContext(3, entry);
      }
    }

    method FillDictionary(info: seq<byte>)
      requires 0 <= ctx && CallStack.VARIABLE * ctx <= |info|
      modifies this`names
      ensures names == CallStack.Rebuilt(info, 0, sp, ctx)
    {
      names := map[];
      var i := 0;
      while i < ctx
        invariant 0 <= i <= ctx && names == CallStack.Rebuilt(info, 0, sp, i)
      {
        var offset := i * CallStack.VARIABLE;
        i := i + 1;
        names := names[info[offset] := sp + offset];
      }
    }

    method RebuildDictionary()
      requires Attached() && Rebuildable(State())
      modifies this`names
      ensures Attached() && Others() == old(Others())
      ensures State() == CallStack.WithNames(old(State()))
    {
      hide View, Valid, CallStack.Rebuilt;
      ghost var c := State();
      var info := ReadStack(sp, ctx * CallStack.VARIABLE);
      RebuiltFromSlice(c.mem, sp - base, sp, ctx, info.value);
      FillDictionary(info.value);
    }

    /** The process as another CPU takes it up: from its PCB alone. */
    method TakeUp(pid: int, base: word, sp: int, ctx: int, pc: word)
      requires Valid(umv.State()) && pid > 0 && (pid, base) in View(umv.State())
      requires Rebuildable(CallStack.Cpu(View(umv.State())[(pid, base)], base, sp, ctx, pc, map[], CallStack.Normal))
      modifies this
      ensures Attached() && this.pid == pid
      ensures State() == CallStack.WithNames(
        CallStack.Cpu(old(View(umv.State()))[(pid, base)], base, sp, ctx, pc, map[], CallStack.Normal))
    {
      hide View, Valid, CallStack.Rebuilt;
      this.pid, this.base, this.sp, this.ctx, this.pc := pid, base, sp, ctx, pc;
      status, names := CallStack.Normal, map[];
      RebuildDictionary();
    }

    method ResetContext(stackPointer: word)
      requires Attached()
      modifies this`sp, this`ctx
      ensures Attached() && Others() == old(Others())
      ensures State() == old(State()).(sp := stackPointer,
        ctx := (old(sp) - CallStack.WORD - CallStack.WORD - stackPointer) / CallStack.VARIABLE)
    {
      hide View, Valid;
      ctx := (sp - CallStack.WORD - CallStack.WORD - stackPointer) / CallStack.VARIABLE;
      sp := stackPointer;
    }

    method Finish()
      requires Attached() && ReadyToFinish(State())
      modifies this`sp, this`ctx, this`pc, this`names, this`status
      ensures Attached() && Others() == old(Others())
      ensures old(status) == CallStack.Normal ==> State() == CallStack.Finish(old(State()))
      ensures old(status) != CallStack.Normal ==> State() == old(State())
    {
      hide View, Valid, CallStack.Rebuilt, CallStack.ReadWord;
      if status == CallStack.Normal {
        if base == sp {
          status, names := CallStack.EndProcess, map[];
        } else {
          var programCounter := PopWord(-CallStack.WORD);
          var stackPointer := PopWord(-CallStack.WORD - CallStack.WORD);
          pc := programCounter;
          ResetContext(stackPointer);
          RebuildDictionary();
        }
      }
    }

    method Return(value: word)
      requires Attached() && ReadyToReturn(State(), value)
      modifies this`sp, this`ctx, this`pc, this`names, this`status, umv.mem
      ensures Attached() && Others() == old(Others())
      ensures old(status) == CallStack.Normal ==> State() == CallStack.Return(old(State()), value)
      ensures old(status) != CallStack.Normal ==> State() == old(State())
    {
      hide View, Valid, CallStack.ReadWord, CallStack.Assign;
      if status == CallStack.Normal {
        var target := PopWord(-CallStack.WORD);
        Assign(target, value);
        sp := sp - CallStack.WORD;
        Finish();
      }
    }

    method Advance()
      requires Attached()
      modifies this`pc
      ensures Attached() && Others() == old(Others())
      ensures State() == CallStack.Next(old(State()))
    {
      hide View, Valid;
      pc := (pc + 1) % 0x1_0000_0000;
    }
  }
}
