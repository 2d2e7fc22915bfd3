/** Calls and returns undo each other, at any depth and over every properly
    nested run of definitions, assignments, jumps and calls. */
module StackRuns {
  import opened Bytes
  import opened CallStack

  // ---- one primitive at a time ----

  lemma AppendToPrefix(img: seq<byte>, mem: seq<byte>, bytes: seq<byte>)
    requires img <= mem && |img| + |bytes| <= |mem|
    ensures img + bytes <= Overwrite(mem, |img|, bytes)
  {
  }

  lemma OverwritePrefix(img: seq<byte>, mem: seq<byte>, p: nat, bytes: seq<byte>)
    requires img <= mem && p + |bytes| <= |img|
    ensures Overwrite(img, p, bytes) <= Overwrite(mem, p, bytes)
  {
  }

  lemma {:induction false} DictDependsOnNames(vars: seq<Var>, vars': seq<Var>, start: int)
    requires |vars| == |vars'| && forall j :: 0 <= j < |vars| ==> vars[j].name == vars'[j].name
    ensures Dict(vars, start) == Dict(vars', start)
  {
    if vars != [] {
      DictDependsOnNames(vars[..|vars| - 1], vars'[..|vars| - 1], start);
    }
  }

  lemma ImageSnoc(f: Frames, base: int, v: Var)
    ensures Image(f.(vars := f.vars + [v]), base) == Image(f, base) + ([v.name] + Encode(v.value))
    ensures Start(f.(vars := f.vars + [v]), base) == Start(f, base)
  {
    var g := f.(vars := f.vars + [v]);
    assert g.vars[..|f.vars|] == f.vars;
    assert Floor(g, base) == Floor(f, base);
  }

  lemma PrefixSlice(img: seq<byte>, mem: seq<byte>, bytes: seq<byte>)
    requires img + bytes <= mem
    ensures img <= mem && mem[|img|..|img| + |bytes|] == bytes
  {
  }

  lemma TakeMore(img: seq<byte>, mem: seq<byte>, n: nat)
    requires img <= mem && |img| + n <= |mem|
    ensures img + mem[|img|..|img| + n] <= mem
  {
  }

  lemma Regroup(a: seq<byte>, b: seq<byte>, c: seq<byte>)
    ensures a + (b + c) == a + b + c
  {
  }

  lemma NameThenCell(img: seq<byte>, mem: seq<byte>, name: byte) returns (value: word)
    requires img <= mem && |img| + VARIABLE <= |mem|
    ensures img + ([name] + Encode(value)) <= Overwrite(mem, |img|, [name])
  {
    var mem' := Overwrite(mem, |img|, [name]);
    AppendToPrefix(img, mem, [name]);
    TakeMore(img + [name], mem', WORD);
    var tail := mem'[|img| + 1..|img| + 1 + WORD];
    value := Decode(tail);
    EncodeDecode(tail);
    Regroup(img, [name], tail);
  }

  lemma DefineFields(c: Cpu, name: byte, n: nat)
    requires c.status == Normal && n == c.sp - c.base + VARIABLE * c.ctx && n < |c.mem|
    ensures Define(c, name).1 == c.base + n + 1
    ensures Define(c, name).0 ==
      c.(mem := Overwrite(c.mem, n, [name]), ctx := c.ctx + 1, names := c.names[name := c.base + n])
  {
  }

  /** Where the frames end in the segment. */
  lemma Extent(c: Cpu, f: Frames)
    requires Sound(c, f)
    ensures |Image(f, c.base)| == c.sp - c.base + VARIABLE * c.ctx == End(f, c.base) - c.base
    ensures 0 <= c.base <= c.sp == Start(f, c.base) <= End(f, c.base) <= c.base + |c.mem| < 0x1_0000_0000
  {
    ChainEndsAtBase(f, c.base);
  }

  lemma DictSnoc(vars: seq<Var>, v: Var, start: int)
    ensures Dict(vars + [v], start) == Dict(vars, start)[v.name := start + VARIABLE * |vars|]
  {
    assert (vars + [v])[..|vars|] == vars;
  }

  /** Defining a variable adds it to the running context; its cell holds the
      bytes that were there. */
  lemma DefineGrows(c: Cpu, f: Frames, name: byte) returns (v: Var)
    requires Sound(c, f) && End(f, c.base) + VARIABLE <= c.base + |c.mem|
    ensures v.name == name
    ensures Sound(Define(c, name).0, f.(vars := f.vars + [v]))
    ensures Define(c, name).1 == End(f, c.base) + 1
    ensures Define(c, name).0.pc == c.pc
    ensures Define(c, name).0.base == c.base && |Define(c, name).0.mem| == |c.mem|
  {
    Extent(c, f);
    var n := |Image(f, c.base)|;
    DefineFields(c, name, n);
    var value := NameThenCell(Image(f, c.base), c.mem, name);
    v := Var(name, value);
    ImageSnoc(f, c.base, v);
    DictSnoc(f.vars, v, c.sp);
    hide Image, Encode, Overwrite, Start, End, Dict, Define;
  }

  /** A push that does not fit writes nothing and raises no error: the counter
      alone moves, so the variable is lost although the process goes on. */
  lemma DefineBeyondSegment(c: Cpu, f: Frames, name: byte)
    requires Sound(c, f) && End(f, c.base) >= c.base + |c.mem|
    ensures var d := Define(c, name).0;
      d.mem == c.mem && d.status == Normal && d.ctx == c.ctx + 1
  {
  }

  /** A definition does what it should, whatever value the cell then holds, if
      and only if the five bytes fit in the segment. */
  lemma DefinesIff(c: Cpu, f: Frames, name: byte)
    requires Sound(c, f)
    ensures (exists v: Var :: v.name == name && Sound(Define(c, name).0, f.(vars := f.vars + [v])))
      <==> End(f, c.base) + VARIABLE <= c.base + |c.mem|
  {
    if End(f, c.base) + VARIABLE <= c.base + |c.mem| {
      var v := DefineGrows(c, f, name);
    } else if v: Var :| v.name == name && Sound(Define(c, name).0, f.(vars := f.vars + [v])) {
      DefineKeepsSize(c, name);
      var d, g := Define(c, name).0, f.(vars := f.vars + [v]);
      assert Sound(d, g);
      hide Define, Sound;
      Extent(d, g);
      EndSnoc(f, v, c.base);
      assert false;
    }
  }

  lemma DefineKeepsSize(c: Cpu, name: byte)
    ensures |Define(c, name).0.mem| == |c.mem| && Define(c, name).0.base == c.base
  {
  }

  lemma EndSnoc(f: Frames, v: Var, base: int)
    ensures End(f.(vars := f.vars + [v]), base) == End(f, base) + VARIABLE
  {
  }

  lemma LinkPrefix(img: seq<byte>, mem: seq<byte>, sp: word, pc: word) returns (mem': seq<byte>)
    requires img <= mem && |img| + 2 * WORD <= |mem|
    ensures mem' == Overwrite(Overwrite(mem, |img|, Encode(sp)), |img| + WORD, Encode(pc))
    ensures |mem'| == |mem| && img + LinkImage(sp, Plain(pc)) <= mem'
  {
    AppendToPrefix(img, mem, Encode(sp));
    var mid := Overwrite(mem, |img|, Encode(sp));
    AppendToPrefix(img + Encode(sp), mid, Encode(pc));
    mem' := Overwrite(mid, |img| + WORD, Encode(pc));
    hide Encode, Overwrite;
    Regroup(img, Encode(sp), Encode(pc));
    assert LinkImage(sp, Plain(pc)) == Encode(sp) + Encode(pc);
  }

  lemma PushedImage(f: Frames, link: Link, base: int)
    requires 0 <= Start(f, base) < 0x1_0000_0000
    ensures Image(Push(f, link, []), base) == Image(f, base) + LinkImage(Start(f, base), link)
  {
    hide LinkImage, VarsImage, Encode;
    var g := Push(f, link, []);
    assert Image(g, base) == Floor(g, base) + [];
  }

  lemma LinkFields(c: Cpu, n: nat)
    requires n == c.sp - c.base + VARIABLE * c.ctx && n + 2 * WORD <= |c.mem|
    requires 0 <= c.sp < 0x1_0000_0000
    ensures PushedLink(c) ==
      c.(mem := Overwrite(Overwrite(c.mem, n, Encode(c.sp)), n + WORD, Encode(c.pc)), ctx := c.ctx + 2)
  {
  }

  lemma CallPlainFields(c: Cpu, entry: word, n: nat)
    requires c.status == Normal && n == c.sp - c.base + VARIABLE * c.ctx && n + 2 * WORD <= |c.mem|
    requires 0 <= c.sp < 0x1_0000_0000
    ensures CallPlain(c, entry) ==
      c.(mem := Overwrite(Overwrite(c.mem, n, Encode(c.sp)), n + WORD, Encode(c.pc)),
         sp := c.base + n + 2 * WORD, ctx := 0, pc := (entry - 1) % 0x1_0000_0000, names := map[])
  {
    LinkFields(c, n);
    hide PushedLink, Overwrite, Encode;
  }

  lemma CallValuedFields(c: Cpu, entry: word, target: word, n: nat)
    requires c.status == Normal && n == c.sp - c.base + VARIABLE * c.ctx && n + 3 * WORD <= |c.mem|
    requires 0 <= c.sp < 0x1_0000_0000
    ensures CallValued(c, entry, target) ==
      c.(mem := Overwrite(Overwrite(Overwrite(c.mem, n, Encode(c.sp)), n + WORD, Encode(c.pc)), n + 2 * WORD, Encode(target)),
         sp := c.base + n + 3 * WORD, ctx := 0, pc := (entry - 1) % 0x1_0000_0000, names := map[])
  {
    LinkFields(c, n);
    hide PushedLink, Overwrite, Encode;
  }

  /** A call without value opens an empty context above the caller's. */
  lemma CallPlainPushes(c: Cpu, f: Frames, entry: word)
    requires Sound(c, f) && End(f, c.base) + 2 * WORD <= c.base + |c.mem|
    ensures var d := CallPlain(c, entry);
      && Sound(d, Push(f, Plain(c.pc), [])) && d.pc == (entry - 1) % 0x1_0000_0000
      && d.base == c.base && |d.mem| == |c.mem|
  {
    Extent(c, f);
    CallPlainFields(c, entry, |Image(f, c.base)|);
    var mem' := LinkPrefix(Image(f, c.base), c.mem, c.sp, c.pc);
    PushedImage(f, Plain(c.pc), c.base);
    PushedStart(f, Plain(c.pc), c.base);
    hide Image, LinkImage, CallPlain, Overwrite, Encode, Start, End;
    assert Dict([], c.sp) == map[];
  }

  lemma PushedStart(f: Frames, link: Link, base: int)
    ensures Start(Push(f, link, []), base) == End(f, base) + link.Size()
  {
  }

  lemma ValuedLink(img: seq<byte>, sp: word, pc: word, target: word)
    ensures img + LinkImage(sp, Valued(pc, target)) == img + LinkImage(sp, Plain(pc)) + Encode(target)
  {
    hide Encode;
    Regroup(img, LinkImage(sp, Plain(pc)), Encode(target));
  }

  /** A call with value also leaves the address to answer to. */
  lemma CallValuedPushes(c: Cpu, f: Frames, entry: word, target: word)
    requires Sound(c, f) && End(f, c.base) + 3 * WORD <= c.base + |c.mem|
    ensures var d := CallValued(c, entry, target);
      && Sound(d, Push(f, Valued(c.pc, target), [])) && d.pc == (entry - 1) % 0x1_0000_0000
      && d.base == c.base && |d.mem| == |c.mem|
  {
    Extent(c, f);
    CallValuedFields(c, entry, target, |Image(f, c.base)|);
    var mem' := LinkPrefix(Image(f, c.base), c.mem, c.sp, c.pc);
    AppendToPrefix(Image(f, c.base) + LinkImage(c.sp, Plain(c.pc)), mem', Encode(target));
    ValuedLink(Image(f, c.base), c.sp, c.pc, target);
    PushedImage(f, Valued(c.pc, target), c.base);
    PushedStart(f, Valued(c.pc, target), c.base);
    hide Image, LinkImage, CallValued, Overwrite, Encode, Start, End;
    assert Dict([], c.sp) == map[];
  }

  /** A call does what it should if and only if its two words fit, and one with
      value if and only if its three do. Nothing tells the process otherwise: it
      goes on in a context that has no link in the segment to be closed by. */
  lemma CallPlainIff(c: Cpu, f: Frames, entry: word)
    requires Sound(c, f)
    ensures Sound(CallPlain(c, entry), Push(f, Plain(c.pc), [])) <==> End(f, c.base) + 2 * WORD <= c.base + |c.mem|
    ensures End(f, c.base) + 2 * WORD > c.base + |c.mem| ==>
      var d := CallPlain(c, entry);
      d.status == Normal && d.pc == (entry - 1) % 0x1_0000_0000 && d.sp != d.base && !CanFinish(d)
  {
    if End(f, c.base) + 2 * WORD <= c.base + |c.mem| {
      CallPlainPushes(c, f, entry);
    } else {
      Extent(c, f);
      CallMoves(c, entry);
      if Sound(CallPlain(c, entry), Push(f, Plain(c.pc), [])) {
        Extent(CallPlain(c, entry), Push(f, Plain(c.pc), []));
        PushedStart(f, Plain(c.pc), c.base);
        assert false;
      }
    }
  }

  lemma CallMoves(c: Cpu, entry: word)
    requires c.status == Normal
    ensures var d := CallPlain(c, entry);
      && d.status == Normal && d.base == c.base && |d.mem| == |c.mem| && d.pc == (entry - 1) % 0x1_0000_0000
      && d.sp == c.sp + VARIABLE * c.ctx + 2 * WORD
  {
    hide Encode, Overwrite;
  }

  lemma CallValuedMoves(c: Cpu, entry: word, target: word)
    requires c.status == Normal
    ensures var d := CallValued(c, entry, target);
      && d.status == Normal && d.base == c.base && |d.mem| == |c.mem| && d.pc == (entry - 1) % 0x1_0000_0000
      && d.sp == c.sp + VARIABLE * c.ctx + 3 * WORD
  {
    hide Encode, Overwrite;
  }

  lemma CallValuedIff(c: Cpu, f: Frames, entry: word, target: word)
    requires Sound(c, f)
    ensures Sound(CallValued(c, entry, target), Push(f, Valued(c.pc, target), []))
      <==> End(f, c.base) + 3 * WORD <= c.base + |c.mem|
    ensures End(f, c.base) + 3 * WORD > c.base + |c.mem| ==>
      var d := CallValued(c, entry, target);
      d.status == Normal && d.pc == (entry - 1) % 0x1_0000_0000 && d.sp != d.base && !CanReturn(d)
  {
    if End(f, c.base) + 3 * WORD <= c.base + |c.mem| {
      CallValuedPushes(c, f, entry, target);
    } else {
      Extent(c, f);
      CallValuedMoves(c, entry, target);
      if Sound(CallValued(c, entry, target), Push(f, Valued(c.pc, target), [])) {
        Extent(CallValued(c, entry, target), Push(f, Valued(c.pc, target), []));
        PushedStart(f, Valued(c.pc, target), c.base);
        assert false;
      }
    }
  }

  // ---- rebuilding the dictionary ----

  /** The names found in the segment give the dictionary kept while defining. */
  lemma {:induction false} RebuiltIsDict(a: seq<byte>, vars: seq<Var>, mem: seq<byte>, sp: int)
    requires a + VarsImage(vars) <= mem
    ensures Rebuilt(mem, |a|, sp, |vars|) == Dict(vars, sp)
  {
    if vars != [] {
      var n := |vars| - 1;
      var b, t := a + VarsImage(vars[..n]), [vars[n].name] + Encode(vars[n].value);
      Regroup(a, VarsImage(vars[..n]), t);
      assert b + t <= mem;
      assert mem[|b|] == (b + t)[|b|] == vars[n].name;
      assert b <= mem;
      RebuiltIsDict(a, vars[..n], mem, sp);
    }
  }

  /** Moving the process to another CPU, which rebuilds the dictionary from the
      PCB and the segment, changes nothing. */
  lemma MigrationIsInvisible(c: Cpu, f: Frames)
    requires Sound(c, f)
    ensures WithNames(c) == c
  {
    RebuiltIsDict(Floor(f, c.base), f.vars, c.mem, c.sp);
  }

  // ---- closing a context ----

  lemma WordBefore(a: seq<byte>, w: word, c: Cpu, at: int)
    requires a + Encode(w) <= c.mem && at == c.base + |a|
    ensures InSegment(c, at, WORD) && ReadWord(c, at) == w
  {
    PrefixSlice(a, c.mem, Encode(w));
    DecodeEncode(w);
  }

  lemma PoppedWords(img: seq<byte>, sp: word, pc: word, c: Cpu)
    requires img + LinkImage(sp, Plain(pc)) <= c.mem && c.sp == c.base + |img| + 2 * WORD
    ensures img <= c.mem && InSegment(c, c.sp - 2 * WORD, 2 * WORD)
    ensures ReadWord(c, c.sp - WORD) == pc && ReadWord(c, c.sp - 2 * WORD) == sp
  {
    Regroup(img, Encode(sp), Encode(pc));
    assert LinkImage(sp, Plain(pc)) == Encode(sp) + Encode(pc);
    hide Encode, LinkImage, ReadWord;
    WordBefore(img + Encode(sp), pc, c, c.sp - WORD);
    PrefixSlice(img + Encode(sp), c.mem, Encode(pc));
    WordBefore(img, sp, c, c.sp - 2 * WORD);
    PrefixSlice(img, c.mem, Encode(sp));
  }

  lemma FinishFields(c: Cpu, pc: word, sp: word, n: nat)
    requires c.status == Normal && c.sp != c.base && InSegment(c, c.sp - 2 * WORD, 2 * WORD)
    requires ReadWord(c, c.sp - WORD) == pc && ReadWord(c, c.sp - 2 * WORD) == sp
    requires c.sp == sp + VARIABLE * n + 2 * WORD
    ensures Finish(c) ==
      c.(pc := pc, sp := sp, ctx := n, names := Rebuilt(c.mem, sp - c.base, sp, n))
  {
    hide ReadWord, Rebuilt;
    assert (c.sp - WORD - WORD - sp) / VARIABLE == n;
  }

  /** Popping a program counter and a stack pointer that were pushed above the
      frames `b` gives back the state in which they were pushed. */
  lemma FinishPops(c: Cpu, b: Frames, pc: word)
    requires c.status == Normal && 0 <= c.base && c.base + |c.mem| < 0x1_0000_0000 && |c.mem| + 3 * WORD < MAX_SEGMENT
    requires 0 <= Start(b, c.base) < 0x1_0000_0000
    requires Image(b, c.base) + LinkImage(Start(b, c.base), Plain(pc)) <= c.mem
    requires c.sp == End(b, c.base) + 2 * WORD
    ensures CanFinish(c) && Sound(Finish(c), b) && Finish(c).pc == pc
    ensures Finish(c).mem == c.mem && Finish(c).base == c.base
  {
    hide Image, Floor, VarsImage, LinkImage, Start, End, ReadWord, Rebuilt, Dict, Finish;
    var img, sp := Image(b, c.base), Start(b, c.base);
    ChainEndsAtBase(b, c.base);
    EndOf(b, c.base);
    PoppedWords(img, sp, pc, c);
    RebuiltAt(b, c.base, c.mem);
    FinishFields(c, pc, sp, |b.vars|);
  }

  lemma EndOf(f: Frames, base: int)
    ensures End(f, base) == Start(f, base) + VARIABLE * |f.vars| == base + |Image(f, base)|
    ensures f.Push? ==> Start(f, base) == End(f.below, base) + f.link.Size()
  {
  }

  lemma RebuiltAt(f: Frames, base: int, mem: seq<byte>)
    requires Image(f, base) <= mem
    ensures Rebuilt(mem, Start(f, base) - base, Start(f, base), |f.vars|) == Dict(f.vars, Start(f, base))
  {
    RebuiltIsDict(Floor(f, base), f.vars, mem, Start(f, base));
  }

  lemma PrefixOfFloor(f: Frames, base: int, mem: seq<byte>)
    requires f.Push? && Image(f, base) <= mem
    ensures Image(f.below, base) + LinkImage(ToWord(Start(f.below, base)), f.link) <= mem
  {
    PrefixSlice(Floor(f, base), mem, VarsImage(f.vars));
  }

  /** `finalizar` closes a context opened without value: the caller's stack
      pointer, counter, program counter and names are back. */
  lemma FinishUndoes(c: Cpu, b: Frames, pc: word, vars: seq<Var>)
    requires Sound(c, Push(b, Plain(pc), vars))
    ensures CanFinish(c) && Sound(Finish(c), b) && Finish(c).pc == pc
    ensures Finish(c).mem == c.mem && Finish(c).base == c.base
  {
    hide Image, LinkImage, Start, End, Finish, Dict;
    var f := Push(b, Plain(pc), vars);
    Extent(c, f);
    EndOf(f, c.base);
    ChainEndsAtBase(f, c.base);
    ChainEndsAtBase(b, c.base);
    PrefixOfFloor(f, c.base, c.mem);
    FinishPops(c, b, pc);
  }

  /** `finalizar` ends the process exactly in the outermost context. */
  lemma FinishEndsOnlyOutermost(c: Cpu, f: Frames)
    requires Sound(c, f) && CanFinish(c)
    ensures Finish(c).status == EndProcess <==> Depth(f) == 0
    ensures Depth(f) == 0 ==> Finish(c) == c.(status := EndProcess, names := map[])
  {
    ChainEndsAtBase(f, c.base);
  }

  lemma AssignFields(c: Cpu, at: word, value: word, p: nat)
    requires c.status == Normal && at == c.base + p && p + WORD <= |c.mem|
    ensures Assign(c, at, value) == c.(mem := Overwrite(c.mem, p, Encode(value)))
    ensures InSegment(Assign(c, at, value), at, WORD) && ReadWord(Assign(c, at, value), at) == value
  {
    var d := Assign(c, at, value);
    assert d.mem[p..p + WORD] == Encode(value);
    DecodeEncode(value);
  }

  /** Assigning to a cell changes that variable and reads back. */
  lemma AssignSets(c: Cpu, f: Frames, at: word, value: word)
    requires Sound(c, f) && IsCell(f, c.base, at)
    ensures var d := Assign(c, at, value);
      && Sound(d, SetCell(f, c.base, at, value))
      && InSegment(d, at, WORD) && ReadWord(d, at) == value
      && d == c.(mem := d.mem) && |d.mem| == |c.mem|
  {
    hide Image, SetCell, IsCell, Encode, Start, End, Dict, Assign, Overwrite, ReadWord, SameShape;
    var p, g := at - c.base, SetCell(f, c.base, at, value);
    SetImage(f, c.base, at, value);
    ShapeDecides(f, g, c.base);
    OverwritePrefix(Image(f, c.base), c.mem, p, Encode(value));
    AssignFields(c, at, value, p);
    SetNames(f, c.base, at, value);
    DictDependsOnNames(f.vars, g.vars, c.sp);
  }

  lemma SetNames(f: Frames, base: int, at: int, value: word)
    requires IsCell(f, base, at)
    ensures var g := SetCell(f, base, at, value);
      |g.vars| == |f.vars| && forall j :: 0 <= j < |f.vars| ==> g.vars[j].name == f.vars[j].name
  {
  }

  lemma ValuedGeometry(c: Cpu, b: Frames, pc: word, target: word, vars: seq<Var>)
    requires Sound(c, Push(b, Valued(pc, target), vars))
    ensures 0 <= Start(b, c.base) < 0x1_0000_0000
    ensures c.sp == End(b, c.base) + 3 * WORD == c.base + |Image(b, c.base)| + 3 * WORD
    ensures Image(b, c.base) + LinkImage(Start(b, c.base), Valued(pc, target)) <= c.mem
  {
    hide Image, LinkImage, Floor, VarsImage, Start, End, Dict, Encode, Decode;
    var f := Push(b, Valued(pc, target), vars);
    Extent(c, f);
    EndOf(f, c.base);
    EndOf(b, c.base);
    ChainEndsAtBase(f, c.base);
    ChainEndsAtBase(b, c.base);
    PrefixOfFloor(f, c.base, c.mem);
  }

  lemma ReturnReads(c: Cpu, b: Frames, pc: word, target: word, vars: seq<Var>)
    requires Sound(c, Push(b, Valued(pc, target), vars))
    ensures InSegment(c, c.sp - WORD, WORD) && ReadWord(c, c.sp - WORD) == target
    ensures CanReturn(c) && 0 <= Start(b, c.base) < 0x1_0000_0000
    ensures c.sp == End(b, c.base) + 3 * WORD
    ensures Image(b, c.base) + LinkImage(Start(b, c.base), Plain(pc)) + Encode(target) <= c.mem
  {
    hide Sound, Image, Start, End, Encode, ReadWord;
    ValuedGeometry(c, b, pc, target, vars);
    var sp := Start(b, c.base);
    ValuedLink(Image(b, c.base), sp, pc, target);
    hide LinkImage;
    WordBefore(Image(b, c.base) + LinkImage(sp, Plain(pc)), target, c, c.sp - WORD);
  }

  lemma OverwriteBelow(img: seq<byte>, link: seq<byte>, mem: seq<byte>, p: nat, bytes: seq<byte>)
    requires img + link <= mem && p + |bytes| <= |img|
    ensures Overwrite(img, p, bytes) + link <= Overwrite(mem, p, bytes)
  {
    OverwriteLeft(img, link, p, bytes);
    OverwritePrefix(img + link, mem, p, bytes);
  }

  lemma Shorter(a: seq<byte>, t: seq<byte>, mem: seq<byte>)
    requires a + t <= mem
    ensures a <= mem
  {
  }

  /** `retornar` closes a context opened with value: the value is in the
      caller's target cell, nothing else of the caller changed, and its stack
      pointer, counter, program counter and names are back. */
  lemma ReturnUndoes(c: Cpu, b: Frames, pc: word, target: word, vars: seq<Var>, value: word)
    requires Sound(c, Push(b, Valued(pc, target), vars)) && IsCell(b, c.base, target)
    ensures CanReturn(c)
    ensures var d := Return(c, value);
      && Sound(d, SetCell(b, c.base, target, value)) && d.pc == pc
      && InSegment(d, target, WORD) && ReadWord(d, target) == value
      && d.base == c.base && |d.mem| == |c.mem|
  {
    hide Image, LinkImage, Start, End, Dict, Encode, ReadWord, SetCell, IsCell, SameShape, Overwrite, Finish, Assign;
    ReturnReads(c, b, pc, target, vars);
    var p, b', sp := target - c.base, SetCell(b, c.base, target, value), Start(b, c.base);
    SetImage(b, c.base, target, value);
    ShapeDecides(b, b', c.base);
    var link := LinkImage(sp, Plain(pc));
    Shorter(Image(b, c.base) + link, Encode(target), c.mem);
    OverwriteBelow(Image(b, c.base), link, c.mem, p, Encode(value));
    AssignFields(c, target, value, p);
    var d := Assign(c, target, value);
    FinishPops(d.(sp := d.sp - WORD), b', pc);
    SameWord(d, Return(c, value), target);
  }

  lemma AnswerFields(c: Cpu, b: Frames, target: word, value: word)
    requires c.status == Normal && 0 <= Start(b, c.base) && c.sp == End(b, c.base) + 3 * WORD && InSegment(c, c.sp, 0)
    requires IsCell(b, c.base, target)
    ensures Assign(c, target, value).status == Normal && Assign(c, target, value).sp == c.sp
    ensures |Assign(c, target, value).mem| == |c.mem| && Assign(c, target, value).base == c.base
  {
    CellBounds(b, c.base, target);
    hide Start, End, Encode, Overwrite, IsCell;
  }

  lemma SameWord(c: Cpu, d: Cpu, at: int)
    requires c.mem == d.mem && c.base == d.base && InSegment(c, at, WORD)
    ensures InSegment(d, at, WORD) && ReadWord(c, at) == ReadWord(d, at)
  {
  }

  lemma FinishOnValued(c: Cpu, b: Frames, pc: word, target: word, vars: seq<Var>)
    requires Sound(c, Push(b, Valued(pc, target), vars))
    ensures CanFinish(c) && Finish(c).pc == target && Finish(c).sp == pc
  {
    hide Image, LinkImage, Start, End, Dict, Encode, ReadWord, Rebuilt;
    ReturnReads(c, b, pc, target, vars);
    ChainEndsAtBase(Push(b, Valued(pc, target), vars), c.base);
    var sp, img := Start(b, c.base), Image(b, c.base);
    EndOf(b, c.base);
    assert LinkImage(sp, Plain(pc)) == Encode(sp) + Encode(pc) by { PlainLink(sp, pc); }
    Regroup(img, Encode(sp), Encode(pc));
    Shorter(img + Encode(sp) + Encode(pc), Encode(target), c.mem);
    WordBefore(img + Encode(sp), pc, c, c.sp - 2 * WORD);
  }

  lemma PlainLink(sp: word, pc: word)
    ensures LinkImage(sp, Plain(pc)) == Encode(sp) + Encode(pc)
  {
  }

  /** `finalizar` gives the caller its stack pointer and program counter back
      if and only if the context was opened without value. */
  lemma FinishRestoresIff(c: Cpu, b: Frames, link: Link, vars: seq<Var>)
    requires Sound(c, Push(b, link, vars))
    requires link.Valued? ==> IsCell(b, c.base, link.target)
    ensures CanFinish(c)
    ensures Finish(c).sp == Start(b, c.base) && Finish(c).pc == link.pc <==> link.Plain?
  {
    if link.Plain? {
      FinishUndoes(c, b, link.pc, vars);
    } else {
      FinishOnValued(c, b, link.pc, link.target, vars);
      CellBounds(b, c.base, link.target);
    }
  }

  // ---- properly nested runs ----

  /** One instruction of a run, a call standing for the whole of its body up to
      and including the primitive that closes it. `Resume` is the process taken
      up by another CPU, which knows only the PCB and the segment. */
  datatype Op =
    | Def(name: byte)
    | Set(at: word, value: word)
    | Goto(entry: word)
    | Resume
    | Sub(entry: word, body: Code)
    | Fun(entry: word, target: word, body: Code, result: word)

  datatype Code = Done | Then(op: Op, rest: Code)

  function Closed(c: Cpu): Cpu {
    if CanFinish(c) then Finish(c) else c
  }

  function Answered(c: Cpu, value: word): Cpu {
    if CanReturn(c) then Return(c, value) else c
  }

  /** Every primitive is followed by the step of the program counter. */
  function ExecOp(c: Cpu, op: Op): Cpu
    decreases op
  {
    match op
    case Def(name) => Next(Define(c, name).0)
    case Set(at, value) => Next(Assign(c, at, value))
    case Goto(entry) => Next(Jumped(c, entry))
    case Resume => WithNames(c.(names := map[]))
    case Sub(entry, body) => Next(Closed(Exec(Next(CallPlain(c, entry)), body)))
    case Fun(entry, target, body, result) =>
      Next(Answered(Exec(Next(CallValued(c, entry, target)), body), result))
  }

  function Exec(c: Cpu, code: Code): Cpu
    decreases code
  {
    if code.Done? then c else Exec(ExecOp(c, code.op), code.rest)
  }

  /** The cells a run assigns to, directly or by answering. */
  function OpWrites(op: Op): set<int> {
    match op
    case Def(_) => {}
    case Set(at, _) => {at}
    case Goto(_) | Resume => {}
    case Sub(_, body) => Writes(body)
    case Fun(_, target, body, _) => Writes(body) + {target}
  }

  function Writes(code: Code): set<int> {
    if code.Done? then {} else OpWrites(code.op) + Writes(code.rest)
  }

  /** The variables a run defines in its own context. */
  function OpDefs(op: Op): seq<byte> {
    if op.Def? then [op.name] else []
  }

  function Defs(code: Code): seq<byte> {
    if code.Done? then [] else OpDefs(code.op) + Defs(code.rest)
  }

  /** Frames fit below `limit`, and only live cells are assigned. */
  predicate LegalCode(f: Frames, base: int, limit: int, code: Code)
    decreases code
  {
    match code
    case Done => true
    case Then(op, rest) =>
      match op
      case Def(name) =>
        End(f, base) + VARIABLE <= limit && LegalCode(f.(vars := f.vars + [Var(name, 0)]), base, limit, rest)
      case Set(at, _) => IsCell(f, base, at) && LegalCode(f, base, limit, rest)
      case Goto(_) | Resume => LegalCode(f, base, limit, rest)
      case Sub(_, body) =>
        && End(f, base) + 2 * WORD <= limit && LegalCode(Push(f, Plain(0), []), base, limit, body)
        && LegalCode(f, base, limit, rest)
      case Fun(_, target, body, _) =>
        && End(f, base) + 3 * WORD <= limit && IsCell(f, base, target)
        && LegalCode(Push(f, Valued(0, target), []), base, limit, body)
        && LegalCode(f, base, limit, rest)
  }

  /** The frames `g` are the frames `f` with the variables `defs` added to the
      running context and values changed at most at the cells `w`. */
  ghost predicate Grown(f: Frames, g: Frames, base: int, w: set<int>, defs: seq<byte>)
    decreases f
  {
    && |g.vars| == |f.vars| + |defs|
    && (forall j :: 0 <= j < |f.vars| ==>
          && g.vars[j].name == f.vars[j].name
          && (g.vars[j].value == f.vars[j].value || Start(f, base) + VARIABLE * j + 1 in w))
    && (forall j :: 0 <= j < |defs| ==> g.vars[|f.vars| + j].name == defs[j])
    && (f.Bottom? <==> g.Bottom?)
    && (f.Push? ==> g.link == f.link && Grown(f.below, g.below, base, w, []))
  }

  lemma {:induction false} GrownRefl(f: Frames, base: int, w: set<int>)
    ensures Grown(f, f, base, w, [])
  {
    if f.Push? {
      GrownRefl(f.below, base, w);
    }
  }

  lemma {:induction false} GrownStart(f: Frames, g: Frames, base: int, w: set<int>, defs: seq<byte>)
    requires Grown(f, g, base, w, defs)
    ensures Start(g, base) == Start(f, base)
    ensures defs == [] ==> SameShape(f, g) && End(g, base) == End(f, base)
  {
    if f.Push? {
      GrownStart(f.below, g.below, base, w, []);
    }
  }

  lemma {:induction false} GrownTrans(f: Frames, g: Frames, h: Frames, base: int,
                                      w: set<int>, w': set<int>, d: seq<byte>, d': seq<byte>)
    requires Grown(f, g, base, w, d) && Grown(g, h, base, w', d')
    ensures Grown(f, h, base, w + w', d + d')
  {
    GrownStart(f, g, base, w, d);
    forall j | 0 <= j < |d + d'| ensures h.vars[|f.vars| + j].name == (d + d')[j] {
      if j < |d| {
        assert h.vars[|f.vars| + j].name == g.vars[|f.vars| + j].name;
      } else {
        assert h.vars[|g.vars| + (j - |d|)].name == d'[j - |d|];
      }
    }
    if f.Push? {
      var e: seq<byte> := [];
      GrownTrans(f.below, g.below, h.below, base, w, w', e, e);
      assert e + e == e;
    }
  }

  lemma {:induction false} SetGrows(f: Frames, base: int, at: int, value: word)
    requires IsCell(f, base, at)
    ensures Grown(f, SetCell(f, base, at, value), base, {at}, [])
  {
    if !IsLocal(f, base, at) {
      SetGrows(f.below, base, at, value);
    } else if f.Push? {
      GrownRefl(f.below, base, {at});
    }
  }

  lemma DefGrows(f: Frames, base: int, v: Var)
    ensures Grown(f, f.(vars := f.vars + [v]), base, {}, [v.name])
  {
    if f.Push? {
      GrownRefl(f.below, base, {});
    }
    var g := f.(vars := f.vars + [v]);
    assert forall j :: 0 <= j < |f.vars| ==> g.vars[j] == f.vars[j];
  }

  // ---- legality depends on the shape only ----

  lemma {:induction false} CellShape(f: Frames, g: Frames, base: int, at: int)
    requires SameShape(f, g)
    ensures IsCell(f, base, at) <==> IsCell(g, base, at)
  {
    ShapeDecides(f, g, base);
    if f.Push? {
      CellShape(f.below, g.below, base, at);
    }
  }

  lemma {:induction false} LegalShape(f: Frames, g: Frames, base: int, limit: int, code: Code)
    requires SameShape(f, g) && LegalCode(f, base, limit, code)
    ensures LegalCode(g, base, limit, code)
    decreases code
  {
    ShapeDecides(f, g, base);
    match code
    case Done =>
    case Then(op, rest) =>
      match op
      case Def(name) =>
        LegalShape(f.(vars := f.vars + [Var(name, 0)]), g.(vars := g.vars + [Var(name, 0)]), base, limit, rest);
      case Set(at, _) =>
        CellShape(f, g, base, at);
        LegalShape(f, g, base, limit, rest);
      case Goto(_) | Resume => LegalShape(f, g, base, limit, rest);
      case Sub(_, body) =>
        LegalShape(Push(f, Plain(0), []), Push(g, Plain(0), []), base, limit, body);
        LegalShape(f, g, base, limit, rest);
      case Fun(_, target, body, _) =>
        CellShape(f, g, base, target);
        LegalShape(Push(f, Valued(0, target), []), Push(g, Valued(0, target), []), base, limit, body);
        LegalShape(f, g, base, limit, rest);
  }

  // ---- the main theorem ----

  lemma NextKeepsSound(c: Cpu, f: Frames)
    requires Sound(c, f)
    ensures Sound(Next(c), f)
  {
  }

  /** What is legal after an instruction is what was legal before it. */
  lemma LegalAfter(f: Frames, h: Frames, base: int, limit: int, w: set<int>, op: Op, rest: Code)
    requires LegalCode(f, base, limit, Then(op, rest)) && Grown(f, h, base, w, OpDefs(op))
    ensures LegalCode(h, base, limit, rest)
  {
    GrownStart(f, h, base, w, OpDefs(op));
    if op.Def? {
      var f' := f.(vars := f.vars + [Var(op.name, 0)]);
      if f.Push? {
        GrownStart(f.below, h.below, base, w, []);
      }
      LegalShape(f', h, base, limit, rest);
    } else {
      LegalShape(f, h, base, limit, rest);
    }
  }

  /** The frames under a context that a run has only grown. */
  lemma GrownUnder(f: Frames, link: Link, g: Frames, base: int, w: set<int>, defs: seq<byte>) returns (b: Frames)
    requires Grown(Push(f, link, []), g, base, w, defs)
    ensures g == Push(b, link, g.vars) && Grown(f, b, base, w, [])
  {
    b := g.below;
  }

  /** The body of a call starts in an empty context above the caller's. */
  lemma SubBody(c: Cpu, f: Frames, op: Op, body: Code)
    requires op.Sub? && op.body == body
    requires Sound(c, f) && LegalCode(f, c.base, c.base + |c.mem|, Then(op, Done))
    ensures var d, g := Next(CallPlain(c, op.entry)), Push(f, Plain(c.pc), []);
      && Sound(d, g) && d.base == c.base && |d.mem| == |c.mem| && d.pc == op.entry
      && LegalCode(g, c.base, c.base + |c.mem|, body)
  {
    hide Sound, CallPlain;
    CallPlainPushes(c, f, op.entry);
    NextKeepsSound(CallPlain(c, op.entry), Push(f, Plain(c.pc), []));
    NextFields(CallPlain(c, op.entry));
    EntryReached(op.entry);
    LinkShape(f, Plain(0), Plain(c.pc));
    LegalShape(Push(f, Plain(0), []), Push(f, Plain(c.pc), []), c.base, c.base + |c.mem|, body);
  }

  lemma EntryReached(entry: word)
    ensures ((entry - 1) % 0x1_0000_0000 + 1) % 0x1_0000_0000 == entry
  {
  }

  lemma FunBody(c: Cpu, f: Frames, op: Op, body: Code)
    requires op.Fun? && op.body == body
    requires Sound(c, f) && LegalCode(f, c.base, c.base + |c.mem|, Then(op, Done))
    ensures IsCell(f, c.base, op.target)
    ensures var d, g := Next(CallValued(c, op.entry, op.target)), Push(f, Valued(c.pc, op.target), []);
      && Sound(d, g) && d.base == c.base && |d.mem| == |c.mem| && d.pc == op.entry
      && LegalCode(g, c.base, c.base + |c.mem|, body)
  {
    hide Sound, CallValued;
    CallValuedPushes(c, f, op.entry, op.target);
    NextKeepsSound(CallValued(c, op.entry, op.target), Push(f, Valued(c.pc, op.target), []));
    NextFields(CallValued(c, op.entry, op.target));
    EntryReached(op.entry);
    LinkShape(f, Valued(0, op.target), Valued(c.pc, op.target));
    LegalShape(Push(f, Valued(0, op.target), []), Push(f, Valued(c.pc, op.target), []), c.base, c.base + |c.mem|, body);
  }

  lemma SubGrows(c: Cpu, f: Frames, op: Op, body: Code) returns (h: Frames)
    requires op.Sub? && op.body == body
    requires Sound(c, f) && LegalCode(f, c.base, c.base + |c.mem|, Then(op, Done))
    ensures var d := ExecOp(c, op);
      && Sound(d, h) && Grown(f, h, c.base, OpWrites(op), [])
      && d.base == c.base && |d.mem| == |c.mem| && d.pc == (c.pc + 1) % 0x1_0000_0000
    decreases op, 0
  {
    hide Sound, Grown, CallPlain, Finish, CanFinish, LegalCode;
    SubBody(c, f, op, body);
    var c0, f0 := CallPlain(c, op.entry), Push(f, Plain(c.pc), []);
    var g := ExecGrows(Next(c0), f0, body);
    var c1 := Exec(Next(c0), body);
    h := GrownUnder(f, Plain(c.pc), g, c.base, Writes(body), Defs(body));
    FinishUndoes(c1, h, c.pc, g.vars);
    NextKeepsSound(Finish(c1), h);
    NextFields(Finish(c1));
  }

  lemma NextFields(c: Cpu)
    ensures Next(c).base == c.base && Next(c).mem == c.mem && Next(c).pc == (c.pc + 1) % 0x1_0000_0000
  {
  }

  lemma LinkShape(f: Frames, link: Link, link': Link)
    requires link.Size() == link'.Size()
    ensures SameShape(Push(f, link, []), Push(f, link', []))
  {
    ShapeIsReflexive(f);
  }

  lemma FunGrows(c: Cpu, f: Frames, op: Op, body: Code) returns (h: Frames)
    requires op.Fun? && op.body == body
    requires Sound(c, f) && LegalCode(f, c.base, c.base + |c.mem|, Then(op, Done))
    ensures var d := ExecOp(c, op);
      && Sound(d, h) && Grown(f, h, c.base, OpWrites(op), [])
      && d.base == c.base && |d.mem| == |c.mem| && d.pc == (c.pc + 1) % 0x1_0000_0000
      && InSegment(d, op.target, WORD) && ReadWord(d, op.target) == op.result
    decreases op, 0
  {
    hide Sound, Grown, CallValued, Return, CanReturn, ReadWord, LegalCode;
    FunBody(c, f, op, body);
    var c0, f0 := CallValued(c, op.entry, op.target), Push(f, Valued(c.pc, op.target), []);
    var g := ExecGrows(Next(c0), f0, body);
    var c1 := Exec(Next(c0), body);
    var b := GrownUnder(f, Valued(c.pc, op.target), g, c.base, Writes(body), Defs(body));
    GrownStart(f, b, c.base, Writes(body), []);
    CellShape(f, b, c.base, op.target);
    ReturnUndoes(c1, b, c.pc, op.target, g.vars, op.result);
    var d := Return(c1, op.result);
    h := SetCell(b, c.base, op.target, op.result);
    SetGrows(b, c.base, op.target, op.result);
    GrownTrans(f, b, h, c.base, Writes(body), {op.target}, [], []);
    NextKeepsSound(d, h);
    NextFields(d);
    SameWord(d, Next(d), op.target);
  }

  lemma OpGrows(c: Cpu, f: Frames, op: Op) returns (h: Frames)
    requires Sound(c, f) && LegalCode(f, c.base, c.base + |c.mem|, Then(op, Done))
    ensures var d := ExecOp(c, op);
      && Sound(d, h) && Grown(f, h, c.base, OpWrites(op), OpDefs(op))
      && d.base == c.base && |d.mem| == |c.mem|
    decreases op, 1
  {
    match op
    case Def(name) =>
      hide Sound, Define;
      var v := DefineGrows(c, f, name);
      h := f.(vars := f.vars + [v]);
      DefGrows(f, c.base, v);
      NextKeepsSound(Define(c, name).0, h);
    case Set(at, value) =>
      hide Sound, Assign;
      AssignSets(c, f, at, value);
      h := SetCell(f, c.base, at, value);
      SetGrows(f, c.base, at, value);
      NextKeepsSound(Assign(c, at, value), h);
    case Goto(entry) =>
      h := f;
      GrownRefl(f, c.base, {});
    case Resume =>
      hide Sound, Rebuilt;
      h := f;
      GrownRefl(f, c.base, {});
      MigrationIsInvisible(c, f);
    case Sub(_, body) =>
      h := SubGrows(c, f, op, body);
    case Fun(_, _, body, _) =>
      h := FunGrows(c, f, op, body);
  }

  lemma LegalHead(f: Frames, base: int, limit: int, op: Op, rest: Code)
    requires LegalCode(f, base, limit, Then(op, rest))
    ensures LegalCode(f, base, limit, Then(op, Done))
  {
  }

  /** A properly nested run keeps every context of its callers: their names,
      links, stack pointers and counters stay, and a value changes only where
      the run assigns to it. */
  lemma {:induction false} ExecGrows(c: Cpu, f: Frames, code: Code) returns (g: Frames)
    requires Sound(c, f) && LegalCode(f, c.base, c.base + |c.mem|, code)
    ensures Sound(Exec(c, code), g) && Grown(f, g, c.base, Writes(code), Defs(code))
    ensures Exec(c, code).base == c.base && |Exec(c, code).mem| == |c.mem|
    decreases code
  {
    hide Sound, Grown, LegalCode, ExecOp, OpWrites, OpDefs;
    match code
    case Done =>
      g := f;
      GrownRefl(f, c.base, {});
    case Then(op, rest) =>
      LegalHead(f, c.base, c.base + |c.mem|, op, rest);
      var d := ExecOp(c, op);
      var h := OpGrows(c, f, op);
      LegalAfter(f, h, c.base, c.base + |c.mem|, OpWrites(op), op, rest);
      g := ExecGrows(d, h, rest);
      GrownTrans(f, h, g, c.base, OpWrites(op), Writes(rest), OpDefs(op), Defs(rest));
  }

  // ---- what a caller sees ----

  function CellValue(f: Frames, base: int, at: int): word
    requires IsCell(f, base, at)
  {
    if IsLocal(f, base, at) then f.vars[LocalIndex(f, base, at)].value else CellValue(f.below, base, at)
  }

  lemma {:induction false} SetToItself(f: Frames, base: int, at: int)
    requires IsCell(f, base, at)
    ensures SetCell(f, base, at, CellValue(f, base, at)) == f
  {
    if !IsLocal(f, base, at) {
      SetToItself(f.below, base, at);
    }
  }

  lemma SliceWritten(img: seq<byte>, mem: seq<byte>, p: nat, bytes: seq<byte>)
    requires img <= mem && p + |bytes| <= |img| && Overwrite(img, p, bytes) == img
    ensures mem[p..p + |bytes|] == bytes
  {
    assert Overwrite(img, p, bytes)[p..p + |bytes|] == bytes;
  }

  /** A cell holds the value of its variable. */
  lemma CellReads(c: Cpu, f: Frames, at: int)
    requires Sound(c, f) && IsCell(f, c.base, at)
    ensures InSegment(c, at, WORD) && ReadWord(c, at) == CellValue(f, c.base, at)
  {
    hide Image, SetCell, IsCell, CellValue, Encode, Start, End, Dict, Overwrite, Decode;
    var v := CellValue(f, c.base, at);
    SetToItself(f, c.base, at);
    SetImage(f, c.base, at, v);
    SliceWritten(Image(f, c.base), c.mem, at - c.base, Encode(v));
    DecodeEncode(v);
  }

  lemma {:induction false} GrownCell(f: Frames, g: Frames, base: int, w: set<int>, defs: seq<byte>, at: int)
    requires Grown(f, g, base, w, defs) && IsCell(f, base, at)
    ensures IsCell(g, base, at)
    ensures at !in w ==> CellValue(g, base, at) == CellValue(f, base, at)
  {
    GrownStart(f, g, base, w, defs);
    if IsLocal(f, base, at) {
      var j := LocalIndex(f, base, at);
      assert g.vars[j].value == f.vars[j].value || Start(f, base) + VARIABLE * j + 1 in w;
    } else {
      CellBounds(f.below, base, at);
      GrownCell(f.below, g.below, base, w, [], at);
    }
  }

  /** What every context of the caller keeps over a run. */
  ghost predicate Restored(c: Cpu, d: Cpu, f: Frames, w: set<int>) {
    && d.base == c.base && d.sp == c.sp && d.ctx == c.ctx && d.names == c.names && d.status == Normal
    && (forall at: int :: IsCell(f, c.base, at) ==>
          InSegment(c, at, WORD) && InSegment(d, at, WORD) && (at !in w ==> ReadWord(d, at) == ReadWord(c, at)))
  }

  lemma GrownRestores(c: Cpu, f: Frames, d: Cpu, g: Frames, w: set<int>)
    requires Sound(c, f) && Sound(d, g) && Grown(f, g, c.base, w, []) && d.base == c.base
    ensures Restored(c, d, f, w)
  {
    hide Image, IsCell, CellValue, Start, End, ReadWord;
    GrownStart(f, g, c.base, w, []);
    DictDependsOnNames(f.vars, g.vars, c.sp);
    hide Dict, Grown;
    forall at: int | IsCell(f, c.base, at)
      ensures InSegment(c, at, WORD) && InSegment(d, at, WORD)
      ensures at !in w ==> ReadWord(d, at) == ReadWord(c, at)
    {
      CellReads(c, f, at);
      GrownCell(f, g, c.base, w, [], at);
      CellReads(d, g, at);
    }
  }

  /** A call closed by its own `finalizar`, whatever the depth and whatever
      properly nested run is its body: the caller goes on at the next
      instruction with its stack pointer, counter and names, and every value
      the body did not assign to. */
  lemma CallUndone(c: Cpu, f: Frames, entry: word, body: Code)
    requires Sound(c, f) && LegalCode(f, c.base, c.base + |c.mem|, Then(Sub(entry, body), Done))
    ensures var d := ExecOp(c, Sub(entry, body));
      Restored(c, d, f, Writes(body)) && d.pc == (c.pc + 1) % 0x1_0000_0000
  {
    hide Sound, Grown, ExecOp, Restored, LegalCode;
    var h := SubGrows(c, f, Sub(entry, body), body);
    GrownRestores(c, f, ExecOp(c, Sub(entry, body)), h, Writes(body));
  }

  /** The same for a call with value closed by `retornar`, whose value is then
      in the cell the caller named. */
  lemma FunctionAnswers(c: Cpu, f: Frames, entry: word, target: word, body: Code, result: word)
    requires Sound(c, f) && LegalCode(f, c.base, c.base + |c.mem|, Then(Fun(entry, target, body, result), Done))
    ensures var d := ExecOp(c, Fun(entry, target, body, result));
      && Restored(c, d, f, Writes(body) + {target}) && d.pc == (c.pc + 1) % 0x1_0000_0000
      && InSegment(d, target, WORD) && ReadWord(d, target) == result
  {
    hide Sound, Grown, ExecOp, Restored, LegalCode, ReadWord, InSegment;
    var op := Fun(entry, target, body, result);
    var h := FunGrows(c, f, op, body);
    GrownRestores(c, f, ExecOp(c, op), h, Writes(body) + {target});
  }

  /** At every point of a properly nested run the next `finalizar` ends the
      process exactly when no call is open. */
  lemma EndsOnlyOutermost(c: Cpu, f: Frames, code: Code)
    requires Sound(c, f) && LegalCode(f, c.base, c.base + |c.mem|, code)
    ensures var d := Exec(c, code); d.sp == d.base <==> Depth(f) == 0
  {
    hide Grown, LegalCode, Exec;
    var g := ExecGrows(c, f, code);
    GrownStart(f, g, c.base, Writes(code), Defs(code));
    ChainEndsAtBase(f, c.base);
  }

  // ---- the dictionary ----

  /** A name leads to the variable of that name defined last in the running
      context. */
  lemma {:induction false} DictFindsLast(vars: seq<Var>, start: int, name: byte)
    ensures name in Dict(vars, start) <==> exists j :: 0 <= j < |vars| && vars[j].name == name
    ensures name in Dict(vars, start) ==>
      exists j ::
        && 0 <= j < |vars| && vars[j].name == name && Dict(vars, start)[name] == start + VARIABLE * j
        && forall k :: j < k < |vars| ==> vars[k].name != name
  {
    if vars != [] {
      var n := |vars| - 1;
      DictFindsLast(vars[..n], start, name);
      if vars[n].name != name && name in Dict(vars[..n], start) {
        var j :| 0 <= j < n && vars[..n][j].name == name && Dict(vars[..n], start)[name] == start + VARIABLE * j
          && forall k :: j < k < n ==> vars[..n][k].name != name;
        assert vars[j].name == name && forall k :: j < k < |vars| ==> vars[k].name != name;
      } else if vars[n].name == name {
        assert Dict(vars, start)[name] == start + VARIABLE * n;
      } else {
        assert forall j :: 0 <= j < n ==> vars[..n][j] == vars[j];
      }
    }
  }

  /** Defining a variable and assigning to the position its name gives: the
      value reads back at that position. */
  lemma DefinedIsFound(c: Cpu, f: Frames, name: byte, value: word)
    requires Sound(c, f) && End(f, c.base) + VARIABLE <= c.base + |c.mem|
    ensures var d := Define(c, name).0;
      && name in d.names && Define(c, name).1 == d.names[name] + 1
      && 0 <= Define(c, name).1 < 0x1_0000_0000
      && var e := Assign(d, Define(c, name).1, value);
      && e.names == d.names && InSegment(e, Define(c, name).1, WORD) && ReadWord(e, Define(c, name).1) == value
  {
    hide Define, Image, Dict, Encode, ReadWord, Assign, Start, End, Overwrite, IsCell, SetCell;
    var v := DefineGrows(c, f, name);
    var d, g := Define(c, name).0, f.(vars := f.vars + [v]);
    Extent(c, f);
    DefineFields(c, name, |Image(f, c.base)|);
    CellOfLast(f, v, c.base);
    AssignSets(d, g, Define(c, name).1, value);
  }

  lemma CellOfLast(f: Frames, v: Var, base: int)
    ensures IsCell(f.(vars := f.vars + [v]), base, End(f, base) + 1)
  {
    var g := f.(vars := f.vars + [v]);
    assert LocalIndex(g, base, End(f, base) + 1) == |f.vars|;
  }
}
