/** The call stack of a process as its CPU lays it out, byte by byte, in the
    stack segment, and the primitives that push and pop it. */
module CallStack {
  import opened Bytes

  datatype Status = Normal | StackOverflow | EndProcess

  /** A process on a CPU: the bytes of its stack segment, the stack fields and
      the program counter of its PCB, and the dictionary of variable positions
      the CPU keeps beside them. Addresses count from the segment's `base`. */
  datatype Cpu = Cpu(mem: seq<byte>, base: int, sp: int, ctx: int, pc: word, names: map<byte, int>, status: Status)

  /** One variable: its name, then four bytes of value. */
  const VARIABLE := 5
  const WORD := 4

  /** Offsets and the sizes of segments are signed 32-bit integers. */
  const MAX_SEGMENT := 0x8000_0000

  /** Addresses are unsigned 32-bit words. */
  function ToWord(x: int): word {
    x % 0x1_0000_0000
  }

  predicate InSegment(c: Cpu, at: int, n: int) {
    0 <= at - c.base && at - c.base + n <= |c.mem|
  }

  /** A write request that does not fit is answered with an error and writes
      nothing. */
  function Written(c: Cpu, at: int, bytes: seq<byte>): Cpu {
    if InSegment(c, at, |bytes|) then c.(mem := Overwrite(c.mem, at - c.base, bytes)) else c
  }

  function ReadWord(c: Cpu, at: int): word
    requires InSegment(c, at, WORD)
  {
    Decode(c.mem[at - c.base..at - c.base + WORD])
  }

  /** A push looks for an error code that the memory never answers, so the
      counter advances whether or not the bytes were written. */
  function Pushed(c: Cpu, bytes: seq<byte>, offset: int): Cpu {
    Written(c, c.sp + offset, bytes).(ctx := c.ctx + 1)
  }

  function ContextBytes(c: Cpu): int {
    c.ctx * VARIABLE
  }

  /** The position of the variable defined last. */
  function LastVariable(c: Cpu): int {
    c.sp + ContextBytes(c) - VARIABLE
  }

  function Define(c: Cpu, name: byte): (Cpu, int) {
    if c.status == Normal then
      var d := Pushed(c, [name], ContextBytes(c));
      (d.(names := d.names[name := LastVariable(d)]), LastVariable(d) + 1)
    else (c, 0)
  }

  function Assign(c: Cpu, at: int, value: word): Cpu {
    if c.status != Normal then c
    else if InSegment(c, at, WORD) then Written(c, at, Encode(value))
    else c.(status := StackOverflow, names := map[])
  }

  /** The label's instruction less one: the cycle adds one after the jump. */
  function Jumped(c: Cpu, entry: word): Cpu {
    if c.status == Normal then c.(pc := (entry - 1) % 0x1_0000_0000) else c
  }

  /** Both kinds of call push the stack pointer and the program counter; the
      counter of pushes is five bytes a push, so the second push is corrected by
      one byte. */
  function PushedLink(c: Cpu): Cpu {
    var d := Pushed(c, Encode(ToWord(c.sp)), ContextBytes(c));
    Pushed(d, Encode(d.pc), ContextBytes(d) - 1)
  }

  function ChangedContext(c: Cpu, extra: int, entry: word): Cpu {
    Jumped(c.(sp := c.sp + (ContextBytes(c) - extra), ctx := 0), entry).(names := map[])
  }

  function CallPlain(c: Cpu, entry: word): Cpu {
    if c.status == Normal then ChangedContext(PushedLink(c), 2, entry) else c
  }

  function CallValued(c: Cpu, entry: word, target: word): Cpu {
    if c.status == Normal then
      var d := PushedLink(c);
      ChangedContext(Pushed(d, Encode(target), ContextBytes(d) - 2), 3, entry)
    else c
  }

  /** The dictionary a CPU rebuilds from `n` variables found at the stack
      pointer: later ones replace earlier ones of the same name. */
  function Rebuilt(mem: seq<byte>, from: int, sp: int, n: nat): map<byte, int> {
    if n == 0 || from < 0 || from + VARIABLE * (n - 1) >= |mem| then map[]
    else Rebuilt(mem, from, sp, n - 1)[mem[from + VARIABLE * (n - 1)] := sp + VARIABLE * (n - 1)]
  }

  function WithNames(c: Cpu): Cpu {
    c.(names := Rebuilt(c.mem, c.sp - c.base, c.sp, if c.ctx < 0 then 0 else c.ctx))
  }

  predicate CanFinish(c: Cpu) {
    c.sp == c.base || InSegment(c, c.sp - 2 * WORD, 2 * WORD)
  }

  /** `finalizar`: in the outermost context the process ends, else the caller's
      fields are popped and its dictionary rebuilt. */
  function Finish(c: Cpu): Cpu
    requires CanFinish(c)
  {
    if c.status != Normal then c
    else if c.base == c.sp then c.(status := EndProcess, names := map[])
    else
      var pc, sp := ReadWord(c, c.sp - WORD), ReadWord(c, c.sp - 2 * WORD);
      WithNames(c.(pc := pc, ctx := (c.sp - WORD - WORD - sp) / VARIABLE, sp := sp))
  }

  predicate CanReturn(c: Cpu) {
    InSegment(c, c.sp - 3 * WORD, 3 * WORD)
  }

  /** `retornar`: the value goes to the popped address, then as `finalizar`. */
  function Return(c: Cpu, value: word): Cpu
    requires CanReturn(c)
  {
    if c.status != Normal then c
    else
      var target := ReadWord(c, c.sp - WORD);
      var d := Assign(c, target, value);
      Finish(d.(sp := d.sp - WORD))
  }

  /** The instruction cycle adds one to the program counter. */
  function Next(c: Cpu): Cpu {
    c.(pc := (c.pc + 1) % 0x1_0000_0000)
  }

  // ---- frames ----

  /** What a call leaves between the caller's variables and the callee's. */
  datatype Link = Plain(pc: word) | Valued(pc: word, target: word) {
    function Size(): int { if Plain? then 2 * WORD else 3 * WORD }
  }

  datatype Var = Var(name: byte, value: word)

  /** The contexts of a process, the running one outermost in the value. */
  datatype Frames = Bottom(vars: seq<Var>) | Push(below: Frames, link: Link, vars: seq<Var>)

  function Start(f: Frames, base: int): int
    decreases f, 0
  {
    if f.Bottom? then base else End(f.below, base) + f.link.Size()
  }

  function End(f: Frames, base: int): int
    decreases f, 1
  {
    Start(f, base) + VARIABLE * |f.vars|
  }

  function Depth(f: Frames): nat {
    if f.Bottom? then 0 else Depth(f.below) + 1
  }

  function VarsImage(vars: seq<Var>): (r: seq<byte>)
    ensures |r| == VARIABLE * |vars|
  {
    if vars == [] then []
    else
      var n := |vars| - 1;
      VarsImage(vars[..n]) + ([vars[n].name] + Encode(vars[n].value))
  }

  function LinkImage(sp: word, link: Link): (r: seq<byte>)
    ensures |r| == link.Size()
  {
    Encode(sp) + Encode(link.pc) + (if link.Valued? then Encode(link.target) else [])
  }

  /** The bytes that hold the contexts below the variables of the running one. */
  function Floor(f: Frames, base: int): (r: seq<byte>)
    ensures |r| == Start(f, base) - base
    decreases f, 0
  {
    if f.Bottom? then [] else Image(f.below, base) + LinkImage(ToWord(Start(f.below, base)), f.link)
  }

  /** The bytes that hold the contexts, end to end. */
  function Image(f: Frames, base: int): (r: seq<byte>)
    ensures |r| == End(f, base) - base
    decreases f, 1
  {
    Floor(f, base) + VarsImage(f.vars)
  }

  function Dict(vars: seq<Var>, start: int): map<byte, int> {
    if vars == [] then map[]
    else
      var n := |vars| - 1;
      Dict(vars[..n], start)[vars[n].name := start + VARIABLE * n]
  }

  /** The process is where the frames say, and its segment begins with them. */
  ghost predicate Sound(c: Cpu, f: Frames) {
    && c.status == Normal && 0 <= c.base && c.base + |c.mem| < 0x1_0000_0000 && |c.mem| + 3 * WORD < MAX_SEGMENT
    && c.sp == Start(f, c.base) && c.ctx == |f.vars|
    && c.names == Dict(f.vars, c.sp)
    && Image(f, c.base) <= c.mem
  }

  /** The variable of the running context whose value cell `at` would be. */
  function LocalIndex(f: Frames, base: int, at: int): int {
    (at - Start(f, base) - 1) / VARIABLE
  }

  predicate IsLocal(f: Frames, base: int, at: int) {
    var j := LocalIndex(f, base, at);
    0 <= j < |f.vars| && at == Start(f, base) + VARIABLE * j + 1
  }

  /** `at` is the value cell of a variable of some context. */
  predicate IsCell(f: Frames, base: int, at: int) {
    IsLocal(f, base, at) || (f.Push? && IsCell(f.below, base, at))
  }

  /** The frames with one cell changed. */
  function SetCell(f: Frames, base: int, at: int, value: word): Frames
    requires IsCell(f, base, at)
  {
    if IsLocal(f, base, at) then
      var j := LocalIndex(f, base, at);
      f.(vars := f.vars[j := f.vars[j].(value := value)])
    else f.(below := SetCell(f.below, base, at, value))
  }

  // ---- geometry ----

  /** Saved stack pointers form a strictly decreasing chain that ends at the
      base: the stack pointer is the base exactly in the outermost context. */
  lemma {:induction false} ChainEndsAtBase(f: Frames, base: int)
    ensures Start(f, base) >= base + 2 * WORD * Depth(f)
    ensures Start(f, base) == base <==> f.Bottom?
    ensures f.Push? ==> Start(f.below, base) < Start(f, base)
  {
    if f.Push? {
      ChainEndsAtBase(f.below, base);
    }
  }

  lemma {:induction false} CellBounds(f: Frames, base: int, at: int)
    requires IsCell(f, base, at)
    ensures base < at && at + WORD <= End(f, base)
    ensures at != Start(f, base)
  {
    ChainEndsAtBase(f, base);
    if f.Push? && IsCell(f.below, base, at) {
      CellBounds(f.below, base, at);
    }
  }

  // ---- writing inside the image ----

  lemma OverwriteLeft(a: seq<byte>, t: seq<byte>, p: nat, b: seq<byte>)
    requires p + |b| <= |a|
    ensures Overwrite(a + t, p, b) == Overwrite(a, p, b) + t
  {
  }

  lemma OverwriteRight(a: seq<byte>, t: seq<byte>, p: nat, b: seq<byte>)
    requires p + |b| <= |t|
    ensures Overwrite(a + t, |a| + p, b) == a + Overwrite(t, p, b)
  {
  }

  lemma {:induction false} SetVar(vars: seq<Var>, j: nat, value: word)
    requires j < |vars|
    ensures VarsImage(vars[j := vars[j].(value := value)]) ==
      Overwrite(VarsImage(vars), VARIABLE * j + 1, Encode(value))
  {
    var n := |vars| - 1;
    var a, t := VarsImage(vars[..n]), [vars[n].name] + Encode(vars[n].value);
    var vars' := vars[j := vars[j].(value := value)];
    if j == n {
      assert vars'[..n] == vars[..n];
      OverwriteRight(a, t, 1, Encode(value));
      assert Overwrite(t, 1, Encode(value)) == [vars[n].name] + Encode(value);
    } else {
      SetVar(vars[..n], j, value);
      assert vars'[..n] == vars[..n][j := vars[j].(value := value)];
      OverwriteLeft(a, t, VARIABLE * j + 1, Encode(value));
    }
  }

  lemma SameFloor(f: Frames, vars: seq<Var>, base: int)
    ensures Floor(f.(vars := vars), base) == Floor(f, base) && Start(f.(vars := vars), base) == Start(f, base)
  {
  }

  lemma SetLocal(f: Frames, base: int, at: int, value: word)
    requires IsLocal(f, base, at)
    ensures base < at && at - base + WORD <= |Image(f, base)|
    ensures Image(SetCell(f, base, at, value), base) == Overwrite(Image(f, base), at - base, Encode(value))
  {
    hide VarsImage, Encode, Overwrite, Floor, Start, End;
    var j, floor := LocalIndex(f, base, at), Floor(f, base);
    CellBounds(f, base, at);
    SetVar(f.vars, j, value);
    SameFloor(f, f.vars[j := f.vars[j].(value := value)], base);
    OverwriteRight(floor, VarsImage(f.vars), VARIABLE * j + 1, Encode(value));
  }

  lemma SetBelow(f: Frames, g: Frames, base: int, at: int, bytes: seq<byte>)
    requires f.Push? && g.Push? && g == f.(below := g.below) && base <= at && at - base + |bytes| <= |Image(f.below, base)|
    requires Image(g.below, base) == Overwrite(Image(f.below, base), at - base, bytes)
    requires Start(g.below, base) == Start(f.below, base)
    ensures at - base + |bytes| <= |Image(f, base)|
    ensures Image(g, base) == Overwrite(Image(f, base), at - base, bytes)
  {
    ImageParts(f, base);
    ImageParts(g, base);
    hide VarsImage, LinkImage, Overwrite, Image, Floor;
    OverwriteInner(Image(f.below, base), LinkImage(ToWord(Start(f.below, base)), f.link), VarsImage(f.vars),
                   at - base, bytes);
  }

  lemma ImageParts(f: Frames, base: int)
    requires f.Push?
    ensures Image(f, base) ==
      Image(f.below, base) + LinkImage(ToWord(Start(f.below, base)), f.link) + VarsImage(f.vars)
  {
  }

  lemma OverwriteInner(a: seq<byte>, t: seq<byte>, u: seq<byte>, p: nat, b: seq<byte>)
    requires p + |b| <= |a|
    ensures Overwrite(a + t + u, p, b) == Overwrite(a, p, b) + t + u
  {
    OverwriteLeft(a, t, p, b);
    OverwriteLeft(a + t, u, p, b);
  }

  /** Writing a value cell writes that variable of the frames and nothing else. */
  lemma {:induction false} SetImage(f: Frames, base: int, at: int, value: word)
    requires IsCell(f, base, at)
    ensures base < at && at - base + WORD <= |Image(f, base)|
    ensures Image(SetCell(f, base, at, value), base) == Overwrite(Image(f, base), at - base, Encode(value))
    ensures SameShape(f, SetCell(f, base, at, value))
  {
    hide VarsImage, Image, Overwrite, Floor;
    var g := SetCell(f, base, at, value);
    if IsLocal(f, base, at) {
      SetLocal(f, base, at, value);
      if f.Push? {
        ShapeIsReflexive(f.below);
      }
    } else {
      SetImage(f.below, base, at, value);
      ShapeDecides(f.below, g.below, base);
      SetBelow(f, g, base, at, Encode(value));
    }
  }

  /** Same contexts but for the values of variables and the saved words. */
  predicate SameShape(f: Frames, g: Frames) {
    && |f.vars| == |g.vars| && (f.Bottom? <==> g.Bottom?)
    && (f.Push? ==> f.link.Size() == g.link.Size() && SameShape(f.below, g.below))
  }

  lemma {:induction false} ShapeIsReflexive(f: Frames)
    ensures SameShape(f, f)
  {
    if f.Push? {
      ShapeIsReflexive(f.below);
    }
  }

  lemma {:induction false} ShapeDecides(f: Frames, g: Frames, base: int)
    requires SameShape(f, g)
    ensures Start(f, base) == Start(g, base) && End(f, base) == End(g, base)
  {
    if f.Push? {
      ShapeDecides(f.below, g.below, base);
    }
  }
}
