/** The memory manager as a machine that answers messages, and what every run
    of it keeps: it looks like a map of independent byte arrays. */
module UmvRuns {
  import opened Bytes
  import opened Segments
  import opened Compaction
  import opened Placement

  datatype Option<T> = None | Some(value: T)

  datatype Op =
    | Request(pid: int, size: int, first: Chance, second: Chance)
    | Write(pid: int, virt: int, offset: int, bytes: seq<byte>)
    | Read(pid: int, virt: int, offset: int, count: int)
    | Destroy(pid: int)
    | Compact
    | Algorithm(firstFit: bool)

  datatype Reply =
    | Address(virt: int)
    | NotCreated
    | Written
    | Data(bytes: seq<byte>)
    | Fault
    | Silent

  /** The position of the first entry with that virtual address and owner. */
  function Find(list: seq<Segment>, virt: int, pid: int): (i: nat)
    ensures i <= |list|
    ensures i < |list| ==> list[i].virt == virt && list[i].pid == pid
    ensures forall j :: 0 <= j < i ==> !(list[j].virt == virt && list[j].pid == pid)
  {
    if list == [] || (list[0].virt == virt && list[0].pid == pid) then 0
    else
      var rest := list[1..];
      assert forall j :: 0 < j < |list| ==> list[j] == rest[j - 1];
      1 + Find(rest, virt, pid)
  }

  predicate InReach(u: Umv, virt: int, offset: int, count: int, pid: int) {
    var i := Find(u.list, virt, pid);
    i < |u.list| && u.list[i].size >= count + offset
  }

  function ReadBytes(u: Umv, virt: int, offset: int, count: int, pid: int): Option<seq<byte>>
    requires AllInside(u.list, |u.mem|) && 0 <= offset && 0 <= count
  {
    if InReach(u, virt, offset, count, pid) then
      var s := u.list[Find(u.list, virt, pid)];
      Some(u.mem[s.addr + offset..s.addr + offset + count])
    else None
  }

  function WrittenAt(u: Umv, i: nat, offset: int, bytes: seq<byte>): (v: Umv)
    requires i < |u.list| && u.list[i].Inside(|u.mem|) && 0 <= offset && offset + |bytes| <= u.list[i].size
    ensures v == u.(mem := v.mem) && |v.mem| == |u.mem|
  {
    u.(mem := Overwrite(u.mem, u.list[i].addr + offset, bytes))
  }

  function WriteBytes(u: Umv, bytes: seq<byte>, virt: int, offset: int, pid: int): Umv
    requires AllInside(u.list, |u.mem|) && 0 <= offset
  {
    if InReach(u, virt, offset, |bytes|, pid) then
      WrittenAt(u, Find(u.list, virt, pid), offset, bytes)
    else u
  }

  function Freed(s: Segment, pid: int): Segment {
    if s.pid == pid then s.(pid := -1) else s
  }

  function FreedList(list: seq<Segment>, pid: int): (r: seq<Segment>)
    ensures |r| == |list|
    ensures forall i :: 0 <= i < |list| ==> r[i] == Freed(list[i], pid)
  {
    seq(|list|, i requires 0 <= i < |list| => Freed(list[i], pid))
  }

  /** The kernel asks for a segment: try, and when the address answered is
      negative compact and try once more. A size of zero is answered with -1. */
  function Requested(u: Umv, pid: int, size: int, first: Chance, second: Chance): (Umv, Reply) {
    if size == 0 then (u, Address(-1))
    else
      var (v, r) := Create(u, first, pid, size);
      if r >= 0 then (v, Address(r))
      else
        var (w, q) := Create(Compacted(v), second, pid, size);
        (w, if q >= 0 then Address(q) else NotCreated)
  }

  function Step(u: Umv, op: Op): (Umv, Reply)
    requires AllInside(u.list, |u.mem|)
    requires op.Write? || op.Read? ==> 0 <= op.offset
    requires op.Read? ==> 0 <= op.count
  {
    match op
    case Request(pid, size, c, d) => Requested(u, pid, size, c, d)
    case Write(pid, virt, offset, bytes) =>
      (WriteBytes(u, bytes, virt, offset, pid),
       if InReach(u, virt, offset, |bytes|, pid) then Written else Fault)
    case Read(pid, virt, offset, count) =>
      (u, match ReadBytes(u, virt, offset, count, pid) case Some(b) => Data(b) case None => Fault)
    case Destroy(pid) => (u.(list := FreedList(u.list, pid)), Silent)
    case Compact => (Compacted(u), Silent)
    case Algorithm(f) => (u.(firstFit := f), Silent)
  }

  // ---- the machine it looks like ----

  type Arrays = map<(int, int), seq<byte>>

  /** What one message may do to a map of independent byte arrays. */
  ghost predicate Looks(v: Arrays, op: Op, reply: Reply, w: Arrays) {
    match op
    case Request(pid, size, _, _) =>
      if size == 0 then reply.Address? && reply.virt < 0 && w == v
      else if reply.Address? then reply.virt >= 0 && Added(v, w, (pid, reply.virt), size)
      else reply == NotCreated && w == v
    case Write(pid, virt, offset, bytes) =>
      var key := (pid, virt);
      if key in v && offset + |bytes| <= |v[key]| then
        reply == Written && 0 <= offset && w == v[key := Overwrite(v[key], offset, bytes)]
      else reply == Fault && w == v
    case Read(pid, virt, offset, count) =>
      var key := (pid, virt);
      && w == v
      && reply == (if key in v && 0 <= offset && 0 <= count && offset + count <= |v[key]|
                   then Data(v[key][offset..offset + count]) else Fault)
    case Destroy(pid) => reply == Silent && w == map k | k in v && k.0 != pid :: v[k]
    case Compact => reply == Silent && w == v
    case Algorithm(_) => reply == Silent && w == v
  }

  /** Callers name a process and non-negative offsets; the draws are fresh; the
      list is safe to compact whenever it may be compacted unsorted; and
      worst-fit is asked only when some hole has room. */
  ghost predicate Legal(u: Umv, op: Op) {
    match op
    case Request(pid, size, c, d) => pid > 0 && size >= 0 && (size > 0 ==> LegalRequest(u, c, d, pid, size))
    case Write(pid, _, offset, _) => pid > 0 && 0 <= offset
    case Read(pid, _, offset, count) => pid > 0 && 0 <= offset && 0 <= count
    case Destroy(pid) => true
    case Compact => SafeToCompact(u.list)
    case Algorithm(_) => true
  }

  ghost predicate LegalRequest(u: Umv, c: Chance, d: Chance, pid: int, size: int) {
    && Admissible(u, c, pid, size)
    && (Used(u.list) + size > |u.mem| ==> SafeToCompact(u.list))
    && (Used(u.list) + size <= |u.mem| ==>
          && (!u.firstFit && u.list != [] ==> SomeHoleFits(u.list, size))
          && (u.firstFit && u.list != [] && !SomeHoleFits(u.list, size) ==>
                c.unset < 0 && Admissible(Compacted(u.(list := c.order)), d, pid, size)))
  }

  // ---- reads and writes ----

  lemma ValidIsInside(u: Umv)
    requires Valid(u)
    ensures AllInside(u.list, |u.mem|)
  {
    forall i | 0 <= i < |u.list| ensures u.list[i].Inside(|u.mem|) {
      assert WellFormed(u.list[i], |u.mem|, u.nextId);
    }
  }

  lemma ViewAt(u: Umv, i: nat)
    requires Valid(u) && i < |u.list| && u.list[i].Live()
    ensures u.list[i].Inside(|u.mem|)
    ensures u.list[i].Key() in View(u) && View(u)[u.list[i].Key()] == Slice(u.mem, u.list[i])
  {
    assert u.list[i] in u.list;
  }

  lemma PositionOf(u: Umv, key: (int, int)) returns (i: nat)
    requires Valid(u) && key in View(u)
    ensures i < |u.list| && u.list[i].Live() && u.list[i].Key() == key
  {
    var s :| s in u.list && s.Live() && s.Key() == key;
    i :| 0 <= i < |u.list| && u.list[i] == s;
  }

  /** The first entry found is the one the view knows by that key. */
  lemma FindIsKey(u: Umv, virt: int, pid: int)
    requires Valid(u) && pid > 0
    ensures AllInside(u.list, |u.mem|)
    ensures var i := Find(u.list, virt, pid);
      && (i < |u.list| <==> (pid, virt) in View(u))
      && (i < |u.list| ==>
            u.list[i].Live() && u.list[i].Key() == (pid, virt) &&
            View(u)[(pid, virt)] == Slice(u.mem, u.list[i]))
  {
    ValidIsInside(u);
    var i := Find(u.list, virt, pid);
    if i < |u.list| {
      assert u.list[i] in u.list;
    } else {
      FreshIff(u, pid, virt);
    }
  }

  lemma SliceOfSlice(mem: seq<byte>, at: nat, size: nat, offset: nat, count: nat)
    requires at + size <= |mem| && offset + count <= size
    ensures mem[at..at + size][offset..offset + count] == mem[at + offset..at + offset + count]
  {
    var whole, a, b := mem[at..at + size], mem[at..at + size][offset..offset + count], mem[at + offset..at + offset + count];
    forall k | 0 <= k < count ensures a[k] == b[k] {
      assert a[k] == whole[offset + k];
      assert whole[offset + k] == mem[at + (offset + k)];
    }
    assert |a| == |b| == count;
  }

  /** A read is a slice of the byte array the key stands for. */
  lemma ReadIsSlice(u: Umv, virt: int, offset: int, count: int, pid: int)
    requires Valid(u) && pid > 0 && 0 <= offset && 0 <= count
    ensures AllInside(u.list, |u.mem|)
    ensures ReadBytes(u, virt, offset, count, pid) ==
      if (pid, virt) in View(u) && offset + count <= |View(u)[(pid, virt)]|
      then Some(View(u)[(pid, virt)][offset..offset + count]) else None
  {
    hide View, Valid, Find;
    FindIsKey(u, virt, pid);
    var i := Find(u.list, virt, pid);
    if i < |u.list| {
      var s := u.list[i];
      SliceSize(u.mem, s);
      if s.size >= count + offset {
        SliceOfSlice(u.mem, s.addr, s.size, offset, count);
      }
    }
  }

  lemma WriteElsewhere(mem: seq<byte>, s: Segment, offset: int, bytes: seq<byte>, t: Segment)
    requires s.Inside(|mem|) && t.Inside(|mem|) && 0 <= offset && offset + |bytes| <= s.size && Apart(s, t)
    ensures Slice(Overwrite(mem, s.addr + offset, bytes), t) == Slice(mem, t)
  {
  }

  lemma WriteHere(mem: seq<byte>, s: Segment, offset: int, bytes: seq<byte>)
    requires s.Inside(|mem|) && 0 <= offset && offset + |bytes| <= s.size
    ensures Slice(Overwrite(mem, s.addr + offset, bytes), s) == Overwrite(Slice(mem, s), offset, bytes)
  {
  }

  /** A write changes the one byte array it names and no other, or nothing. */
  lemma WriteUpdatesOne(u: Umv, bytes: seq<byte>, virt: int, offset: int, pid: int)
    requires Valid(u) && pid > 0 && 0 <= offset
    ensures AllInside(u.list, |u.mem|)
    ensures var key, v := (pid, virt), WriteBytes(u, bytes, virt, offset, pid);
      && Valid(v)
      && (InReach(u, virt, offset, |bytes|, pid) <==> key in View(u) && offset + |bytes| <= |View(u)[key]|)
      && View(v) == if key in View(u) && offset + |bytes| <= |View(u)[key]|
                    then View(u)[key := Overwrite(View(u)[key], offset, bytes)] else View(u)
  {
    hide View, Valid, Overwrite, WrittenAt, Slice;
    FindIsKey(u, virt, pid);
    if Find(u.list, virt, pid) < |u.list| {
      SliceSize(u.mem, u.list[Find(u.list, virt, pid)]);
    }
    if InReach(u, virt, offset, |bytes|, pid) {
      WriteAtIndex(u, Find(u.list, virt, pid), offset, bytes);
    }
  }

  lemma WriteSeenAt(u: Umv, i: nat, offset: int, bytes: seq<byte>, j: nat)
    requires Valid(u) && i < |u.list| && j < |u.list| && u.list[i].Live() && u.list[j].Live()
    requires 0 <= offset && offset + |bytes| <= u.list[i].size && u.list[i].Inside(|u.mem|)
    ensures u.list[j].Inside(|u.mem|)
    ensures Slice(WrittenAt(u, i, offset, bytes).mem, u.list[j]) ==
      if j == i then Overwrite(Slice(u.mem, u.list[i]), offset, bytes) else Slice(u.mem, u.list[j])
    ensures j != i ==> u.list[j].Key() != u.list[i].Key()
  {
    ValidIsInside(u);
    hide Valid;
    if j == i {
      WriteHere(u.mem, u.list[i], offset, bytes);
    } else {
      DistinctAreApart(u, i, j);
      WriteElsewhere(u.mem, u.list[i], offset, bytes, u.list[j]);
    }
  }

  lemma WriteSeenBy(u: Umv, i: nat, offset: int, bytes: seq<byte>, k: (int, int))
    requires Valid(u) && i < |u.list| && u.list[i].Live() && u.list[i].Inside(|u.mem|)
    requires 0 <= offset && offset + |bytes| <= u.list[i].size && Valid(WrittenAt(u, i, offset, bytes))
    requires k in View(u)
    ensures var v, key := WrittenAt(u, i, offset, bytes), u.list[i].Key();
      && key in View(u) && |View(u)[key]| == u.list[i].size && k in View(v)
      && View(v)[k] == if k == key then Overwrite(View(u)[key], offset, bytes) else View(u)[k]
  {
    hide View, Valid, Overwrite, WrittenAt, Slice;
    var v := WrittenAt(u, i, offset, bytes);
    var j := PositionOf(u, k);
    ViewAt(u, i);
    SliceSize(u.mem, u.list[i]);
    ViewAt(u, j);
    ViewAt(v, j);
    WriteSeenAt(u, i, offset, bytes, j);
  }

  lemma WriteHad(u: Umv, i: nat, offset: int, bytes: seq<byte>, k: (int, int))
    requires Valid(u) && i < |u.list| && u.list[i].Inside(|u.mem|)
    requires 0 <= offset && offset + |bytes| <= u.list[i].size && Valid(WrittenAt(u, i, offset, bytes))
    requires k in View(WrittenAt(u, i, offset, bytes))
    ensures k in View(u)
  {
    hide View, Valid, Overwrite, WrittenAt, Slice;
    var j := PositionOf(WrittenAt(u, i, offset, bytes), k);
    ViewAt(u, j);
  }

  lemma WriteAtIndex(u: Umv, i: nat, offset: int, bytes: seq<byte>)
    requires Valid(u) && i < |u.list| && u.list[i].Live()
    requires 0 <= offset && offset + |bytes| <= u.list[i].size
    ensures u.list[i].Inside(|u.mem|) && u.list[i].Key() in View(u)
    ensures |View(u)[u.list[i].Key()]| == u.list[i].size
    ensures var key, v := u.list[i].Key(), WrittenAt(u, i, offset, bytes);
      Valid(v) && View(v) == View(u)[key := Overwrite(View(u)[key], offset, bytes)]
  {
    ValidIsInside(u);
    var v, key := WrittenAt(u, i, offset, bytes), u.list[i].Key();
    WriteKeepsValid(u, v);
    hide View, Valid, Overwrite, WrittenAt, Slice;
    ViewAt(u, i);
    SliceSize(u.mem, u.list[i]);
    forall k | k in View(u)
      ensures k in View(v) && View(v)[k] == if k == key then Overwrite(View(u)[key], offset, bytes) else View(u)[k]
    {
      WriteSeenBy(u, i, offset, bytes, k);
    }
    forall k | k in View(v) ensures k in View(u) {
      WriteHad(u, i, offset, bytes, k);
    }
  }

  lemma SliceSize(mem: seq<byte>, s: Segment)
    requires s.Inside(|mem|)
    ensures |Slice(mem, s)| == s.size
  {
  }

  lemma WriteKeepsValid(u: Umv, v: Umv)
    requires Valid(u) && v == u.(mem := v.mem) && |v.mem| == |u.mem|
    ensures Valid(v)
  {
  }

  lemma DistinctAreApart(u: Umv, i: nat, j: nat)
    requires Valid(u) && i < |u.list| && j < |u.list| && i != j
    ensures Apart(u.list[i], u.list[j])
    ensures u.list[i].Live() && u.list[j].Live() ==> u.list[i].Key() != u.list[j].Key()
  {
    assert Compatible(u.list[if i < j then i else j], u.list[if i < j then j else i]);
  }

  // ---- destruction ----

  lemma {:induction false} SizeOfFreed(list: seq<Segment>, pid: int)
    ensures Size(FreedList(list, pid)) == Size(list)
  {
    if list != [] {
      SizeOfFreed(list[1..], pid);
      assert FreedList(list, pid)[1..] == FreedList(list[1..], pid);
    }
  }

  lemma FreedIsValid(u: Umv, pid: int)
    requires Valid(u)
    ensures Valid(u.(list := FreedList(u.list, pid)))
  {
    var l := FreedList(u.list, pid);
    SizeOfFreed(u.list, pid);
    forall i, j | 0 <= i < j < |l| ensures Compatible(l[i], l[j]) {
      assert Compatible(u.list[i], u.list[j]);
    }
    forall i | 0 <= i < |l| ensures WellFormed(l[i], |u.mem|, u.nextId) {
      assert WellFormed(u.list[i], |u.mem|, u.nextId);
    }
  }

  lemma FreedKeeps(u: Umv, pid: int, k: (int, int))
    requires Valid(u) && k in View(u) && k.0 != pid
    ensures var v := u.(list := FreedList(u.list, pid)); Valid(v) && k in View(v) && View(v)[k] == View(u)[k]
  {
    FreedIsValid(u, pid);
    hide View, Valid, Slice;
    var i := PositionOf(u, k);
    ViewAt(u, i);
    ViewAt(u.(list := FreedList(u.list, pid)), i);
  }

  lemma FreedHad(u: Umv, pid: int, k: (int, int))
    requires Valid(u) && Valid(u.(list := FreedList(u.list, pid))) && k in View(u.(list := FreedList(u.list, pid)))
    ensures k in View(u) && k.0 != pid
  {
    hide View, Valid, Slice;
    var i := PositionOf(u.(list := FreedList(u.list, pid)), k);
    ViewAt(u, i);
  }

  /** Destroying a process removes exactly its byte arrays. */
  lemma DestroyRemovesOwner(u: Umv, pid: int)
    requires Valid(u)
    ensures var v := u.(list := FreedList(u.list, pid));
      Valid(v) && View(v) == map k | k in View(u) && k.0 != pid :: View(u)[k]
  {
    FreedIsValid(u, pid);
    hide View, Valid, Slice, FreedList;
    var v := u.(list := FreedList(u.list, pid));
    forall k | k in View(u) && k.0 != pid ensures k in View(v) && View(v)[k] == View(u)[k] {
      FreedKeeps(u, pid, k);
    }
    forall k | k in View(v) ensures k in View(u) && k.0 != pid {
      FreedHad(u, pid, k);
    }
  }

  // ---- requests ----

  lemma AlgorithmIsInvisible(u: Umv, f: bool)
    requires Valid(u)
    ensures Valid(u.(firstFit := f)) && View(u.(firstFit := f)) == View(u)
  {
  }

  /** After compaction the only hole holds all the free bytes. */
  lemma RoomAfterCompaction(u: Umv, size: int)
    requires Valid(u) && SafeToCompact(u.list) && size > 0 && Used(u.list) + size <= |u.mem|
    ensures Compacted(u).list != [] && SomeHoleFits(Compacted(u).list, size)
  {
    CompactedShape(u);
    var l := Compacted(u).list;
    assert HasRoom(l[|l| - 1], size);
  }

  /** One attempt when the bytes in use leave room and some hole fits. */
  lemma AttemptSucceeds(u: Umv, c: Chance, pid: int, size: int)
    requires Valid(u) && Admissible(u, c, pid, size) && Used(u.list) + size <= |u.mem|
    requires u.list == [] || SomeHoleFits(u.list, size)
    ensures var (v, r) := Create(u, c, pid, size);
      r == c.virt && Valid(v) && Added(View(u), View(v), (pid, c.virt), size)
  {
    if u.list == [] {
      ReorderingIsInvisible(u, c.order);
      FirstPairAddsOne(u, pid, size, c.virt);
      AddedBy(View(u), View(FirstPair(u, pid, size, c.virt)), (pid, c.virt), u.mem[..size]);
    } else if u.firstFit {
      FirstFitOutcome(u, c, pid, size);
      assert c.order != [] by { ReorderingIsInvisible(u, c.order); }
    } else {
      var h := RoomMeansHole(u, size);
      WorstFitOutcome(u, c, pid, size, h);
      assert c.order != [] by { ReorderingIsInvisible(u, c.order); }
    }
  }

  /** First-fit finds no hole although the bytes in use leave room. */
  lemma FragmentedAttempt(u: Umv, c: Chance, pid: int, size: int)
    requires Valid(u) && Admissible(u, c, pid, size) && Used(u.list) + size <= |u.mem|
    requires u.firstFit && u.list != [] && !SomeHoleFits(u.list, size)
    ensures Create(u, c, pid, size) == (u.(list := c.order), c.unset)
    ensures var v := u.(list := c.order);
      && Valid(v) && View(v) == View(u) && SafeToCompact(v.list)
      && Valid(Compacted(v)) && View(Compacted(v)) == View(u)
      && Used(Compacted(v).list) + size <= |u.mem| && Compacted(v).firstFit
      && |Compacted(v).mem| == |u.mem| && SomeHoleFits(Compacted(v).list, size)
  {
    FirstFitOutcome(u, c, pid, size);
    ReorderingIsInvisible(u, c.order);
    var v := u.(list := c.order);
    SortedIsSafe(v);
    CompactionIsInvisible(v);
    CompactedIsValid(v);
    CompactedShape(v);
    RoomAfterCompaction(v, size);
  }

  /** A request is refused only when the bytes in use plus the request exceed
      the memory: fragmentation alone never refuses a process. A refused
      request, and the compaction it makes, change no byte array. */
  lemma RefusedIffFull(u: Umv, c: Chance, d: Chance, pid: int, size: int)
    requires Valid(u) && size > 0 && LegalRequest(u, c, d, pid, size)
    ensures var (v, reply) := Requested(u, pid, size, c, d);
      && Valid(v)
      && (reply == NotCreated <==> Used(u.list) + size > |u.mem|)
      && (reply == NotCreated ==> View(v) == View(u))
      && (reply != NotCreated ==>
            reply.Address? && reply.virt >= 0 && Added(View(u), View(v), (pid, reply.virt), size))
  {
    hide Valid, View, Create, Compacted, SafeToCompact, Admissible, SomeHoleFits, Added, Used;
    if Used(u.list) + size > |u.mem| {
      FullRequest(u, c, d, pid, size);
    } else if u.list != [] && u.firstFit && !SomeHoleFits(u.list, size) {
      FragmentedAttempt(u, c, pid, size);
      var v := u.(list := c.order);
      AttemptSucceeds(Compacted(v), d, pid, size);
      assert d.virt >= 0 by { assert Admissible(Compacted(v), d, pid, size); NonNegativeDraw(Compacted(v), d, pid, size); }
    } else {
      AttemptSucceeds(u, c, pid, size);
      NonNegativeDraw(u, c, pid, size);
    }
  }

  lemma NonNegativeDraw(u: Umv, c: Chance, pid: int, size: int)
    requires Admissible(u, c, pid, size)
    ensures c.virt >= 0
  {
  }

  lemma FullRequest(u: Umv, c: Chance, d: Chance, pid: int, size: int)
    requires Valid(u) && size > 0 && Used(u.list) + size > |u.mem| && SafeToCompact(u.list)
    ensures Create(u, c, pid, size) == (u, -1)
    ensures Requested(u, pid, size, c, d) == (Compacted(u), NotCreated)
    ensures Valid(Compacted(u)) && View(Compacted(u)) == View(u)
  {
    hide Valid, View, Compacted, SafeToCompact, Used, FirstFit, WorstFit;
    CompactionIsInvisible(u);
    CompactedIsValid(u);
    CompactedShape(u);
  }

  /** First-fit leaves the address of a segment it did not place unset, and the
      retry looks at its sign: with the memory fragmented, a process gets its
      segment if and only if that value happens to be negative. */
  lemma FragmentedServedIff(u: Umv, c: Chance, d: Chance, pid: int, size: int)
    requires Valid(u) && u.firstFit && u.list != [] && !SomeHoleFits(u.list, size)
    requires Admissible(u, c, pid, size) && Used(u.list) + size <= |u.mem|
    requires Admissible(Compacted(u.(list := c.order)), d, pid, size)
    ensures var (v, reply) := Requested(u, pid, size, c, d);
      && Valid(v)
      && ((exists virt :: Added(View(u), View(v), (pid, virt), size)) <==> c.unset < 0)
  {
    FragmentedAttempt(u, c, pid, size);
    var w := Compacted(u.(list := c.order));
    if c.unset < 0 {
      AttemptSucceeds(w, d, pid, size);
      assert Added(View(u), View(Create(w, d, pid, size).0), (pid, d.virt), size);
    }
  }

  // ---- every run ----

  lemma AskLooks(u: Umv, pid: int, size: int, c: Chance, d: Chance)
    requires Valid(u) && pid > 0 && size >= 0 && (size > 0 ==> LegalRequest(u, c, d, pid, size))
    ensures var (v, reply) := Requested(u, pid, size, c, d);
      Valid(v) && Looks(View(u), Request(pid, size, c, d), reply, View(v))
  {
    hide Valid, View, Create, Compacted, LegalRequest, Added;
    if size > 0 {
      RefusedIffFull(u, c, d, pid, size);
      hide Requested;
    }
  }

  /** Each legal message keeps the list consistent and looks, from outside, as
      if the memory were a map of independent byte arrays. */
  lemma StepLooks(u: Umv, op: Op)
    requires Valid(u) && Legal(u, op)
    ensures AllInside(u.list, |u.mem|)
    ensures var (v, reply) := Step(u, op);
      Valid(v) && Looks(View(u), op, reply, View(v))
  {
    ValidIsInside(u);
    hide Valid, View, Find, Requested, WriteBytes, ReadBytes, InReach, FreedList, Compacted, SafeToCompact, LegalRequest;
    match op
    case Request(pid, size, c, d) => AskLooks(u, pid, size, c, d);
    case Write(pid, virt, offset, bytes) => WriteUpdatesOne(u, bytes, virt, offset, pid);
    case Read(pid, virt, offset, count) => ReadIsSlice(u, virt, offset, count, pid);
    case Destroy(pid) => DestroyRemovesOwner(u, pid);
    case Compact =>
      CompactionIsInvisible(u);
      CompactedIsValid(u);
    case Algorithm(f) => AlgorithmIsInvisible(u, f);
  }

  ghost function After(u: Umv, op: Op): Umv
    requires Valid(u) && Legal(u, op)
    ensures Valid(After(u, op))
  {
    StepLooks(u, op);
    Step(u, op).0
  }

  ghost predicate LegalRun(u: Umv, ops: seq<Op>)
    requires Valid(u)
    decreases |ops|
  {
    ops == [] || (Legal(u, ops[0]) && LegalRun(After(u, ops[0]), ops[1..]))
  }

  ghost function Run(u: Umv, ops: seq<Op>): (v: Umv)
    requires Valid(u) && LegalRun(u, ops)
    ensures Valid(v)
    decreases |ops|
  {
    if ops == [] then u else Run(After(u, ops[0]), ops[1..])
  }

  predicate Touches(op: Op, key: (int, int)) {
    (op.Write? && (op.pid, op.virt) == key) || (op.Destroy? && op.pid == key.0)
  }

  lemma LooksUntouched(v: Arrays, op: Op, reply: Reply, w: Arrays, key: (int, int))
    requires Looks(v, op, reply, w) && key in v && !Touches(op, key)
    ensures key in w && w[key] == v[key]
  {
  }

  /** Whatever is created, written, read, destroyed and compacted in between, a
      byte array changes only by writes to its own key and goes only with its
      owner. */
  lemma {:induction false} UntouchedSurvives(u: Umv, ops: seq<Op>, key: (int, int))
    requires Valid(u) && LegalRun(u, ops) && key in View(u)
    requires forall i :: 0 <= i < |ops| ==> !Touches(ops[i], key)
    ensures key in View(Run(u, ops)) && View(Run(u, ops))[key] == View(u)[key]
    decreases |ops|
  {
    if ops != [] {
      StepLooks(u, ops[0]);
      var v := After(u, ops[0]);
      assert !Touches(ops[0], key);
      LooksUntouched(View(u), ops[0], Step(u, ops[0]).1, View(v), key);
      hide View, Valid, Legal, Step, Looks, Touches;
      UntouchedSurvives(v, ops[1..], key);
    }
  }

  lemma WrittenIsSeen(u: Umv, pid: int, virt: int, offset: int, bytes: seq<byte>)
    requires Valid(u) && pid > 0 && 0 <= offset && AllInside(u.list, |u.mem|)
    requires Step(u, Write(pid, virt, offset, bytes)).1 == Written
    ensures var key, w := (pid, virt), After(u, Write(pid, virt, offset, bytes));
      key in View(w) && offset + |bytes| <= |View(w)[key]| && View(w)[key][offset..offset + |bytes|] == bytes
  {
    hide View, Valid, Find;
    StepLooks(u, Write(pid, virt, offset, bytes));
    hide Step, WriteBytes, InReach;
  }

  /** Bytes written are the bytes read back after any run that does not touch
      the segment, wherever compaction has moved it meanwhile. */
  lemma WrittenIsReadBack(u: Umv, pid: int, virt: int, offset: int, bytes: seq<byte>, ops: seq<Op>)
    requires Valid(u) && pid > 0 && 0 <= offset && AllInside(u.list, |u.mem|)
    requires Step(u, Write(pid, virt, offset, bytes)).1 == Written
    requires LegalRun(u, [Write(pid, virt, offset, bytes)] + ops)
    requires forall i :: 0 <= i < |ops| ==> !Touches(ops[i], (pid, virt))
    ensures var v := Run(u, [Write(pid, virt, offset, bytes)] + ops);
      && AllInside(v.list, |v.mem|)
      && Step(v, Read(pid, virt, offset, |bytes|)).1 == Data(bytes)
  {
    var op, key := Write(pid, virt, offset, bytes), (pid, virt);
    assert ([op] + ops)[1..] == ops;
    var w := After(u, op);
    var v := Run(w, ops);
    hide View, Valid, LegalRun, Run, After, InReach, WriteBytes;
    WrittenIsSeen(u, pid, virt, offset, bytes);
    UntouchedSurvives(w, ops, key);
    ReadIsSlice(v, virt, offset, |bytes|, pid);
  }
}
