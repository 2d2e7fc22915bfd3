/** The packets that the programs exchange: how one is laid out, what a reader
    makes of a stream of them, and what requests and answers carry. */
module Packets {
  import opened Bytes
  import opened Segments
  import opened Compaction
  import opened UmvRuns

  datatype Packet = Packet(op: word, data: seq<byte>)

  const HEADER := 8
  const HALF := 0x8000_0000

  /** A size is a signed 32-bit integer. */
  predicate Sized(p: Packet) {
    |p.data| < HALF
  }

  function Serialized(p: Packet): (s: seq<byte>)
    requires Sized(p)
    ensures |s| == HEADER + |p.data|
  {
    Encode(p.op) + Encode(|p.data|) + p.data
  }

  /** `Closed` is the null answer; `Broken` is a stream that ends inside a
      packet, or a size no packet has. */
  datatype Received = Got(packet: Packet) | Closed | Broken

  /** What the reader makes of the stream and what it leaves in it. A read of no
      bytes gives none, whether the stream has ended or no bytes were asked. */
  function Receive(stream: seq<byte>): (Received, seq<byte>) {
    if stream == [] then (Closed, [])
    else if |stream| < HEADER then (Broken, [])
    else
      var n, rest := Decode(stream[4..8]), stream[HEADER..];
      if n == 0 || rest == [] then (Closed, rest)
      else if n >= HALF || |rest| < n then (Broken, [])
      else (Got(Packet(Decode(stream[..4]), rest[..n])), rest[n..])
  }

  function ReceiveMany(stream: seq<byte>, count: nat): (seq<Received>, seq<byte>)
    decreases count
  {
    if count == 0 then ([], stream)
    else
      var (first, rest) := Receive(stream);
      var (others, end) := ReceiveMany(rest, count - 1);
      ([first] + others, end)
  }

  predicate AllSized(ps: seq<Packet>) {
    forall i :: 0 <= i < |ps| ==> Sized(ps[i])
  }

  function Stream(ps: seq<Packet>): seq<byte>
    requires AllSized(ps)
  {
    if ps == [] then [] else Serialized(ps[0]) + Stream(ps[1..])
  }

  function ReadBack(p: Packet): Received {
    if p.data == [] then Closed else Got(p)
  }

  lemma Header(p: Packet, more: seq<byte>)
    requires Sized(p)
    ensures var s := Serialized(p) + more;
      s[..4] == Encode(p.op) && s[4..8] == Encode(|p.data|) && s[HEADER..] == p.data + more
  {
  }

  /** One packet at the head of a stream is received whole if and only if it has
      data; the reader is at the next packet either way. */
  lemma OneIsReadBack(p: Packet, more: seq<byte>)
    requires Sized(p)
    ensures Receive(Serialized(p) + more) == (ReadBack(p), more)
  {
    Header(p, more);
    DecodeEncode(p.op);
    DecodeEncode(|p.data|);
    hide Encode, Decode, Serialized;
  }

  function AllReadBack(ps: seq<Packet>): seq<Received> {
    seq(|ps|, i requires 0 <= i < |ps| => ReadBack(ps[i]))
  }

  lemma StreamHead(ps: seq<Packet>, more: seq<byte>)
    requires AllSized(ps) && ps != []
    ensures Stream(ps) + more == Serialized(ps[0]) + (Stream(ps[1..]) + more)
  {
    hide Serialized;
    Grouped(Serialized(ps[0]), Stream(ps[1..]), more);
  }

  lemma Grouped(a: seq<byte>, b: seq<byte>, c: seq<byte>)
    ensures a + b + c == a + (b + c)
  {
  }

  lemma ReadBackHead(ps: seq<Packet>)
    requires ps != []
    ensures AllReadBack(ps) == [ReadBack(ps[0])] + AllReadBack(ps[1..])
  {
    hide ReadBack;
  }

  lemma NoPackets(more: seq<byte>)
    ensures Stream([]) + more == more && AllReadBack([]) == []
  {
  }

  /** Each packet of a stream is received as itself or, when it has no data, as
      closed; the packets after it are not disturbed. */
  lemma {:induction false} EachIsReadBack(ps: seq<Packet>, more: seq<byte>)
    requires AllSized(ps)
    ensures ReceiveMany(Stream(ps) + more, |ps|) == (AllReadBack(ps), more)
    decreases |ps|
  {
    hide Receive, Serialized, ReadBack, Stream, AllReadBack;
    if ps != [] {
      var rest := Stream(ps[1..]) + more;
      StreamHead(ps, more);
      ReadBackHead(ps);
      OneIsReadBack(ps[0], rest);
      EachIsReadBack(ps[1..], more);
    } else {
      NoPackets(more);
    }
  }

  /** Any sequence of packets is read back as itself if and only if every one
      has data. */
  lemma SequenceIsReadBackIff(ps: seq<Packet>)
    requires AllSized(ps)
    ensures ReceiveMany(Stream(ps), |ps|).0 == seq(|ps|, i requires 0 <= i < |ps| => Got(ps[i]))
      <==> (forall i :: 0 <= i < |ps| ==> ps[i].data != [])
  {
    EachIsReadBack(ps, []);
    assert Stream(ps) + [] == Stream(ps);
    hide Stream, ReceiveMany;
    SameIffData(ps);
  }

  lemma SameIffData(ps: seq<Packet>)
    ensures AllReadBack(ps) == seq(|ps|, i requires 0 <= i < |ps| => Got(ps[i]))
      <==> (forall i :: 0 <= i < |ps| ==> ps[i].data != [])
  {
    var got, want := AllReadBack(ps), seq(|ps|, i requires 0 <= i < |ps| => Got(ps[i]));
    if got == want {
      forall i | 0 <= i < |ps| ensures ps[i].data != [] {
        assert got[i] == want[i];
      }
    }
  }

  // ---- integers inside packets ----

  function Signed(w: word): int {
    if w < HALF then w else w - 2 * HALF
  }

  function Unsigned(x: int): word {
    x % (2 * HALF)
  }

  lemma SignedUnsigned(x: int)
    requires -HALF <= x < HALF
    ensures Signed(Unsigned(x)) == x
  {
  }

  /** The word that starts at byte `4 * i`. */
  function WordAt(data: seq<byte>, i: nat): word
    requires 4 * i + 4 <= |data|
  {
    Decode(data[4 * i..4 * i + 4])
  }

  function Words(ws: seq<word>): (r: seq<byte>)
    ensures |r| == 4 * |ws|
  {
    if ws == [] then [] else Encode(ws[0]) + Words(ws[1..])
  }

  lemma {:induction false} WordsReadBack(ws: seq<word>, more: seq<byte>, i: nat)
    requires i < |ws|
    ensures WordAt(Words(ws) + more, i) == ws[i]
    ensures (Words(ws) + more)[4 * |ws|..] == more
    decreases i
  {
    var data, rest := Words(ws) + more, Words(ws[1..]) + more;
    assert data == Encode(ws[0]) + rest;
    if i == 0 {
      DecodeEncode(ws[0]);
      assert data[0..4] == Encode(ws[0]);
    } else {
      WordsReadBack(ws[1..], more, i - 1);
      assert data[4 * i..4 * i + 4] == rest[4 * (i - 1)..4 * (i - 1) + 4];
    }
  }

  // ---- the CPU asks the memory manager ----

  const READ := 71
  const WRITE := 5
  const FAULT := 7

  /** The code that pushes and pops take for a fault. */
  const SEGMENTATION_FAULT := 1

  /** The CPU's own decision about an answer: it calls its error routine when the
      code is the one that it takes for a problem. */
  predicate Problem(answer: Packet, code: word) {
    answer.op == code
  }

  function WritePacket(base: word, offset: int, bytes: seq<byte>): Packet
    requires |bytes| < HALF
  {
    Packet(WRITE, Words([base, Unsigned(offset), |bytes|]) + bytes)
  }

  function ReadPacket(base: word, offset: int, count: word): Packet {
    Packet(READ, Words([base, Unsigned(offset), count]))
  }

  datatype Asked =
    | AskedRead(base: int, offset: int, count: int)
    | AskedWrite(base: int, offset: int, bytes: seq<byte>)
    | Unknown

  /** What the memory manager unpacks. */
  function Unpacked(p: Packet): Asked {
    if (p.op != READ && p.op != WRITE) || |p.data| < 12 then Unknown
    else
      var base, offset, size := Signed(WordAt(p.data, 0)), Signed(WordAt(p.data, 1)), Signed(WordAt(p.data, 2));
      if p.op == READ then AskedRead(base, offset, size)
      else if 0 <= size <= |p.data| - 12 then AskedWrite(base, offset, p.data[12..12 + size])
      else Unknown
  }

  lemma ThreeWords(a: word, b: word, c: word, more: seq<byte>)
    ensures var data := Words([a, b, c]) + more;
      WordAt(data, 0) == a && WordAt(data, 1) == b && WordAt(data, 2) == c && data[12..] == more
  {
    hide Words, WordAt;
    WordsReadBack([a, b, c], more, 0);
    WordsReadBack([a, b, c], more, 1);
    WordsReadBack([a, b, c], more, 2);
  }

  /** A write request is unpacked to what was packed if and only if its base is
      not negative as a signed integer. */
  lemma WriteRequestRoundTrip(base: word, offset: int, bytes: seq<byte>)
    requires |bytes| < HALF && -HALF <= offset < HALF
    ensures Unpacked(WritePacket(base, offset, bytes)) == AskedWrite(Signed(base), offset, bytes)
    ensures Unpacked(WritePacket(base, offset, bytes)) == AskedWrite(base, offset, bytes) <==> base < HALF
  {
    ThreeWords(base, Unsigned(offset), |bytes|, bytes);
    SignedUnsigned(offset);
    hide Words, WordAt, Unsigned;
    var data := WritePacket(base, offset, bytes).data;
    assert data[12..12 + |bytes|] == bytes;
  }

  lemma ReadRequestRoundTrip(base: word, offset: int, count: word)
    requires -HALF <= offset < HALF
    ensures Unpacked(ReadPacket(base, offset, count)) == AskedRead(Signed(base), offset, Signed(count))
  {
    ThreeWords(base, Unsigned(offset), count, []);
    SignedUnsigned(offset);
    hide Words, WordAt, Unsigned, Signed;
    assert Words([base, Unsigned(offset), count]) + [] == Words([base, Unsigned(offset), count]);
  }

  const OK_TEXT: seq<byte> := [79, 75, 0]
  const FAULT_TEXT: seq<byte> := [83, 70, 0]
  const BAD_TEXT: seq<byte> := [70, 70, 0]
  const BAD_CODE := 8

  /** The answer for the active process. A read of no bytes is answered with one
      byte, so that the answer has data. */
  function Answered(u: Umv, pid: int, asked: Asked): (Umv, Packet)
    requires AllInside(u.list, |u.mem|)
    requires asked.AskedRead? || asked.AskedWrite? ==> 0 <= asked.offset
    requires asked.AskedRead? ==> 0 <= asked.count
  {
    match asked
    case AskedWrite(base, offset, bytes) =>
      (WriteBytes(u, bytes, base, offset, pid),
       if InReach(u, base, offset, |bytes|, pid) then Packet(WRITE, OK_TEXT) else Packet(FAULT, FAULT_TEXT))
    case AskedRead(base, offset, count) =>
      (u, match ReadBytes(u, base, offset, count, pid)
          case Some(b) => Packet(READ, if b == [] then [0] else b)
          case None => Packet(FAULT, FAULT_TEXT))
    case Unknown => (u, Packet(BAD_CODE, BAD_TEXT))
  }

  /** A write by a CPU, over both streams: the request arrives as sent, the one
      byte array of the process changes as written, or none, and the answer that
      arrives says which. */
  lemma WriteOverTheWire(u: Umv, pid: int, base: word, offset: int, bytes: seq<byte>, more: seq<byte>, later: seq<byte>)
    requires Valid(u) && pid > 0 && base < HALF && 0 <= offset < HALF && |bytes| < HALF - 12
    ensures AllInside(u.list, |u.mem|)
    ensures var key := (pid, base as int);
      var (got, rest) := Receive(Serialized(WritePacket(base, offset, bytes)) + more);
      && got.Got? && rest == more
      && var asked := Unpacked(got.packet);
      && asked.AskedWrite? && 0 <= asked.offset
      && var (v, answer) := Answered(u, pid, asked);
      && var fits := key in View(u) && offset + |bytes| <= |View(u)[key]|;
      && Valid(v)
      && View(v) == (if fits then View(u)[key := Overwrite(View(u)[key], offset, bytes)] else View(u))
      && Sized(answer) && Receive(Serialized(answer) + later) == (Got(answer), later)
      && answer.op == (if fits then WRITE else FAULT)
      && (answer.op == WRITE <==> fits) && (Problem(answer, FAULT) <==> !fits)
      && !Problem(answer, SEGMENTATION_FAULT)
  {
    var p := WritePacket(base, offset, bytes);
    OneIsReadBack(p, more);
    WriteRequestRoundTrip(base, offset, bytes);
    WriteUpdatesOne(u, bytes, base, offset, pid);
    OneIsReadBack(Packet(WRITE, OK_TEXT), later);
    OneIsReadBack(Packet(FAULT, FAULT_TEXT), later);
    hide Receive, Serialized, View, Valid, WriteBytes, InReach, Overwrite, Unpacked, Words;
  }

  lemma Joined(a: seq<byte>, b: seq<byte>, c: seq<byte>, d: seq<byte>, e: seq<byte>, rest: seq<byte>)
    ensures a + b + (c + d + e + rest) == a + b + c + d + e + rest
  {
  }

  lemma RequestLayout(op: byte, n: byte, base: byte, offset: byte, size: byte, rest: seq<byte>)
    requires n as int == 12 + |rest|
    ensures Serialized(Packet(op, Words([base, Unsigned(offset), size]) + rest)) ==
      [op, 0, 0, 0] + [n, 0, 0, 0] + [base, 0, 0, 0] + [offset, 0, 0, 0] + [size, 0, 0, 0] + rest
  {
    SmallWord(op);
    SmallWord(n);
    SmallWord(base);
    SmallWord(offset);
    SmallWord(size);
    ThreeSmall(base, offset, size);
    assert Unsigned(offset) == offset;
    hide Encode, Words, Unsigned;
    Joined([op, 0, 0, 0], [n, 0, 0, 0], [base, 0, 0, 0], [offset, 0, 0, 0], [size, 0, 0, 0], rest);
  }

  lemma FiveWords(a: byte, b: byte, c: byte, d: byte, e: byte)
    ensures [a, 0, 0, 0] + [b, 0, 0, 0] + [c, 0, 0, 0] + [d, 0, 0, 0] + [e, 0, 0, 0]
      == [a, 0, 0, 0, b, 0, 0, 0, c, 0, 0, 0, d, 0, 0, 0, e, 0, 0, 0]
  {
  }

  /** What a request looks like on the wire: code 5 or 71, the length of the rest,
      then base, offset and size, least significant byte first. */
  lemma RequestsOnTheWire(base: byte, offset: byte, bytes: seq<byte>)
    requires |bytes| < 244
    ensures Serialized(WritePacket(base, offset, bytes)) ==
      [5, 0, 0, 0, 12 + |bytes|, 0, 0, 0, base, 0, 0, 0, offset, 0, 0, 0, |bytes|, 0, 0, 0] + bytes
    ensures Serialized(ReadPacket(base, offset, |bytes|)) ==
      [71, 0, 0, 0, 12, 0, 0, 0, base, 0, 0, 0, offset, 0, 0, 0, |bytes|, 0, 0, 0]
  {
    hide Serialized, Words, Unsigned;
    RequestLayout(5, 12 + |bytes|, base, offset, |bytes|, bytes);
    RequestLayout(71, 12, base, offset, |bytes|, []);
    FiveWords(5, 12 + |bytes|, base, offset, |bytes|);
    FiveWords(71, 12, base, offset, |bytes|);
    assert Words([base, Unsigned(offset), |bytes|]) + [] == Words([base, Unsigned(offset), |bytes|]);
  }

  lemma SmallWord(w: byte)
    ensures Encode(w) == [w, 0, 0, 0]
  {
  }

  lemma ThreeSmall(a: word, b: word, c: word)
    ensures Words([a, b, c]) == Encode(a) + Encode(b) + Encode(c)
  {
    assert [a, b, c][1..] == [b, c] && [b, c][1..] == [c] && [c][1..] == [];
    assert Words([c]) == Encode(c) + Words([]);
    hide Encode;
  }

  /** A read by a CPU: what arrives is the slice of its byte array, except that
      an empty slice arrives as one byte. */
  lemma ReadOverTheWire(u: Umv, pid: int, base: word, offset: int, count: word, more: seq<byte>, later: seq<byte>)
    requires Valid(u) && |u.mem| < HALF && pid > 0 && base < HALF && 0 <= offset < HALF && count < HALF
    ensures AllInside(u.list, |u.mem|)
    ensures var key := (pid, base as int);
      var (got, rest) := Receive(Serialized(ReadPacket(base, offset, count)) + more);
      && got.Got? && rest == more
      && Unpacked(got.packet) == AskedRead(base, offset, count)
      && var (v, answer) := Answered(u, pid, AskedRead(base, offset, count));
      && var fits := key in View(u) && offset + count <= |View(u)[key]|;
      && v == u && Sized(answer) && Receive(Serialized(answer) + later) == (Got(answer), later)
      && answer == (if !fits then Packet(FAULT, FAULT_TEXT)
                    else Packet(READ, if count == 0 then [0] else View(u)[key][offset..offset + count]))
      && (answer.op == READ <==> fits) && (Problem(answer, FAULT) <==> !fits)
      && !Problem(answer, SEGMENTATION_FAULT)
  {
    OneIsReadBack(ReadPacket(base, offset, count), more);
    ReadRequestRoundTrip(base, offset, count);
    ReadIsSlice(u, base, offset, count, pid);
    AnswerIsSized(u, pid, base, offset, count);
    OneIsReadBack(Answered(u, pid, AskedRead(base, offset, count)).1, later);
    hide Receive, Serialized, View, Valid, ReadBytes, InReach, Unpacked, Words;
  }

  lemma AnswerIsSized(u: Umv, pid: int, base: int, offset: int, count: int)
    requires AllInside(u.list, |u.mem|) && |u.mem| < HALF && 0 <= offset && 0 <= count < HALF
    ensures Sized(Answered(u, pid, AskedRead(base, offset, count)).1)
    ensures Answered(u, pid, AskedRead(base, offset, count)).1.data != []
  {
  }

  // ---- the CPU hands a process back to the kernel ----

  /** The PCB as both ends hold it: ten words, of which the first is the pid. */
  const PCB_WORDS := 10

  datatype Handed = Handed(pcb: seq<word>, extra: seq<byte>)

  /** A PCB, then what the reason for handing back adds to it. */
  function HandedBack(op: word, pcb: seq<word>, extra: seq<byte>): Packet {
    Packet(op, Words(pcb) + extra)
  }

  /** The PCB found at the start of some bytes. */
  function PcbOf(data: seq<byte>): (r: seq<word>)
    requires |data| >= 4 * PCB_WORDS
    ensures |r| == PCB_WORDS
  {
    seq(PCB_WORDS, i requires 0 <= i < PCB_WORDS => WordAt(data, i))
  }

  /** A device request: its name, closed by a zero, then the time. */
  function IoExtra(name: seq<byte>, time: word): seq<byte> {
    name + [0] + Encode(time)
  }

  function IoName(data: seq<byte>): seq<byte>
    requires |data| >= 4
  {
    data[..|data| - 4]
  }

  function IoTime(data: seq<byte>): word
    requires |data| >= 4
  {
    Decode(data[|data| - 4..])
  }

  /** The kernel finds the PCB that the CPU sent, and the device and time. */
  lemma IoRequestRoundTrip(pcb: seq<word>, name: seq<byte>, time: word)
    requires |pcb| == PCB_WORDS
    ensures var data := HandedBack(7, pcb, IoExtra(name, time)).data;
      var extra := data[4 * PCB_WORDS..];
      && PcbOf(data) == pcb && |extra| >= 4
      && IoName(extra) == name + [0] && IoTime(extra) == time
  {
    var extra := IoExtra(name, time);
    var data := HandedBack(7, pcb, extra).data;
    forall i | 0 <= i < PCB_WORDS ensures PcbOf(data)[i] == pcb[i] {
      WordsReadBack(pcb, extra, i);
    }
    WordsReadBack(pcb, extra, 0);
    DecodeEncode(time);
    assert extra[|extra| - 4..] == Encode(time);
    assert extra[..|extra| - 4] == name + [0];
  }

  const CPU_WAITS: word := 11

  /** A process that must wait is handed back in a packet. When the packet itself
      is read as a PCB, the pid found is the operation code: that of the process
      if and only if it is process 11. `beyond` is what the memory holds after
      the packet's two integers. */
  lemma PacketReadAsPcb(pcb: seq<word>, beyond: seq<byte>)
    requires |pcb| == PCB_WORDS && |beyond| >= 4 * PCB_WORDS - HEADER
    ensures var p := HandedBack(CPU_WAITS, pcb, []);
      var found := PcbOf(Encode(p.op) + Encode(|p.data|) + beyond);
      && found[0] == CPU_WAITS && PcbOf(p.data)[0] == pcb[0]
      && (found[0] == PcbOf(p.data)[0] <==> pcb[0] == CPU_WAITS)
  {
    var p := HandedBack(CPU_WAITS, pcb, []);
    DecodeEncode(p.op);
    assert (Encode(p.op) + Encode(|p.data|) + beyond)[0..4] == Encode(p.op);
    WordsReadBack(pcb, [], 0);
  }

  const ASSIGN_SHARED: word := 3

  /** What the CPU sends to assign to a shared variable: the name, closed by a
      zero, to which the value is then added. */
  function SharedAssignment(name: seq<byte>, value: word): Packet {
    Added(Packet(ASSIGN_SHARED, name + [0]), Encode(value))
  }

  function Added(p: Packet, extra: seq<byte>): Packet {
    p.(data := p.data + extra)
  }

  /** The handler finds the value in the last four bytes and the name before. */
  function SharedName(p: Packet): seq<byte>
    requires |p.data| >= 4
  {
    p.data[..|p.data| - 4]
  }

  function SharedValue(p: Packet): word
    requires |p.data| >= 4
  {
    Decode(p.data[|p.data| - 4..])
  }

  lemma SharedAssignmentRoundTrip(name: seq<byte>, value: word, more: seq<byte>)
    requires |name| < HALF - 5
    ensures var p := SharedAssignment(name, value);
      && Sized(p) && Receive(Serialized(p) + more) == (Got(p), more)
      && |p.data| >= 4 && SharedName(p) == name + [0] && SharedValue(p) == value
  {
    var p := SharedAssignment(name, value);
    OneIsReadBack(p, more);
    DecodeEncode(value);
    hide Receive, Serialized;
    assert p.data[|p.data| - 4..] == Encode(value);
  }
}
