/** A packet as the programs hold it: two integers and a buffer that is replaced
    when data is added. */
module PacketMachine {
  import opened Bytes
  import opened Packets

  lemma Layout(z: seq<byte>, a: seq<byte>, b: seq<byte>, c: seq<byte>)
    requires |a| == 4 && |b| == 4 && |z| == HEADER + |c|
    ensures Overwrite(Overwrite(Overwrite(z, 0, a), 4, b), HEADER, c) == a + b + c
  {
    assert Overwrite(Overwrite(z, 0, a), 4, b)[..HEADER] == a + b;
  }

  class Message {
    var op: word
    var size: nat
    var data: array<byte>

    ghost predicate Valid()
      reads this, data
    {
      size == data.Length < HALF
    }

    ghost function Value(): Packet
      reads this, data
    {
      Packet(op, data[..])
    }

    constructor (bytes: seq<byte>, op: word)
      requires |bytes| < HALF
      ensures Valid() && fresh(data) && Value() == Packet(op, bytes)
    {
      this.op, size := op, |bytes|;
      data := new byte[|bytes|](i requires 0 <= i < |bytes| => bytes[i]);
    }

    /** The old data and the extra are copied into a new buffer. */
    method Append(extra: seq<byte>)
      requires Valid() && size + |extra| < HALF
      modifies this`size, this`data
      ensures Valid() && fresh(data)
      ensures Value() == old(Value()).(data := old(data[..]) + extra)
    {
      ghost var was := data[..];
      var clump := new byte[size + |extra|](_ => 0);
      Copy(clump, 0, data[..]);
      Copy(clump, size, extra);
      assert clump[..] == was + extra;
      size := size + |extra|;
      data := clump;
    }

    static method Copy(to: array<byte>, at: nat, bytes: seq<byte>)
      requires at + |bytes| <= to.Length
      modifies to
      ensures to[..] == Overwrite(old(to[..]), at, bytes)
    {
      ghost var was := to[..];
      var i := 0;
      while i < |bytes|
        invariant 0 <= i <= |bytes|
        invariant forall j :: at <= j < at + i ==> to[j] == bytes[j - at]
        invariant forall j :: 0 <= j < to.Length && !(at <= j < at + i) ==> to[j] == was[j]
      {
        to[at + i] := bytes[i];
        i := i + 1;
      }
      assert to[..] == Overwrite(was, at, bytes);
    }

    method Serialize() returns (stream: array<byte>)
      requires Valid()
      ensures fresh(stream) && stream[..] == Serialized(Value())
    {
      hide Encode, Overwrite;
      stream := new byte[HEADER + size](_ => 0);
      Layout(stream[..], Encode(op), Encode(size), data[..]);
      Copy(stream, 0, Encode(op));
      Copy(stream, 4, Encode(size));
      Copy(stream, HEADER, data[..]);
    }
  }

  /** `recv` that waits for all: as many bytes as asked, or what is left. */
  method Recv(stream: seq<byte>, n: nat) returns (bytes: seq<byte>, rest: seq<byte>)
    ensures stream == bytes + rest
    ensures |bytes| == if n <= |stream| then n else |stream|
  {
    if n <= |stream| {
      return stream[..n], stream[n..];
    }
    return stream, [];
  }

  /** The reader: a header, then as many bytes as it announces. */
  method ReceivePacket(stream: seq<byte>) returns (r: Received, rest: seq<byte>)
    ensures (r, rest) == Receive(stream)
  {
    hide Decode;
    var header, tail := Recv(stream, HEADER);
    if |header| == 0 {
      return Closed, [];
    }
    if |header| < HEADER {
      return Broken, [];
    }
    assert stream[..4] == header[..4] && stream[4..8] == header[4..8] && stream[HEADER..] == tail;
    var n := Decode(header[4..8]);
    if n >= HALF {
      return if tail == [] then Closed else Broken, if tail == [] then tail else [];
    }
    var data, left := Recv(tail, n);
    if |data| == 0 {
      return Closed, tail;
    }
    if |data| < n {
      return Broken, [];
    }
    assert tail[..n] == data && tail[n..] == left;
    return Got(Packet(Decode(header[..4]), data)), left;
  }
}
