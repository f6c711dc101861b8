// The control stream as bytes: frames back to back, cut anywhere.
module ControlStream {
  import opened Net
  import opened Frame

  function EncodeAll(ns: seq<Notice>): (r: seq<Byte>)
    ensures |r| == FRAME_SIZE * |ns|
  {
    if ns == [] then [] else EncodeAll(ns[..|ns| - 1]) + EncodeFrame(ns[|ns| - 1])
  }

  // What a reader that takes 50 bytes at a time makes of a byte sequence; a
  // final incomplete frame is not a message.
  function DecodeAll(bytes: seq<Byte>): (r: seq<Notice>)
    ensures |r| == |bytes| / FRAME_SIZE
  {
    if |bytes| < FRAME_SIZE then []
    else [DecodeFrame(bytes[..FRAME_SIZE])] + DecodeAll(bytes[FRAME_SIZE..])
  }

  function CanonicalAll(ns: seq<Notice>): (r: seq<Notice>)
    ensures |r| == |ns| && forall k :: 0 <= k < |ns| ==> r[k] == CanonicalNotice(ns[k])
  {
    seq(|ns|, k requires 0 <= k < |ns| => CanonicalNotice(ns[k]))
  }

  lemma CanonicalAppend(ns: seq<Notice>, n: nat)
    requires |ns| == n + 1
    ensures CanonicalAll(ns) == CanonicalAll(ns[..n]) + [CanonicalNotice(ns[n])]
  {
  }

  lemma {:induction false} DecodeAppend(bytes: seq<Byte>, frame: seq<Byte>, rest: seq<Byte>)
    requires |bytes| % FRAME_SIZE == 0 && |frame| == FRAME_SIZE && |rest| < FRAME_SIZE
    ensures DecodeAll(bytes + frame + rest) == DecodeAll(bytes) + [DecodeFrame(frame)]
    decreases |bytes|
  {
    var all := bytes + frame + rest;
    if bytes == [] {
      assert all[..FRAME_SIZE] == frame;
      assert DecodeAll(all[FRAME_SIZE..]) == [];
    } else {
      assert all[..FRAME_SIZE] == bytes[..FRAME_SIZE];
      assert all[FRAME_SIZE..] == bytes[FRAME_SIZE..] + frame + rest;
      DecodeAppend(bytes[FRAME_SIZE..], frame, rest);
    }
  }

  // Every stream of notices, cut inside a later frame or between two, decodes to
  // exactly those notices, in order, with their addresses made canonical.
  lemma {:induction false} StreamRoundTrip(ns: seq<Notice>, rest: seq<Byte>)
    requires |rest| < FRAME_SIZE
    ensures DecodeAll(EncodeAll(ns) + rest) == CanonicalAll(ns)
  {
    if ns == [] {
      assert EncodeAll(ns) + rest == rest;
    } else {
      var n := |ns| - 1;
      var bytes := EncodeAll(ns[..n]);
      StreamRoundTrip(ns[..n], []);
      assert bytes + [] == bytes;
      DecodeAppend(bytes, EncodeFrame(ns[n]), rest);
      DecodeEncode(ns[n]);
      CanonicalAppend(ns, n);
    }
  }

  lemma DecodeFirst(bytes: seq<Byte>, n: nat)
    requires FRAME_SIZE <= n <= |bytes|
    ensures DecodeAll(bytes[..n])
         == [DecodeFrame(bytes[..FRAME_SIZE])] + DecodeAll(bytes[FRAME_SIZE..][..n - FRAME_SIZE])
  {
    assert bytes[..n][..FRAME_SIZE] == bytes[..FRAME_SIZE];
    assert bytes[..n][FRAME_SIZE..] == bytes[FRAME_SIZE..][..n - FRAME_SIZE];
  }

  // A truncated stream yields a prefix of the messages, never a mis-framed one.
  lemma {:induction false} TruncatedStream(bytes: seq<Byte>, n: nat)
    requires n <= |bytes|
    ensures DecodeAll(bytes[..n]) == DecodeAll(bytes)[..n / FRAME_SIZE]
    decreases n
  {
    if n >= FRAME_SIZE {
      var rest := bytes[FRAME_SIZE..];
      DecodeFirst(bytes, n);
      DecodeFirst(bytes, |bytes|);
      assert bytes[..|bytes|] == bytes && rest[..|rest|] == rest;
      TruncatedStream(rest, n - FRAME_SIZE);
    }
  }

  // The write side of a control task: one frame for each command received.
  method NotifyLoop(cmds: seq<Notice>) returns (wire: seq<Byte>)
    ensures wire == EncodeAll(cmds)
  {
    wire := [];
    for k := 0 to |cmds|
      invariant wire == EncodeAll(cmds[..k])
    {
      var out := WriteFrame(cmds[k]);
      wire := wire + out[..];
      assert cmds[..k + 1][..k] == cmds[..k];
    }
    assert cmds[..|cmds|] == cmds;
  }

  // The receiving end of a connection: the bytes that will arrive before the
  // other side closes, in pieces of any size.
  class ByteStream {
    const data: seq<Byte>
    var pos: nat

    ghost predicate Valid()
      reads this
    {
      pos <= |data|
    }

    ghost function Unread(): seq<Byte>
      reads this
      requires Valid()
    {
      data[pos..]
    }

    constructor (data: seq<Byte>)
      ensures Valid() && this.data == data && Unread() == data
    {
      this.data := data;
      pos := 0;
    }

    // One read: some bytes, and none only at the end of the stream.
    method Read(buf: array<Byte>, filled: nat) returns (n: nat)
      requires Valid() && filled < buf.Length
      modifies this, buf
      ensures Valid() && filled + n <= buf.Length && n <= |old(Unread())|
      ensures n == 0 <==> old(Unread()) == []
      ensures Unread() == old(Unread())[n..]
      ensures buf[..filled + n] == old(buf[..filled]) + old(Unread())[..n]
    {
      if pos == |data| {
        n := 0;
      } else {
        n :| 0 < n <= buf.Length - filled && n <= |data| - pos;
        forall k | 0 <= k < n { buf[filled + k] := data[pos + k]; }
        pos := pos + n;
      }
    }

    // read_exact: fill the buffer, or fail at the end of the stream.
    method ReadExact(buf: array<Byte>) returns (ok: bool)
      requires Valid()
      modifies this, buf
      ensures Valid() && ok == (|old(Unread())| >= buf.Length)
      ensures ok ==> buf[..] == old(Unread())[..buf.Length] && Unread() == old(Unread())[buf.Length..]
    {
      var filled := 0;
      ghost var start := Unread();
      while filled < buf.Length
        invariant Valid() && filled <= buf.Length && filled <= |start|
        invariant Unread() == start[filled..] && buf[..filled] == start[..filled]
      {
        var n := Read(buf, filled);
        if n == 0 {
          return false;
        }
        assert start[filled..][n..] == start[filled + n..];
        assert start[..filled] + start[filled..][..n] == start[..filled + n];
        filled := filled + n;
      }
      ok := true;
      assert buf[..] == buf[..filled];
    }
  }

  // One frame, taken apart where it lies in the buffer.
  method TakeApart(buf: array<Byte>) returns (n: Notice)
    requires buf.Length == FRAME_SIZE
    ensures n == DecodeFrame(buf[..])
  {
    var port: Port := buf[16] as int * 256 + buf[17];
    var ip := buf[..16];
    var addr := if ip[..12] == MAPPED_PREFIX then SockV4(ip[12..], port) else SockV6(ip, port, 0, 0);
    n := Notice(Tx3Id(buf[18..]), addr);
    assert buf[..][..16] == ip && buf[..][18..] == buf[18..];
  }

  // One frame into the buffer, or the end of the stream.
  method ReadFrame(stream: ByteStream, buf: array<Byte>) returns (more: bool)
    requires stream.Valid() && buf.Length == FRAME_SIZE
    modifies stream, buf
    ensures stream.Valid()
    ensures DecodeAll(old(stream.Unread())) ==
      if more then [DecodeFrame(buf[..])] + DecodeAll(stream.Unread()) else []
  {
    more := stream.ReadExact(buf);
  }

  // The client's control task: read one frame at a time into the same buffer
  // and hand each on, until the stream ends or nobody receives any more, which
  // is after `capacity` notices.
  method AcceptLoop(stream: ByteStream, capacity: nat) returns (out: seq<Notice>)
    requires stream.Valid()
    modifies stream
    ensures var all := DecodeAll(old(stream.Unread()));
      out == if capacity <= |all| then all[..capacity] else all
  {
    var buf := new Byte[FRAME_SIZE](_ => 0);
    out := [];
    ghost var all, ahead := DecodeAll(stream.Unread()), DecodeAll(stream.Unread());
    var more := ReadFrame(stream, buf);
    while more && |out| < capacity
      invariant stream.Valid() && |out| <= capacity && all == out + ahead
      invariant ahead == if more then [DecodeFrame(buf[..])] + DecodeAll(stream.Unread()) else []
      decreases |ahead|
    {
      var n := TakeApart(buf);
      ghost var later := DecodeAll(stream.Unread());
      TakeOne(out, n, later);
      out, ahead := out + [n], later;
      more := ReadFrame(stream, buf);
    }
  }

  lemma TakeOne(out: seq<Notice>, n: Notice, later: seq<Notice>)
    ensures out + ([n] + later) == (out + [n]) + later
  {
  }
}
