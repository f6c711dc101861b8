// The 50-byte control frame: 16 bytes of address, 2 bytes of port in network
// order, 32 bytes of splice token.
module Frame {
  import opened Net

  // ControlCmd::NotifyPending: a peer at `addr` waits under `token`.
  datatype Notice = Notice(token: Tx3Id, addr: SocketAddr)

  const FRAME_SIZE := 50

  const MAPPED_PREFIX: seq<Byte> := [0, 0, 0, 0, 0, 0, 0, 0, 0, 0, 0xff, 0xff]

  // Ipv4Addr::to_ipv6_mapped, section 2.5.5.2 of RFC 4291.
  function IpBytes(addr: SocketAddr): (r: Octets16) {
    match addr
    case SockV4(ip, _) => MAPPED_PREFIX + ip
    case SockV6(ip, _, _, _) => ip
  }

  function EncodeFrame(n: Notice): (r: seq<Byte>)
    ensures |r| == FRAME_SIZE
  {
    IpBytes(n.addr) + [n.addr.port / 256, n.addr.port % 256] + n.token.bytes
  }

  function DecodeAddr(ip: Octets16, port: Port): SocketAddr {
    if ip[..12] == MAPPED_PREFIX then SockV4(ip[12..], port) else SockV6(ip, port, 0, 0)
  }

  function DecodeFrame(buf: seq<Byte>): Notice
    requires |buf| == FRAME_SIZE
  {
    Notice(Tx3Id(buf[18..]), DecodeAddr(buf[..16], buf[16] as int * 256 + buf[17]))
  }

  // What survives the wire: IPv4-mapped IPv6 becomes IPv4, and the flow
  // information and scope of an IPv6 address are not sent.
  function Canonical(addr: SocketAddr): SocketAddr {
    match addr
    case SockV4(_, _) => addr
    case SockV6(ip, port, _, _) =>
      if ip[..12] == MAPPED_PREFIX then SockV4(ip[12..], port) else SockV6(ip, port, 0, 0)
  }

  function CanonicalNotice(n: Notice): Notice {
    Notice(n.token, Canonical(n.addr))
  }

  // The layout of the protocol: address at 0, port at 16 with its high byte
  // first, token at 18; an IPv4 address is the last four of its sixteen bytes.
  lemma FrameLayout(n: Notice)
    ensures var f := EncodeFrame(n);
      f[16] as int * 256 + f[17] == n.addr.port && f[18..] == n.token.bytes &&
      match n.addr
      case SockV4(ip, _) =>
        f[12..16] == ip && f[10] == 0xff && f[11] == 0xff && forall k :: 0 <= k < 10 ==> f[k] == 0
      case SockV6(ip, _, _, _) => f[..16] == ip
  {
    var f := EncodeFrame(n);
    assert f[18..] == n.token.bytes && f[..16] == IpBytes(n.addr);
    if n.addr.SockV4? {
      assert f[12..16] == n.addr.ip4;
    }
  }

  lemma DecodeEncode(n: Notice)
    ensures DecodeFrame(EncodeFrame(n)) == CanonicalNotice(n)
  {
    var buf := EncodeFrame(n);
    assert buf[18..] == n.token.bytes;
    assert buf[..16] == IpBytes(n.addr);
    if n.addr.SockV4? {
      assert IpBytes(n.addr)[..12] == MAPPED_PREFIX;
      assert IpBytes(n.addr)[12..] == n.addr.ip4;
    }
  }

  // By octets: what a client makes of the address of a peer.
  lemma DecodedAddress(n: Notice)
    ensures var d := DecodeFrame(EncodeFrame(n));
      d.token == n.token && d.addr.port == n.addr.port &&
      match n.addr
      case SockV4(ip, port) => d.addr == SockV4(ip, port)
      case SockV6(ip, port, _, _) =>
        if ip[..12] == [0, 0, 0, 0, 0, 0, 0, 0, 0, 0, 0xff, 0xff]
        then d.addr == SockV4([ip[12], ip[13], ip[14], ip[15]], port)
        else d.addr == SockV6(ip, port, 0, 0)
  {
    DecodeEncode(n);
    if n.addr.SockV6? {
      assert n.addr.ip6[12..] == [n.addr.ip6[12], n.addr.ip6[13], n.addr.ip6[14], n.addr.ip6[15]];
    }
  }

  lemma EncodeDecode(buf: seq<Byte>)
    requires |buf| == FRAME_SIZE
    ensures EncodeFrame(DecodeFrame(buf)) == buf
  {
    var n := DecodeFrame(buf);
    assert IpBytes(n.addr) == buf[..16] by {
      if buf[..12] == MAPPED_PREFIX {
        assert buf[..16][..12] == buf[..12];
        assert buf[..16] == buf[..16][..12] + buf[..16][12..];
      }
    }
    assert buf == buf[..16] + [buf[16], buf[17]] + buf[18..];
  }

  // Canonical addresses are the ones the wire keeps, and only they are.
  lemma CanonicalIsWireFixpoint(n: Notice)
    ensures DecodeFrame(EncodeFrame(n)) == n <==> Canonical(n.addr) == n.addr
    ensures Canonical(Canonical(n.addr)) == Canonical(n.addr)
    ensures EncodeFrame(CanonicalNotice(n)) == EncodeFrame(n)
  {
    DecodeEncode(n);
    EncodeDecode(EncodeFrame(n));
  }

  // The write side of the control task fills one output buffer in place.
  method WriteFrame(n: Notice) returns (out: array<Byte>)
    ensures fresh(out) && out[..] == EncodeFrame(n)
  {
    out := new Byte[FRAME_SIZE](_ => 0);
    var ip := IpBytes(n.addr);
    forall k | 0 <= k < 16 { out[k] := ip[k]; }
    out[16], out[17] := n.addr.port / 256, n.addr.port % 256;
    forall k | 18 <= k < FRAME_SIZE { out[k] := n.token.bytes[k - 18]; }
  }
}
