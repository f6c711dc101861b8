// Which of the machine's addresses a listener on the unspecified address is
// published under.
module Interfaces {
  import opened Net

  function And(a: Byte, mask: bv8): bv8 {
    (a as bv8) & mask
  }

  // --- Ipv4Addr ---

  function Value4(o: Octets4): int {
    ((o[0] as int * 256 + o[1]) * 256 + o[2]) * 256 + o[3]
  }

  predicate IsLoopback4(o: Octets4) { o[0] == 127 }

  predicate IsPrivate4(o: Octets4) {
    o[0] == 10 || (o[0] == 172 && 16 <= o[1] <= 31) || (o[0] == 192 && o[1] == 168)
  }

  predicate IsLinkLocal4(o: Octets4) { o[0] == 169 && o[1] == 254 }

  predicate IsBroadcast4(o: Octets4) { o == [255, 255, 255, 255] }

  predicate IsDocumentation4(o: Octets4) {
    (o[0] == 192 && o[1] == 0 && o[2] == 2) ||
    (o[0] == 198 && o[1] == 51 && o[2] == 100) ||
    (o[0] == 203 && o[1] == 0 && o[2] == 113)
  }

  predicate ExtIsGlobal4(o: Octets4) {
    if Value4(o) == 0xc000_0009 || Value4(o) == 0xc000_000a then true
    else
      !IsPrivate4(o) && !IsLoopback4(o) && !IsLinkLocal4(o) && !IsBroadcast4(o) &&
      !IsDocumentation4(o) &&
      !(o[0] == 100 && And(o[1], 0xc0) == 0x40) &&
      !(o[0] == 192 && o[1] == 0 && o[2] == 0) &&
      !(And(o[0], 240) == 240 && !IsBroadcast4(o)) &&
      !(o[0] == 198 && And(o[1], 0xfe) == 18) &&
      o[0] != 0
  }

  // --- Ipv6Addr ---

  function Join(high: bv8, low: bv8): bv16 {
    ((high as bv16) << 8) | (low as bv16)
  }

  predicate IsLoopback6(o: Octets16) { o == [0, 0, 0, 0, 0, 0, 0, 0, 0, 0, 0, 0, 0, 0, 0, 1] }

  predicate IsUnspecified6(o: Octets16) { o == [0, 0, 0, 0, 0, 0, 0, 0, 0, 0, 0, 0, 0, 0, 0, 0] }

  predicate IsMulticast6(s: bv16) { s & 0xff00 == 0xff00 }

  predicate IsLinkLocal6(s: bv16) { s & 0xffc0 == 0xfe80 }

  predicate IsUniqueLocal6(s: bv16) { s & 0xfe00 == 0xfc00 }

  predicate IsDocumentation6(s0: bv16, s1: bv16) { s0 == 0x2001 && s1 == 0xdb8 }

  predicate IsGlobalPrefix6(a: Byte, b: Byte, c: Byte, d: Byte) {
    var s0, s1 := Join(a as bv8, b as bv8), Join(c as bv8, d as bv8);
    !IsMulticast6(s0) && !IsLinkLocal6(s0) && !IsUniqueLocal6(s0) && !IsDocumentation6(s0, s1)
  }

  predicate ExtIsGlobal6(o: Octets16) {
    !IsLoopback6(o) && !IsUnspecified6(o) && IsGlobalPrefix6(o[0], o[1], o[2], o[3])
  }

  // --- The same as ranges of addresses ---

  // The addresses from `base` on, `size` of them: a CIDR block.
  datatype Block = Block(base: int, size: int)
  {
    predicate Contains(v: int) { base <= v < base + size }
  }

  const NON_GLOBAL_4: seq<Block> := [
    Block(0x0000_0000, 0x0100_0000),  // 0.0.0.0/8
    Block(0x0a00_0000, 0x0100_0000),  // 10.0.0.0/8
    Block(0x6440_0000, 0x0040_0000),  // 100.64.0.0/10
    Block(0x7f00_0000, 0x0100_0000),  // 127.0.0.0/8
    Block(0xa9fe_0000, 0x0001_0000),  // 169.254.0.0/16
    Block(0xac10_0000, 0x0010_0000),  // 172.16.0.0/12
    Block(0xc000_0000, 0x0000_0100),  // 192.0.0.0/24
    Block(0xc000_0200, 0x0000_0100),  // 192.0.2.0/24
    Block(0xc0a8_0000, 0x0001_0000),  // 192.168.0.0/16
    Block(0xc612_0000, 0x0002_0000),  // 198.18.0.0/15
    Block(0xc633_6400, 0x0000_0100),  // 198.51.100.0/24
    Block(0xcb00_7100, 0x0000_0100),  // 203.0.113.0/24
    Block(0xf000_0000, 0x1000_0000)   // 240.0.0.0/4
  ]

  // 192.0.0.9 and 192.0.0.10 are global although their block is not.
  predicate Exempt4(v: int) { v == 0xc000_0009 || v == 0xc000_000a }

  lemma Mask4(a: Byte)
    ensures And(a, 0xc0) == 0x40 <==> 64 <= a < 128
    ensures And(a, 240) == 240 <==> 240 <= a
    ensures And(a, 0xfe) == 18 <==> 18 <= a <= 19
  {
  }

  ghost predicate Listed(table: seq<Block>, v: int) {
    exists k :: 0 <= k < |table| && table[k].Contains(v)
  }

  lemma Table4(o: Octets4)
    ensures Listed(NON_GLOBAL_4, Value4(o)) <==>
      o[0] == 0 || o[0] == 10 || (o[0] == 100 && 64 <= o[1] < 128) || o[0] == 127 ||
      (o[0] == 169 && o[1] == 254) || (o[0] == 172 && 16 <= o[1] <= 31) ||
      (o[0] == 192 && o[1] == 0 && (o[2] == 0 || o[2] == 2)) || (o[0] == 192 && o[1] == 168) ||
      (o[0] == 198 && (18 <= o[1] <= 19 || (o[1] == 51 && o[2] == 100))) ||
      (o[0] == 203 && o[1] == 0 && o[2] == 113) || 240 <= o[0]
  {
    var t, v := NON_GLOBAL_4, Value4(o);
    assert t[0].Contains(v) <==> o[0] == 0;
    assert t[1].Contains(v) <==> o[0] == 10;
    assert t[2].Contains(v) <==> o[0] == 100 && 64 <= o[1] < 128;
    assert t[3].Contains(v) <==> o[0] == 127;
    assert t[4].Contains(v) <==> o[0] == 169 && o[1] == 254;
    assert t[5].Contains(v) <==> o[0] == 172 && 16 <= o[1] <= 31;
    assert t[6].Contains(v) <==> o[0] == 192 && o[1] == 0 && o[2] == 0;
    assert t[7].Contains(v) <==> o[0] == 192 && o[1] == 0 && o[2] == 2;
    assert t[8].Contains(v) <==> o[0] == 192 && o[1] == 168;
    assert t[9].Contains(v) <==> o[0] == 198 && 18 <= o[1] <= 19;
    assert t[10].Contains(v) <==> o[0] == 198 && o[1] == 51 && o[2] == 100;
    assert t[11].Contains(v) <==> o[0] == 203 && o[1] == 0 && o[2] == 113;
    assert t[12].Contains(v) <==> 240 <= o[0];
  }

  // The bit masks of ext_is_global describe exactly this table.
  lemma GlobalIsTable4(o: Octets4)
    ensures ExtIsGlobal4(o) <==> Exempt4(Value4(o)) || !Listed(NON_GLOBAL_4, Value4(o))
  {
    Mask4(o[0]);
    Mask4(o[1]);
    Table4(o);
  }

  const NON_GLOBAL_6: seq<Block> := [
    Block(0, 1),                                                            // ::/128
    Block(1, 1),                                                            // ::1/128
    Block(0x2001_0db8_0000_0000_0000_0000_0000_0000,
          0x0000_0001_0000_0000_0000_0000_0000_0000),                       // 2001:db8::/32
    Block(0xfc00_0000_0000_0000_0000_0000_0000_0000,
          0x0200_0000_0000_0000_0000_0000_0000_0000),                       // fc00::/7
    Block(0xfe80_0000_0000_0000_0000_0000_0000_0000,
          0x0040_0000_0000_0000_0000_0000_0000_0000),                       // fe80::/10
    Block(0xff00_0000_0000_0000_0000_0000_0000_0000,
          0x0100_0000_0000_0000_0000_0000_0000_0000)                        // ff00::/8
  ]

  const TOP := 0x0000_0001_0000_0000_0000_0000_0000_0000

  // The address as a number: its first 32 bits above its last 96.
  function High6(o: Octets16): int {
    ((o[0] as int * 256 + o[1]) * 256 + o[2]) * 256 + o[3]
  }

  function Low6(o: Octets16): int {
    ((((((((((o[4] as int * 256 + o[5]) * 256 + o[6]) * 256 + o[7]) * 256 + o[8]) * 256 + o[9]) * 256
      + o[10]) * 256 + o[11]) * 256 + o[12]) * 256 + o[13]) * 256 + o[14]) * 256 + o[15]
  }

  function Value6(o: Octets16): int {
    High6(o) * TOP + Low6(o)
  }

  lemma Masks6(h: bv8, l: bv8)
    ensures var s := Join(h, l);
      (s & 0xff00 == 0xff00 <==> h == 0xff) &&
      (s & 0xffc0 == 0xfe80 <==> h == 0xfe && l & 0xc0 == 0x80) &&
      (s & 0xfe00 == 0xfc00 <==> h & 0xfe == 0xfc) &&
      (s == 0x2001 <==> h == 0x20 && l == 0x01) &&
      (s == 0xdb8 <==> h == 0x0d && l == 0xb8)
  {
  }

  lemma Mask6(a: Byte)
    ensures And(a, 0xc0) == 0x80 <==> 128 <= a < 192
  {
  }

  lemma UniqueLocalMask(a: Byte)
    ensures And(a, 0xfe) == 0xfc <==> 252 <= a <= 253
  {
  }

  lemma TopBytes(a: Byte)
    ensures (a as bv8) == 0xff <==> a == 255
    ensures (a as bv8) == 0xfe <==> a == 254
  {
  }

  lemma DocumentationBytes(a: Byte)
    ensures (a as bv8) == 0x20 <==> a == 32
    ensures (a as bv8) == 0x01 <==> a == 1
    ensures (a as bv8) == 0x0d <==> a == 13
    ensures (a as bv8) == 0xb8 <==> a == 184
  {
  }

  lemma Segment6(a: Byte, b: Byte)
    ensures IsMulticast6(Join(a as bv8, b as bv8)) <==> a == 255
    ensures IsLinkLocal6(Join(a as bv8, b as bv8)) <==> a == 254 && 128 <= b < 192
    ensures IsUniqueLocal6(Join(a as bv8, b as bv8)) <==> 252 <= a <= 253
  {
    Masks6(a as bv8, b as bv8);
    UniqueLocalMask(a);
    Mask6(b);
    TopBytes(a);
  }

  lemma Documentation6(a: Byte, b: Byte, c: Byte, d: Byte)
    ensures IsDocumentation6(Join(a as bv8, b as bv8), Join(c as bv8, d as bv8)) <==>
      a == 32 && b == 1 && c == 13 && d == 184
  {
    Masks6(a as bv8, b as bv8);
    Masks6(c as bv8, d as bv8);
    DocumentationBytes(a);
    DocumentationBytes(b);
    DocumentationBytes(c);
    DocumentationBytes(d);
  }

  // A block of whole 2^96 addresses is a range of the first 32 bits.
  lemma HighBlock(high: int, low: int, base: int, size: int)
    requires 0 <= low < TOP
    ensures Block(base * TOP, size * TOP).Contains(high * TOP + low) <==> base <= high < base + size
  {
  }

  lemma LowBlock(o: Octets16)
    ensures Value6(o) == 0 <==> IsUnspecified6(o)
    ensures Value6(o) == 1 <==> IsLoopback6(o)
    ensures 0 <= Low6(o) < TOP
  {
    assert 0 <= Low6(o) < TOP && 0 <= High6(o);
  }

  lemma Table6(o: Octets16)
    ensures Listed(NON_GLOBAL_6, Value6(o)) <==>
      IsUnspecified6(o) || IsLoopback6(o) ||
      (o[0] == 32 && o[1] == 1 && o[2] == 13 && o[3] == 184) ||
      252 <= o[0] <= 253 || (o[0] == 254 && 128 <= o[1] < 192) || o[0] == 255
  {
    LowBlock(o);
    var t, v, high := NON_GLOBAL_6, Value6(o), High6(o);
    assert t[0].Contains(v) <==> IsUnspecified6(o);
    assert t[1].Contains(v) <==> IsLoopback6(o);
    HighBlock(high, Low6(o), 0x2001_0db8, 1);
    HighBlock(high, Low6(o), 0xfc00_0000, 0x0200_0000);
    HighBlock(high, Low6(o), 0xfe80_0000, 0x0040_0000);
    HighBlock(high, Low6(o), 0xff00_0000, 0x0100_0000);
    HighBytes(o);
    assert t[2].Contains(v) <==> high == 0x2001_0db8;
    assert t[3].Contains(v) <==> 0xfc00_0000 <= high < 0xfe00_0000;
    assert t[4].Contains(v) <==> 0xfe80_0000 <= high < 0xfec0_0000;
    assert t[5].Contains(v) <==> 0xff00_0000 <= high < 0x1_0000_0000;
  }

  lemma HighBytes(o: Octets16)
    ensures High6(o) == 0x2001_0db8 <==> o[0] == 32 && o[1] == 1 && o[2] == 13 && o[3] == 184
    ensures 0xfc00_0000 <= High6(o) < 0xfe00_0000 <==> 252 <= o[0] <= 253
    ensures 0xfe80_0000 <= High6(o) < 0xfec0_0000 <==> o[0] == 254 && 128 <= o[1] < 192
    ensures 0xff00_0000 <= High6(o) < 0x1_0000_0000 <==> o[0] == 255
  {
  }

  lemma Prefix6(a: Byte, b: Byte, c: Byte, d: Byte)
    ensures IsGlobalPrefix6(a, b, c, d) <==>
      !((a == 32 && b == 1 && c == 13 && d == 184) ||
        252 <= a <= 253 || (a == 254 && 128 <= b < 192) || a == 255)
  {
    Segment6(a, b);
    Documentation6(a, b, c, d);
  }

  lemma GlobalIsTable6(o: Octets16)
    ensures ExtIsGlobal6(o) <==> !Listed(NON_GLOBAL_6, Value6(o))
  {
    Table6(o);
    Prefix6(o[0], o[1], o[2], o[3]);
  }

  // --- upgrade_addr ---

  predicate SameFamily(ip: IpAddr, v4: bool) { ip.IpV4? == v4 }

  predicate ExtIsGlobal(ip: IpAddr) {
    match ip
    case IpV4(o) => ExtIsGlobal4(o)
    case IpV6(o) => ExtIsGlobal6(o)
  }

  predicate IsLoopback(ip: IpAddr) {
    match ip
    case IpV4(o) => IsLoopback4(o)
    case IpV6(o) => IsLoopback6(o)
  }

  function WithPort(ip: IpAddr, port: Port): SocketAddr {
    match ip
    case IpV4(o) => SockV4(o, port)
    case IpV6(o) => SockV6(o, port, 0, 0)
  }

  predicate IsUnspecified(addr: SocketAddr) {
    match addr
    case SockV4(o, _) => o == [0, 0, 0, 0]
    case SockV6(o, _, _, _) => IsUnspecified6(o)
  }

  // What the selection asks about an address.
  datatype Kind = Kind(global: IpAddr -> bool, loopback: IpAddr -> bool)

  // The global addresses of one family, in order.
  function Globals(ifaces: seq<IpAddr>, v4: bool, kind: Kind): seq<IpAddr> {
    if ifaces == [] then []
    else
      var before, ip := Globals(ifaces[..|ifaces| - 1], v4, kind), ifaces[|ifaces| - 1];
      if SameFamily(ip, v4) && kind.global(ip) then before + [ip] else before
  }

  // The first address of the family that is not global and is, or is not, a
  // loopback address.
  function First(ifaces: seq<IpAddr>, v4: bool, kind: Kind, loopback: bool): Option<IpAddr> {
    if ifaces == [] then None
    else
      var found, ip := First(ifaces[..|ifaces| - 1], v4, kind, loopback), ifaces[|ifaces| - 1];
      if found.None? && Candidate(ip, v4, kind, loopback) then Some(ip) else found
  }

  predicate Candidate(ip: IpAddr, v4: bool, kind: Kind, loopback: bool) {
    SameFamily(ip, v4) && !kind.global(ip) && kind.loopback(ip) == loopback
  }

  lemma {:induction false} FirstIsFirst(ifaces: seq<IpAddr>, v4: bool, kind: Kind, loopback: bool)
    ensures var found := First(ifaces, v4, kind, loopback);
      if found.None? then (forall k :: 0 <= k < |ifaces| ==> !Candidate(ifaces[k], v4, kind, loopback))
      else (exists k :: 0 <= k < |ifaces| && found.value == ifaces[k] &&
                        Candidate(ifaces[k], v4, kind, loopback) &&
                        forall j :: 0 <= j < k ==> !Candidate(ifaces[j], v4, kind, loopback))
  {
    if ifaces != [] {
      var init := ifaces[..|ifaces| - 1];
      var found := First(init, v4, kind, loopback);
      FirstIsFirst(init, v4, kind, loopback);
      if found.Some? {
        var k :| 0 <= k < |init| && found.value == init[k] && Candidate(init[k], v4, kind, loopback) &&
                 forall j :: 0 <= j < k ==> !Candidate(init[j], v4, kind, loopback);
        assert ifaces[k] == init[k] && forall j :: 0 <= j < k ==> ifaces[j] == init[j];
      } else {
        assert forall j :: 0 <= j < |init| ==> ifaces[j] == init[j];
      }
    }
  }

  // `at` lists, in increasing order, exactly the positions of the addresses of
  // one family that are global.
  ghost predicate Positions(ifaces: seq<IpAddr>, v4: bool, kind: Kind, at: seq<nat>) {
    (forall i, j :: 0 <= i < j < |at| ==> at[i] < at[j]) &&
    (forall i :: 0 <= i < |at| ==> at[i] < |ifaces|) &&
    (forall k :: 0 <= k < |ifaces| ==> (k in at <==> ifaces[k].IpV4? == v4 && kind.global(ifaces[k])))
  }

  lemma {:induction false} GlobalsInOrder(ifaces: seq<IpAddr>, v4: bool, kind: Kind) returns (at: seq<nat>)
    ensures Positions(ifaces, v4, kind, at)
    ensures |Globals(ifaces, v4, kind)| == |at|
    ensures forall i :: 0 <= i < |at| ==> Globals(ifaces, v4, kind)[i] == ifaces[at[i]]
  {
    at := [];
    if ifaces != [] {
      var n := |ifaces| - 1;
      at := GlobalsInOrder(ifaces[..n], v4, kind);
      assert forall k :: 0 <= k < n ==> ifaces[..n][k] == ifaces[k];
      if SameFamily(ifaces[n], v4) && kind.global(ifaces[n]) {
        at := at + [n];
      }
    }
  }

  function WithPorts(ips: seq<IpAddr>, port: Port): (r: seq<SocketAddr>)
    ensures |r| == |ips|
    ensures forall k :: 0 <= k < |r| ==> r[k] == WithPort(ips[k], port)
  {
    if ips == [] then [] else WithPorts(ips[..|ips| - 1], port) + [WithPort(ips[|ips| - 1], port)]
  }

  lemma WithPortsAppend(ips: seq<IpAddr>, ip: IpAddr, port: Port)
    ensures WithPorts(ips + [ip], port) == WithPorts(ips, port) + [WithPort(ip, port)]
  {
  }

  // What a listener is published under: all global addresses of its family if
  // there are any, else the first that is not loopback, else the first loopback
  // address, else nothing.
  function Published(ifaces: seq<IpAddr>, v4: bool, kind: Kind, port: Port): seq<SocketAddr> {
    var globals, lan, local :=
      Globals(ifaces, v4, kind), First(ifaces, v4, kind, false), First(ifaces, v4, kind, true);
    if globals != [] then WithPorts(globals, port)
    else if lan.Some? then [WithPort(lan.value, port)]
    else if local.Some? then [WithPort(local.value, port)]
    else []
  }

  // Global addresses before those of the local network, and these before loopback.
  function Rank(ip: IpAddr, kind: Kind): nat {
    if kind.global(ip) then 0 else if !kind.loopback(ip) then 1 else 2
  }

  // A listener is published with its own port, under addresses of its own family
  // that the machine has; under none exactly when the machine has none; under no
  // address that another of the family outranks; and under more than one only if
  // all of them are global.
  lemma PublishedIsOurs(ifaces: seq<IpAddr>, v4: bool, kind: Kind, port: Port)
    ensures var out := Published(ifaces, v4, kind, port);
      (forall i :: 0 <= i < |out| ==>
        out[i].port == port && SameFamily(out[i].Ip(), v4) && out[i].Ip() in ifaces) &&
      (out == [] <==> forall k :: 0 <= k < |ifaces| ==> !SameFamily(ifaces[k], v4)) &&
      (forall i, k :: 0 <= i < |out| && 0 <= k < |ifaces| && SameFamily(ifaces[k], v4) ==>
        Rank(out[i].Ip(), kind) <= Rank(ifaces[k], kind)) &&
      (|out| > 1 ==> forall i :: 0 <= i < |out| ==> Rank(out[i].Ip(), kind) == 0)
  {
    var at := GlobalsInOrder(ifaces, v4, kind);
    FirstIsFirst(ifaces, v4, kind, false);
    FirstIsFirst(ifaces, v4, kind, true);
    var globals, out := Globals(ifaces, v4, kind), Published(ifaces, v4, kind, port);
    if globals != [] {
      forall i | 0 <= i < |out|
        ensures out[i].port == port && SameFamily(out[i].Ip(), v4) && out[i].Ip() in ifaces &&
                kind.global(out[i].Ip())
      {
        assert at[i] in at && out[i] == WithPort(ifaces[at[i]], port);
      }
      assert SameFamily(ifaces[at[0]], v4);
    } else {
      forall k | 0 <= k < |ifaces| && SameFamily(ifaces[k], v4)
        ensures out != [] && Rank(out[0].Ip(), kind) <= Rank(ifaces[k], kind)
      {
        assert Candidate(ifaces[k], v4, kind, kind.loopback(ifaces[k]));
      }
    }
  }

  // --- The choice, stated over the interface list ---

  predicate IsAt(sock: SocketAddr, ip: IpAddr, port: Port) {
    match ip
    case IpV4(o) => sock == SockV4(o, port)
    case IpV6(o) => sock == SockV6(o, port, 0, 0)
  }

  // The first of the addresses of one family that no other outranks.
  predicate Best(ifaces: seq<IpAddr>, v4: bool, kind: Kind, k: nat) {
    k < |ifaces| && ifaces[k].IpV4? == v4 &&
    forall j :: 0 <= j < |ifaces| && ifaces[j].IpV4? == v4 ==>
      Rank(ifaces[k], kind) < Rank(ifaces[j], kind) || (Rank(ifaces[k], kind) == Rank(ifaces[j], kind) && k <= j)
  }

  // If `at` are the positions of the global addresses: all of those, in order; if
  // there are none, the one best address; nothing if the family has no address.
  ghost predicate PublishesAt(
    ifaces: seq<IpAddr>, v4: bool, kind: Kind, port: Port, out: seq<SocketAddr>, at: seq<nat>)
    requires Positions(ifaces, v4, kind, at)
  {
    if at != [] then
      |out| == |at| && forall i :: 0 <= i < |at| ==> IsAt(out[i], ifaces[at[i]], port)
    else if forall k :: 0 <= k < |ifaces| ==> ifaces[k].IpV4? != v4 then
      out == []
    else
      exists k: nat :: Best(ifaces, v4, kind, k) && |out| == 1 && IsAt(out[0], ifaces[k], port)
  }

  ghost predicate Publishes(ifaces: seq<IpAddr>, v4: bool, kind: Kind, port: Port, out: seq<SocketAddr>) {
    exists at :: Positions(ifaces, v4, kind, at) && PublishesAt(ifaces, v4, kind, port, out, at)
  }

  lemma PublishedFirst(ifaces: seq<IpAddr>, v4: bool, kind: Kind, port: Port)
    requires Globals(ifaces, v4, kind) == [] && Positions(ifaces, v4, kind, [])
    ensures PublishesAt(ifaces, v4, kind, port, Published(ifaces, v4, kind, port), [])
  {
    FirstIsFirst(ifaces, v4, kind, false);
    FirstIsFirst(ifaces, v4, kind, true);
    var lan, local := First(ifaces, v4, kind, false), First(ifaces, v4, kind, true);
    if lan.Some? {
      var k :| 0 <= k < |ifaces| && lan.value == ifaces[k] && Candidate(ifaces[k], v4, kind, false) &&
               forall j :: 0 <= j < k ==> !Candidate(ifaces[j], v4, kind, false);
      assert Best(ifaces, v4, kind, k);
    } else if local.Some? {
      var k :| 0 <= k < |ifaces| && local.value == ifaces[k] && Candidate(ifaces[k], v4, kind, true) &&
               forall j :: 0 <= j < k ==> !Candidate(ifaces[j], v4, kind, true);
      assert Best(ifaces, v4, kind, k);
    } else {
      forall k | 0 <= k < |ifaces| ensures ifaces[k].IpV4? != v4 {
        assert !Candidate(ifaces[k], v4, kind, kind.loopback(ifaces[k]));
      }
    }
  }

  lemma PublishedExactly(ifaces: seq<IpAddr>, v4: bool, kind: Kind, port: Port)
    ensures Publishes(ifaces, v4, kind, port, Published(ifaces, v4, kind, port))
  {
    var at := GlobalsInOrder(ifaces, v4, kind);
    if at == [] {
      PublishedFirst(ifaces, v4, kind, port);
    } else {
      assert PublishesAt(ifaces, v4, kind, port, Published(ifaces, v4, kind, port), at);
    }
  }

  // Global and loopback by their address blocks and octets.
  ghost const BY_OCTETS := Kind(GlobalByTable, LoopbackByOctets)

  ghost predicate GlobalByTable(ip: IpAddr) {
    match ip
    case IpV4(o) => Exempt4(Value4(o)) || !Listed(NON_GLOBAL_4, Value4(o))
    case IpV6(o) => !Listed(NON_GLOBAL_6, Value6(o))
  }

  predicate LoopbackByOctets(ip: IpAddr) {
    match ip
    case IpV4(o) => o[0] == 127
    case IpV6(o) => o == [0, 0, 0, 0, 0, 0, 0, 0, 0, 0, 0, 0, 0, 0, 0, 1]
  }

  lemma KindByOctets(ip: IpAddr)
    ensures ExtIsGlobal(ip) == GlobalByTable(ip) && IsLoopback(ip) == LoopbackByOctets(ip)
  {
    match ip {
      case IpV4(o) => GlobalIsTable4(o);
      case IpV6(o) => GlobalIsTable6(o);
    }
  }

  lemma SameChoice(ifaces: seq<IpAddr>, v4: bool, a: Kind, b: Kind, port: Port, out: seq<SocketAddr>)
    requires forall ip :: a.global(ip) == b.global(ip) && a.loopback(ip) == b.loopback(ip)
    requires Publishes(ifaces, v4, a, port, out)
    ensures Publishes(ifaces, v4, b, port, out)
  {
    var at :| Positions(ifaces, v4, a, at) && PublishesAt(ifaces, v4, a, port, out, at);
    assert Positions(ifaces, v4, b, at);
    forall k: nat | Best(ifaces, v4, a, k) ensures Best(ifaces, v4, b, k) {
      SameBest(ifaces, v4, a, b, k);
    }
    assert PublishesAt(ifaces, v4, b, port, out, at);
  }

  lemma SameBest(ifaces: seq<IpAddr>, v4: bool, a: Kind, b: Kind, k: nat)
    requires forall ip :: a.global(ip) == b.global(ip) && a.loopback(ip) == b.loopback(ip)
    requires Best(ifaces, v4, a, k)
    ensures Best(ifaces, v4, b, k)
  {
    forall ip ensures Rank(ip, a) == Rank(ip, b) {
    }
  }

  lemma Scan(list: seq<IpAddr>, k: nat, v4: bool, kind: Kind, loopback: bool)
    requires k < |list|
    ensures Globals(list[..k + 1], v4, kind) ==
      if SameFamily(list[k], v4) && kind.global(list[k]) then Globals(list[..k], v4, kind) + [list[k]]
      else Globals(list[..k], v4, kind)
    ensures First(list[..k + 1], v4, kind, loopback) ==
      if First(list[..k], v4, kind, loopback).None? && Candidate(list[k], v4, kind, loopback)
      then Some(list[k])
      else First(list[..k], v4, kind, loopback)
  {
    assert list[..k + 1][..k] == list[..k];
  }

  method Select(list: seq<IpAddr>, v4: bool, kind: Kind, port: Port) returns (out: seq<SocketAddr>)
    ensures out == Published(list, v4, kind, port) && Publishes(list, v4, kind, port, out)
  {
    PublishedExactly(list, v4, kind, port);
    var loopback: Option<IpAddr> := None;
    var lan: Option<IpAddr> := None;
    out := [];
    for k := 0 to |list|
      invariant out == WithPorts(Globals(list[..k], v4, kind), port)
      invariant lan == First(list[..k], v4, kind, false) && loopback == First(list[..k], v4, kind, true)
    {
      var a := list[k];
      Scan(list, k, v4, kind, false);
      Scan(list, k, v4, kind, true);
      if SameFamily(a, v4) {
        if kind.global(a) {
          WithPortsAppend(Globals(list[..k], v4, kind), a, port);
          out := out + [WithPort(a, port)];
        } else {
          if loopback.None? && kind.loopback(a) {
            loopback := Some(a);
          }
          if lan.None? && !kind.loopback(a) {
            lan := Some(a);
          }
        }
      }
    }
    assert list[..|list|] == list;
    if out == [] && lan.Some? {
      out := out + [WithPort(lan.value, port)];
    }
    if out == [] && loopback.Some? {
      out := out + [WithPort(loopback.value, port)];
    }
  }

  // A failure to list the interfaces is passed on, but only if they are needed.
  method UpgradeAddr(addr: SocketAddr, ifaces: Option<seq<IpAddr>>) returns (r: Option<seq<SocketAddr>>)
    ensures if addr.Ip() == IpV4([0, 0, 0, 0]) || addr.Ip() == IpV6([0, 0, 0, 0, 0, 0, 0, 0, 0, 0, 0, 0, 0, 0, 0, 0])
      then r.Some? == ifaces.Some? &&
           (r.Some? ==> Publishes(ifaces.value, addr.SockV4?, BY_OCTETS, addr.port, r.value))
      else r == Some([addr])
    ensures IsUnspecified(addr) && ifaces.Some? ==>
      r == Some(Published(ifaces.value, addr.SockV4?, Kind(ExtIsGlobal, IsLoopback), addr.port))
  {
    if !IsUnspecified(addr) {
      return Some([addr]);
    }
    if ifaces.None? {
      return None;
    }
    var kind := Kind(ExtIsGlobal, IsLoopback);
    var out := Select(ifaces.value, addr.SockV4?, kind, addr.port);
    forall ip ensures kind.global(ip) == BY_OCTETS.global(ip) && kind.loopback(ip) == BY_OCTETS.loopback(ip) {
      KindByOctets(ip);
    }
    SameChoice(ifaces.value, addr.SockV4?, kind, BY_OCTETS, addr.port, out);
    return Some(out);
  }
}
