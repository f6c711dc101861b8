// Bytes, addresses and identifiers shared by the relay server and its clients.
module Net {

  datatype Option<+T> = None | Some(value: T)

  type Byte = b: int | 0 <= b < 256

  type Port = p: int | 0 <= p < 0x1_0000

  type Octets4 = o: seq<Byte> | |o| == 4 witness [0, 0, 0, 0]

  type Octets16 = o: seq<Byte> | |o| == 16
    witness [0, 0, 0, 0, 0, 0, 0, 0, 0, 0, 0, 0, 0, 0, 0, 0]

  type Bytes32 = o: seq<Byte> | |o| == 32
    witness [0, 0, 0, 0, 0, 0, 0, 0, 0, 0, 0, 0, 0, 0, 0, 0,
             0, 0, 0, 0, 0, 0, 0, 0, 0, 0, 0, 0, 0, 0, 0, 0]

  // A TLS certificate digest or a splice token: both are 32 opaque bytes.
  datatype Tx3Id = Tx3Id(bytes: Bytes32)

  datatype IpAddr = IpV4(v4: Octets4) | IpV6(v6: Octets16)

  datatype SocketAddr =
    | SockV4(ip4: Octets4, port: Port)
    | SockV6(ip6: Octets16, port: Port, flowInfo: nat, scopeId: nat)
  {
    function Ip(): IpAddr {
      match this
      case SockV4(ip, _) => IpV4(ip)
      case SockV6(ip, _, _, _) => IpV6(ip)
    }
  }
}
