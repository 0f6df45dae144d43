/** Addresses, bytes and packets shared by the firewall, parser and text models. */
module Net {

  type Byte = b: int | 0 <= b < 256
  type Port = p: int | 0 <= p < 65536
  type Bytes = seq<Byte>

  /** A link-layer address (`ether_addr`). */
  type Mac = m: Bytes | |m| == 6 witness [0, 0, 0, 0, 0, 0]

  datatype Option<+T> = None | Some(value: T)

  datatype Family = IPv4 | IPv6

  /** An address without its prefix length, which is what `IP_address::pure` prints. */
  datatype Ip = Ip(family: Family, bytes: Bytes)

  /** `IP_address`: family, address bytes and prefix length. */
  datatype IpAddress = IpAddress(pure: Ip, subnet: nat)

  function AddressLength(f: Family): nat {
    if f.IPv4? then 4 else 16
  }

  predicate WellFormed(ip: Ip) {
    |ip.bytes| == AddressLength(ip.family)
  }
}
