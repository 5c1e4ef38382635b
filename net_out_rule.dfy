/**
 * Helpers that build the fields of a net-out (egress firewall) rule:
 * address intervals, port intervals and ICMP selectors (net_out_rule.go).
 * A nil pointer, which the rules read as "all", is None.
 */
module NetOutRuleHelpers {
  import opened Wrappers

  type Uint8 = x: int | 0 <= x < 0x100
  type Uint16 = x: int | 0 <= x < 0x1_0000

  /** net.IP and net.IPMask: byte slices (4 bytes for IPv4, 16 for IPv6 or IPv4-in-IPv6). */
  type IP = seq<bv8>
  type IPMask = seq<bv8>

  datatype IPNet = IPNet(ip: IP, mask: IPMask)

  datatype NetworkInterval = NetworkInterval(start: IP, end: IP)

  datatype PortInterval = PortInterval(start: Uint16, end: Uint16)

  /** A nil code means every code of the type. */
  datatype ICMPControl = ICMPControl(icmpType: Uint8, code: Option<Uint8>)

  /** `AllNetworks`: nil, every destination. */
  function AllNetworks(): (r: Option<NetworkInterval>)
    ensures r.None?
  {
    None
  }

  /** `IPRange`: the interval from start to end, both kept as given. */
  function IPRange(start: IP, end: IP): (r: Option<NetworkInterval>)
    ensures r.Some? && r.value.start == start && r.value.end == end
  {
    Some(NetworkInterval(start, end))
  }

  /** `SingleIP`: the interval holding only ip. */
  function SingleIP(ip: IP): (r: Option<NetworkInterval>)
    ensures r.Some? && r.value.start == r.value.end == ip
  {
    IPRange(ip, ip)
  }

  /** The 12-byte prefix net.ParseIP puts before an IPv4 address (::ffff:0:0/96). */
  const V4InV6Prefix: seq<bv8> := [0, 0, 0, 0, 0, 0, 0, 0, 0, 0, 0xff, 0xff]

  /** net.ParseIP of a dotted quad: the 16-byte IPv4-in-IPv6 form. */
  function ParseIPv4(a: bv8, b: bv8, c: bv8, d: bv8): (ip: IP)
    ensures |ip| == 16 && ip[..12] == V4InV6Prefix && ip[12..] == [a, b, c, d]
  {
    V4InV6Prefix + [a, b, c, d]
  }

  /** `AllIPv4Networks`: from 0.0.0.0 to 255.255.255.255, both in the 16-byte form. */
  function AllIPv4Networks(): (r: Option<NetworkInterval>)
    ensures r.Some? && |r.value.start| == 16 && |r.value.end| == 16
    ensures r.value.start[..12] == r.value.end[..12] == V4InV6Prefix
    ensures r.value.start[12..] == [0, 0, 0, 0] && r.value.end[12..] == [0xff, 0xff, 0xff, 0xff]
  {
    IPRange(ParseIPv4(0, 0, 0, 0), ParseIPv4(255, 255, 255, 255))
  }

  /**
   * One byte of the broadcast address: the host bits (zero in the mask) set,
   * the network bits taken from the address.
   */
  function Broadcast(b: bv8, m: bv8): (r: bv8)
    ensures r & m == b & m
    ensures r & b == b
    ensures r | m == 0xff
  {
    !m | b
  }

  /**
   * The last (broadcast) address of a network: one byte per address byte,
   * Broadcast under the mask, and zero past the end of the mask.
   */
  function LastAddress(n: IPNet): (r: IP)
    requires |n.mask| <= |n.ip|
    ensures |r| == |n.ip|
    ensures forall i :: 0 <= i < |n.mask| ==> r[i] == Broadcast(n.ip[i], n.mask[i])
    ensures forall i :: |n.mask| <= i < |r| ==> r[i] == 0
  {
    seq(|n.ip|, i requires 0 <= i < |n.ip| => if i < |n.mask| then Broadcast(n.ip[i], n.mask[i]) else 0)
  }

  /** a lies in the network: it agrees with the network's address on every mask bit. */
  predicate InNetwork(a: IP, n: IPNet)
    requires |n.mask| <= |n.ip|
  {
    |a| == |n.ip| && forall i :: 0 <= i < |n.mask| ==> a[i] & n.mask[i] == n.ip[i] & n.mask[i]
  }

  /**
   * The last address lies in the network, and it bounds every address of the
   * network from above, byte by byte (hence also in address order).
   */
  lemma LastAddressIsGreatest(n: IPNet, a: IP)
    requires |n.mask| == |n.ip|
    ensures InNetwork(LastAddress(n), n)
    ensures InNetwork(a, n) ==> forall i :: 0 <= i < |a| ==> a[i] <= LastAddress(n)[i]
    ensures InNetwork(a, n) ==> forall i :: 0 <= i < |a| ==> a[i] & LastAddress(n)[i] == a[i]
  {
    var last := LastAddress(n);
    if InNetwork(a, n) {
      forall i | 0 <= i < |a|
        ensures a[i] & last[i] == a[i] && a[i] <= last[i]
      {
        BroadcastCoversMember(a[i], n.ip[i], n.mask[i]);
      }
    }
  }

  /** A byte that agrees with b under m is a bit subset of, and at most, the broadcast byte. */
  lemma BroadcastCoversMember(x: bv8, b: bv8, m: bv8)
    requires x & m == b & m
    ensures x & Broadcast(b, m) == x && x <= Broadcast(b, m)
  {
  }

  /** `lastIP`: fills a fresh zeroed buffer as long as the address, byte by byte under the mask. */
  method LastIP(n: IPNet) returns (lastip: IP)
    requires |n.mask| <= |n.ip|
    ensures lastip == LastAddress(n)
  {
    var buf := new bv8[|n.ip|](_ => 0);
    for i := 0 to |n.mask|
      invariant forall j :: 0 <= j < i ==> buf[j] == Broadcast(n.ip[j], n.mask[j])
      invariant forall j :: i <= j < buf.Length ==> buf[j] == 0
    {
      buf[i] := !n.mask[i] | n.ip[i];
    }
    lastip := buf[..];
  }

  /** `IPNetNetwork`: the interval from the network's address to its broadcast address. */
  method IPNetNetwork(ipNet: IPNet) returns (r: Option<NetworkInterval>)
    requires |ipNet.mask| <= |ipNet.ip|
    ensures r.Some? && r.value.start == ipNet.ip && r.value.end == LastAddress(ipNet)
  {
    var last := LastIP(ipNet);
    r := IPRange(ipNet.ip, last);
  }

  /** `AllPorts`: nil, every port. */
  function AllPorts(): (r: Option<PortInterval>)
    ensures r.None?
  {
    None
  }

  /** `PortRange`: the ports from start to end, both kept as given. */
  function PortRange(start: Uint16, end: Uint16): (r: Option<PortInterval>)
    ensures r.Some? && r.value.start == start && r.value.end == end
  {
    Some(PortInterval(start, end))
  }

  /** `SinglePort`: the interval holding only port. */
  function SinglePort(port: Uint16): (r: Option<PortInterval>)
    ensures r.Some? && r.value.start == r.value.end == port
  {
    PortRange(port, port)
  }

  /** `AllICMPs`: nil, every ICMP type. */
  function AllICMPs(): (r: Option<ICMPControl>)
    ensures r.None?
  {
    None
  }

  /** `AllICMPsOfType`: the given type with a nil code, every code of that type. */
  function AllICMPsOfType(iType: Uint8): (r: Option<ICMPControl>)
    ensures r.Some? && r.value.icmpType == iType && r.value.code.None?
  {
    Some(ICMPControl(iType, None))
  }

  /** `ICMPTypeAndCode`: exactly the given type and code. */
  function ICMPTypeAndCode(iType: Uint8, iCode: Uint8): (r: Option<ICMPControl>)
    ensures r.Some? && r.value.icmpType == iType && r.value.code == Some(iCode)
  {
    Some(ICMPControl(iType, Some(iCode)))
  }
}
