/**
 * The flat NetOutRule record and the conversion of each rule kind into it
 * (net_out_rules.go), the textual form of a port range, and the ICMP
 * "every type / every code" sentinels.
 */
module NetOutRules {
  import opened Wrappers
  import opened Decimal
  import opened GoStrings
  import H = NetOutRuleHelpers

  type Uint16 = x: int | 0 <= x < 0x1_0000
  type Int32 = x: int | -0x8000_0000 <= x < 0x8000_0000

  /** Sentinels meaning "every ICMP type" and "every ICMP code". */
  const IcmpAllTypes: Int32 := -1
  const IcmpAllCodes: Int32 := -1

  /** A port range; the zero range {0, 0} means "no range given". */
  datatype PortRange = PortRange(start: Uint16, end: Uint16)
  {
    /** `PortRange.String`: empty for the zero range, otherwise "start:end" in decimal. */
    function String(): (s: string)
      ensures s == "" <==> start == 0 && end == 0
      ensures s != "" ==> exists i :: 0 <= i < |s| && s[i] == ':'
    {
      if start == 0 && end == 0 then ""
      else
        var s := Render(start) + ":" + Render(end);
        assert s[|Render(start)|] == ':';
        s
    }
  }

  /** Reads a port range back from its textual form: "" is the zero range. */
  function ParsePortRange(s: string): Option<PortRange>
  {
    if s == "" then Some(PortRange(0, 0))
    else
      var segs := SplitN2(s, ':');
      if |segs| == 2 && segs[0] != "" && segs[1] != "" && AllDigits(segs[0]) && AllDigits(segs[1])
         && Value(segs[0]) < 0x1_0000 && Value(segs[1]) < 0x1_0000
      then Some(PortRange(Value(segs[0]), Value(segs[1])))
      else None
  }

  /** The textual form of a port range loses nothing: parsing it gives the range back. */
  lemma PortRangeStringRoundTrip(pr: PortRange)
    ensures ParsePortRange(pr.String()) == Some(pr)
  {
    if !(pr.start == 0 && pr.end == 0) {
      var a, b := Render(pr.start), Render(pr.end);
      assert ':' !in a;
      SplitJoin(a, ':', b);
      assert pr.String() == a + [':'] + b;
      ValueOfRender(pr.start);
      ValueOfRender(pr.end);
    }
  }

  /** Distinct port ranges have distinct textual forms. */
  lemma PortRangeStringInjective(p: PortRange, q: PortRange)
    requires p.String() == q.String()
    ensures p == q
  {
    PortRangeStringRoundTrip(p);
    PortRangeStringRoundTrip(q);
  }

  /** `ICMPType` and `ICMPCode`: a pointer to the given value. */
  function ICMPType(t: Int32): (p: Option<Int32>)
    ensures p.Some? && p.value == t
  {
    Some(t)
  }

  function ICMPCode(c: Int32): (p: Option<Int32>)
    ensures p.Some? && p.value == c
  {
    Some(c)
  }

  /** `icmpType`: the stored type, or the "every type" sentinel for nil. */
  function IcmpType(t: Option<Int32>): (r: Int32)
    ensures t.Some? ==> r == t.value
    ensures r == IcmpAllTypes <==> t.None? || t.value == IcmpAllTypes
  {
    if t.None? then IcmpAllTypes else t.value
  }

  /** `icmpCode`: the stored code, or the "every code" sentinel for nil. */
  function IcmpCode(c: Option<Int32>): (r: Int32)
    ensures c.Some? ==> r == c.value
    ensures r == IcmpAllCodes <==> c.None? || c.value == IcmpAllCodes
  {
    if c.None? then IcmpAllCodes else c.value
  }

  /**
   * Reading a selector back: a stored value comes back unchanged and nil reads
   * as -1, so an explicit -1 and nil give the same result; every other value
   * is told apart from nil.
   */
  lemma IcmpSentinels(t: Int32, c: Int32)
    ensures IcmpType(ICMPType(t)) == t && IcmpCode(ICMPCode(c)) == c
    ensures IcmpType(None) == -1 && IcmpCode(None) == -1
    ensures IcmpType(ICMPType(t)) == IcmpType(None) <==> t == -1
    ensures IcmpCode(ICMPCode(c)) == IcmpCode(None) <==> c == -1
  {
  }

  datatype Protocol = ProtocolAll | ProtocolTCP | ProtocolUDP | ProtocolICMP

  type Network = Option<H.NetworkInterval>

  /**
   * A rule in canonical form: the port fields are set only for TCP and UDP, the
   * ICMP fields only for ICMP (otherwise both are the "every" sentinels), and
   * only "all" and TCP rules log.
   */
  predicate Canonical(r: NetOutRule)
  {
    && (r.protocol !in {ProtocolTCP, ProtocolUDP} ==> r.port == 0 && r.portRange == PortRange(0, 0))
    && (r.protocol != ProtocolICMP ==> r.icmpType == IcmpAllTypes && r.icmpCode == IcmpAllCodes)
    && (r.protocol in {ProtocolUDP, ProtocolICMP} ==> !r.log)
  }

  datatype NetOutRule = NetOutRule(
    network: Network, port: Uint16, portRange: PortRange, protocol: Protocol,
    icmpType: Int32, icmpCode: Int32, log: bool)
  {
    /** `NetOutRule.Rule`: a flat rule is its own rule. */
    function Rule(): (r: NetOutRule)
      ensures r == this
    {
      this
    }
  }

  datatype AllRule = AllRule(network: Network, log: bool)
  {
    /** `AllRule.Rule`: every protocol, no port, every ICMP type and code; network and logging kept. */
    function Rule(): (r: NetOutRule)
      ensures r.protocol == ProtocolAll && Canonical(r)
      ensures r.network == network && r.log == log
    {
      NetOutRule(network, 0, PortRange(0, 0), ProtocolAll, IcmpAllTypes, IcmpAllCodes, log)
    }
  }

  datatype UDPRule = UDPRule(network: Network, port: Uint16, portRange: PortRange)
  {
    /** `UDPRule.Rule`: UDP with network and ports kept, every ICMP type and code, never logged. */
    function Rule(): (r: NetOutRule)
      ensures r.protocol == ProtocolUDP && Canonical(r)
      ensures r.network == network && r.port == port && r.portRange == portRange
    {
      NetOutRule(network, port, portRange, ProtocolUDP, IcmpAllTypes, IcmpAllCodes, false)
    }
  }

  datatype ICMPRule = ICMPRule(network: Network, icmpType: Option<Int32>, code: Option<Int32>)
  {
    /** `ICMPRule.Rule`: ICMP with no port, the type and code read through their sentinels, never logged. */
    function Rule(): (r: NetOutRule)
      ensures r.protocol == ProtocolICMP && Canonical(r)
      ensures r.network == network
      ensures r.icmpType == (if icmpType.Some? then icmpType.value else -1)
      ensures r.icmpCode == (if code.Some? then code.value else -1)
    {
      NetOutRule(network, 0, PortRange(0, 0), ProtocolICMP, IcmpType(icmpType), IcmpCode(code), false)
    }
  }

  datatype TCPRule = TCPRule(network: Network, port: Uint16, portRange: PortRange, log: bool)
  {
    /** `TCPRule.Rule`: TCP with network, ports and logging kept, every ICMP type and code. */
    function Rule(): (r: NetOutRule)
      ensures r.protocol == ProtocolTCP && Canonical(r)
      ensures r.network == network && r.port == port && r.portRange == portRange && r.log == log
    {
      NetOutRule(network, port, portRange, ProtocolTCP, IcmpAllTypes, IcmpAllCodes, log)
    }
  }

  /** Any value offering `Rule()`. */
  datatype AnyRule = Flat(n: NetOutRule) | All(a: AllRule) | UDP(u: UDPRule) | ICMP(i: ICMPRule) | TCP(t: TCPRule)
  {
    function Rule(): NetOutRule
    {
      match this
      case Flat(n) => n.Rule()
      case All(a) => a.Rule()
      case UDP(u) => u.Rule()
      case ICMP(i) => i.Rule()
      case TCP(t) => t.Rule()
    }
  }

  /** Converting is idempotent, and every rule kind other than the flat one yields a canonical rule. */
  lemma RuleIdempotent(x: AnyRule)
    ensures x.Rule().Rule() == x.Rule()
    ensures !x.Flat? ==> Canonical(x.Rule())
  {
  }

  /**
   * What a flat rule keeps of each kind: TCP and "all" rules come back whole,
   * a UDP rule too (it has no log flag), and an ICMP rule exactly when neither
   * its type nor its code is an explicit -1.
   */
  lemma RuleRecoverable(a: AllRule, u: UDPRule, i: ICMPRule, t: TCPRule)
    ensures var r := a.Rule(); AllRule(r.network, r.log) == a
    ensures var r := u.Rule(); UDPRule(r.network, r.port, r.portRange) == u
    ensures var r := t.Rule(); TCPRule(r.network, r.port, r.portRange, r.log) == t
    ensures var r := i.Rule();
      ICMPRule(r.network,
               if r.icmpType == IcmpAllTypes then None else Some(r.icmpType),
               if r.icmpCode == IcmpAllCodes then None else Some(r.icmpCode)) == i
      <==> i.icmpType != Some(-1) && i.code != Some(-1)
  {
  }

  /**
   * `lastIP` of this file: the same per-byte broadcast computation as the
   * helper file's, over a buffer as long as the address.
   */
  method LastIP(n: H.IPNet) returns (lastip: H.IP)
    requires |n.mask| <= |n.ip|
    ensures lastip == H.LastAddress(n)
  {
    var buf := new bv8[|n.ip|](_ => 0);
    for i := 0 to |n.mask|
      invariant forall j :: 0 <= j < i ==> buf[j] == H.Broadcast(n.ip[j], n.mask[j])
      invariant forall j :: i <= j < buf.Length ==> buf[j] == 0
    {
      buf[i] := !n.mask[i] | n.ip[i];
    }
    lastip := buf[..];
  }
}
