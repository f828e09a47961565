/** Port mappings as `--port` values. */
module Ports {
  import opened Wrappers
  import opened Text
  import opened Cri

  /** The lower-cased name of the protocol; protocols without a name print as their number. */
  function ProtocolText(p: Protocol): string
  {
    match p
    case TCP => "tcp"
    case UDP => "udp"
    case Other(n) => DecimalInt(n)
  }

  function HostIp(p: PortMapping): string { if p.hostIp == "" then "0.0.0.0" else p.hostIp }

  /** `protocol-containerPort-hostPort`. */
  function PortName(p: PortMapping): string
  {
    ProtocolText(p.protocol) + ['-'] + (DecimalInt(p.containerPort) + ['-'] + DecimalInt(p.hostPort))
  }

  function PortFields(p: PortMapping): seq<string>
  {
    [PortName(p), ProtocolText(p.protocol), DecimalInt(p.containerPort), HostIp(p), DecimalInt(p.hostPort)]
  }

  function PortValue(p: PortMapping): string { Join(PortFields(p), ':') }

  predicate Published(p: PortMapping) { p.hostPort != 0 && p.containerPort != 0 }

  /** One value per mapping with both ports set, in order. */
  function PortValues(ports: seq<PortMapping>): seq<string>
    decreases |ports|
  {
    if ports == [] then []
    else
      var p := ports[|ports| - 1];
      PortValues(ports[..|ports| - 1]) + (if Published(p) then [PortValue(p)] else [])
  }

  function PublishedPorts(ports: seq<PortMapping>): seq<PortMapping>
    decreases |ports|
  {
    if ports == [] then []
    else
      var init, p := ports[..|ports| - 1], ports[|ports| - 1];
      if Published(p) then PublishedPorts(init) + [p] else PublishedPorts(init)
  }

  // ----- reading -----

  function ReadInt(s: string): Option<int>
  {
    if s != "" && AllDigits(s) then Some(DigitsValue(s))
    else if |s| > 1 && s[0] == '-' && AllDigits(s[1..]) then
      var magnitude: int := DigitsValue(s[1..]);
      Some(-magnitude)
    else None
  }

  function ReadProtocol(s: string): Option<Protocol>
  {
    if s == "tcp" then Some(TCP)
    else if s == "udp" then Some(UDP)
    else match ReadInt(s) case None => None case Some(n) => Some(Other(n))
  }

  function ReadPort(value: string): Option<PortMapping>
  {
    var fields := Split(value, ':');
    if |fields| != 5 then None
    else
      match (ReadProtocol(fields[1]), ReadInt(fields[2]), ReadInt(fields[4]))
      case (Some(protocol), Some(containerPort), Some(hostPort)) =>
        Some(PortMapping(protocol, containerPort, hostPort, fields[3]))
      case _ => None
  }

  lemma ReadIntOfDecimal(i: int)
    ensures ReadInt(DecimalInt(i)) == Some(i)
    ensures ':' !in DecimalInt(i)
  {
    DecimalIntShape(i);
    DigitsValueOfDecimal(if i < 0 then -i else i);
  }

  lemma ReadProtocolOfText(p: Protocol)
    ensures ReadProtocol(ProtocolText(p)) == Some(p)
    ensures ':' !in ProtocolText(p)
  {
    if p.Other? {
      ReadIntOfDecimal(p.number);
      DecimalIntShape(p.number);
      assert DecimalInt(p.number)[0] != 't' && DecimalInt(p.number)[0] != 'u';
    }
  }

  lemma FieldsWithoutColon(p: PortMapping)
    ensures ':' !in PortName(p) && ':' !in ProtocolText(p.protocol)
    ensures ':' !in DecimalInt(p.containerPort) && ':' !in DecimalInt(p.hostPort)
  {
    ReadProtocolOfText(p.protocol);
    ReadIntOfDecimal(p.containerPort);
    ReadIntOfDecimal(p.hostPort);
  }

  /** A printed mapping reads back to itself (with the default host address filled in) exactly when the
      host address contains no colon; IPv6 addresses do not survive. */
  lemma PortRoundTripIff(p: PortMapping)
    ensures ReadPort(PortValue(p)) == Some(p.(hostIp := HostIp(p))) <==> ':' !in HostIp(p)
  {
    var fields := PortFields(p);
    FieldsWithoutColon(p);
    if ':' !in HostIp(p) {
      SplitOfJoin(fields, ':');
      ReadProtocolOfText(p.protocol);
      ReadIntOfDecimal(p.containerPort);
      ReadIntOfDecimal(p.hostPort);
    }
    if |Split(PortValue(p), ':')| == 5 {
      FieldCount(fields, ':');
      assert fields[3] in fields;
    }
  }

  /** The printed values read back to the published mappings, one by one and in order. */
  lemma {:induction false} PortValuesReadBack(ports: seq<PortMapping>)
    requires forall p :: p in ports ==> ':' !in HostIp(p)
    ensures |PortValues(ports)| == |PublishedPorts(ports)|
    ensures forall i :: 0 <= i < |PortValues(ports)| ==>
      ReadPort(PortValues(ports)[i]) == Some(PublishedPorts(ports)[i].(hostIp := HostIp(PublishedPorts(ports)[i])))
    decreases |ports|
  {
    if ports != [] {
      PortValuesReadBack(ports[..|ports| - 1]);
      PortRoundTripIff(ports[|ports| - 1]);
    }
  }

  /** Port names tell mappings apart exactly by protocol, container port and host port. */
  lemma PortNameIff(p: PortMapping, q: PortMapping)
    ensures PortName(p) == PortName(q) <==>
            p.protocol == q.protocol && p.containerPort == q.containerPort && p.hostPort == q.hostPort
  {
    if PortName(p) == PortName(q) {
      var x := DecimalInt(p.containerPort) + ['-'] + DecimalInt(p.hostPort);
      var y := DecimalInt(q.containerPort) + ['-'] + DecimalInt(q.hostPort);
      ProtocolThenDash(p.protocol, x, q.protocol, y);
      NumberThenDash(p.containerPort, DecimalInt(p.hostPort), q.containerPort, DecimalInt(q.hostPort));
      DecimalIntInjective(p.hostPort, q.hostPort);
    }
  }

  lemma ProtocolThenDash(p: Protocol, a: string, q: Protocol, b: string)
    requires ProtocolText(p) + ['-'] + a == ProtocolText(q) + ['-'] + b
    ensures p == q && a == b
  {
    var s, t := ProtocolText(p), ProtocolText(q);
    ProtocolStart(p);
    ProtocolStart(q);
    assert s[0] == (s + ['-'] + a)[0] == (t + ['-'] + b)[0] == t[0];
    if p.Other? && q.Other? {
      NumberThenDash(p.number, a, q.number, b);
    } else {
      UniqueSplit(s, a, t, b, '-');
    }
  }

  lemma ProtocolStart(p: Protocol)
    ensures ProtocolText(p) != ""
    ensures p.TCP? <==> ProtocolText(p)[0] == 't'
    ensures p.UDP? <==> ProtocolText(p)[0] == 'u'
  {
    if p.Other? { DecimalIntShape(p.number); }
  }
}
