// Port strings: pkg/util/util.go GetContainerPortsFromStrings and the printed form of
// pkg/component/component.go GetComponentPorts.

module Ports {
  import opened Results
  import opened Strings

  datatype Protocol = TCP | UDP

  datatype ContainerPort = ContainerPort(name: string, number: int, protocol: Protocol)

  const MIN_INT32 := -0x8000_0000
  const MAX_INT32 := 0x7fff_ffff

  predicate IsInt32(n: int) {
    MIN_INT32 <= n <= MAX_INT32
  }

  /** strconv.ParseInt(s, 10, 32): an optional sign, at least one digit, a 32-bit value. */
  function ParseInt32(s: string): Result<int> {
    var signed := |s| > 0 && (s[0] == '+' || s[0] == '-');
    var digits := if signed then s[1..] else s;
    if !AllDigits(digits) then Err(Refused("invalid port number"))
    else
      var magnitude: int := DecimalValue(digits);
      var n := if signed && s[0] == '-' then -magnitude else magnitude;
      if IsInt32(n) then Ok(n) else Err(Refused("invalid port number"))
  }

  function PrintProtocol(p: Protocol): string {
    match p case TCP => "TCP" case UDP => "UDP"
  }

  function LowerProtocol(p: Protocol): string {
    match p case TCP => "tcp" case UDP => "udp"
  }

  function ParseProtocol(s: string): Result<Protocol> {
    var upper := ToUpper(s);
    if upper == "TCP" then Ok(TCP)
    else if upper == "UDP" then Ok(UDP)
    else Err(Refused("invalid port protocol"))
  }

  function MakePort(number: int, protocol: Protocol): ContainerPort {
    ContainerPort(PrintInt(number) + "-" + LowerProtocol(protocol), number, protocol)
  }

  function ParsePort(s: string): Result<ContainerPort> {
    var splits := Split(s, '/');
    if |splits| > 2 then Err(Refused("unable to parse the port string"))
    else
      var number :- ParseInt32(splits[0]);
      var protocol :- if |splits| == 2 then ParseProtocol(splits[1]) else Ok(TCP);
      Ok(MakePort(number, protocol))
  }

  function ParsePorts(ports: seq<string>): Result<seq<ContainerPort>> {
    if ports == [] then Ok([])
    else
      var head :- ParsePort(ports[0]);
      var tail :- ParsePorts(ports[1..]);
      Ok([head] + tail)
  }

  function PrependPorts(done: seq<ContainerPort>, r: Result<seq<ContainerPort>>): Result<seq<ContainerPort>> {
    match r case Ok(rest) => Ok(done + rest) case Err(f) => Err(f)
  }

  lemma PrependStep(done: seq<ContainerPort>, ports: seq<string>, head: Result<ContainerPort>)
    requires ports != [] && head == ParsePort(ports[0])
    ensures PrependPorts(done, ParsePorts(ports)) ==
            match head
            case Ok(p) => PrependPorts(done + [p], ParsePorts(ports[1..]))
            case Err(f) => Err(f)
  {
    if head.Ok? && ParsePorts(ports[1..]).Ok? {
      var rest := ParsePorts(ports[1..]).value;
      assert done + ([head.value] + rest) == (done + [head.value]) + rest;
    }
  }

  /** The loop of GetContainerPortsFromStrings: it stops at the first bad string. */
  method GetContainerPortsFromStrings(ports: seq<string>) returns (r: Result<seq<ContainerPort>>)
    ensures r == ParsePorts(ports)
  {
    var containerPorts: seq<ContainerPort> := [];
    assert ports[0..] == ports;
    assert PrependPorts([], ParsePorts(ports)) == ParsePorts(ports) by {
      if ParsePorts(ports).Ok? {
        assert [] + ParsePorts(ports).value == ParsePorts(ports).value;
      }
    }
    for i := 0 to |ports|
      invariant PrependPorts(containerPorts, ParsePorts(ports[i..])) == ParsePorts(ports)
    {
      var parsed := ParsePort(ports[i]);
      PrependStep(containerPorts, ports[i..], parsed);
      assert ports[i..][1..] == ports[i + 1..];
      if parsed.Err? {
        return Err(parsed.failure);
      }
      containerPorts := containerPorts + [parsed.value];
    }
    assert containerPorts + [] == containerPorts;
    r := Ok(containerPorts);
  }

  /** The form `port/protocol` in which component.go prints a port. */
  function PrintPort(p: ContainerPort): string {
    PrintInt(p.number) + "/" + PrintProtocol(p.protocol)
  }

  lemma PrintedNumber(n: int)
    ensures '/' !in PrintInt(n)
    ensures ParseInt32(PrintInt(n)) == if IsInt32(n) then Ok(n) else Err(Refused("invalid port number"))
  {
    var s := PrintInt(n);
    if n < 0 {
      DecimalRoundTrip(-n);
      assert s[1..] == PrintNat(-n);
    } else {
      DecimalRoundTrip(n);
    }
  }

  lemma PrintedPieces(p: ContainerPort)
    ensures Split(PrintPort(p), '/') == [PrintInt(p.number), PrintProtocol(p.protocol)]
  {
    var number, protocol := PrintInt(p.number), PrintProtocol(p.protocol);
    PrintedNumber(p.number);
    assert PrintPort(p) == number + ['/'] + protocol;
    SplitAt(number, '/', protocol);
    assert '/' !in protocol;
    SplitAlone(protocol, '/');
  }

  lemma PrintedProtocol(p: Protocol)
    ensures ParseProtocol(PrintProtocol(p)) == Ok(p)
  {
    assert ToUpper(PrintProtocol(p)) == PrintProtocol(p);
    assert "UDP"[0] != "TCP"[0];
  }

  /** For EVERY integer n and protocol, the printed form is parsed back to the same port when n is
      a 32-bit value and rejected otherwise. */
  lemma PortRoundTrip(p: ContainerPort)
    ensures ParsePort(PrintPort(p)) ==
            if IsInt32(p.number) then Ok(MakePort(p.number, p.protocol)) else Err(Refused("invalid port number"))
  {
    PrintedPieces(p);
    PrintedNumber(p.number);
    PrintedProtocol(p.protocol);
    var pieces := Split(PrintPort(p), '/');
    assert pieces[0] == PrintInt(p.number) && pieces[1] == PrintProtocol(p.protocol);
  }

  function PrintPorts(ports: seq<ContainerPort>): (r: seq<string>)
    ensures |r| == |ports|
  {
    if ports == [] then [] else [PrintPort(ports[0])] + PrintPorts(ports[1..])
  }

  lemma ParsePortsHead(head: string, tail: seq<string>, parsed: Result<ContainerPort>, rest: Result<seq<ContainerPort>>)
    requires parsed == ParsePort(head) && rest == ParsePorts(tail)
    ensures ParsePorts([head] + tail) ==
            if parsed.Err? then Err(parsed.failure)
            else if rest.Err? then Err(rest.failure)
            else Ok([parsed.value] + rest.value)
  {
    assert ([head] + tail)[1..] == tail;
  }

  /** The ports with the names odo generates for them. */
  function Renamed(ports: seq<ContainerPort>): (r: seq<ContainerPort>)
    ensures |r| == |ports|
  {
    if ports == [] then [] else [MakePort(ports[0].number, ports[0].protocol)] + Renamed(ports[1..])
  }

  predicate AllInt32(ports: seq<ContainerPort>) {
    forall p :: p in ports ==> IsInt32(p.number)
  }

  /** Whole lists: printing and parsing gives the ports back, with the names odo generates, when
      every number fits 32 bits; a single number that does not rejects the list. */
  lemma {:induction false} PortsRoundTrip(ports: seq<ContainerPort>)
    ensures ParsePorts(PrintPorts(ports)) ==
            if AllInt32(ports) then Ok(Renamed(ports)) else Err(Refused("invalid port number"))
  {
    if ports != [] {
      var head, rest := ParsePort(PrintPort(ports[0])), ParsePorts(PrintPorts(ports[1..]));
      PortRoundTrip(ports[0]);
      PortsRoundTrip(ports[1..]);
      ParsePortsHead(PrintPort(ports[0]), PrintPorts(ports[1..]), head, rest);
      assert ports == [ports[0]] + ports[1..];
      assert AllInt32(ports) <==> IsInt32(ports[0].number) && AllInt32(ports[1..]);
    }
  }
}
