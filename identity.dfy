/** What `SimulatedDroneSwarm` derives for each drone from its index: the directory name, the TCP
    port, the UART roles and the heading; and the constructor's normalisation of its inputs. */
module Identity {
  import opened Wrappers
  import opened Decimal

  /** Python truthiness of an optional integer: `None` and 0 are false. */
  predicate IntTruthy(x: Option<int>) {
    x.Some? && x.value != 0
  }

  /** Python truthiness of an optional string: `None` and the empty string are false. */
  predicate StrTruthy(x: Option<string>) {
    x.Some? && x.value != ""
  }

  /** `int(tcp_base_port) if tcp_base_port else None`: a base port of 0 counts as no base port. */
  function NormalizeBasePort(base: Option<int>): (r: Option<int>)
    ensures r.None? <==> !IntTruthy(base)
    ensures r.Some? ==> r == base && r.value != 0
  {
    if IntTruthy(base) then base else None
  }

  /** `base + index - 1 if base else None`: the drone's TCP port, counting up from the base. */
  function TcpPortFor(base: Option<int>, index: int): (r: Option<int>)
    ensures r.Some? <==> IntTruthy(base)
    ensures r.Some? ==> r.value - index == base.value - 1
  {
    if IntTruthy(base) then Some(base.value + index - 1) else None
  }

  /** Distinct drones of one swarm get distinct TCP ports. */
  lemma TcpPortsDistinct(base: Option<int>, i: int, j: int)
    requires i != j && IntTruthy(base)
    ensures TcpPortFor(base, i).value != TcpPortFor(base, j).value
  {
  }

  /** With a positive base the port of drone 1, 2, 3, ... is base, base + 1, base + 2, ...:
      always present and never the falsy 0. */
  lemma PositiveBaseGivesPort(base: int, index: int)
    requires base > 0 && index >= 1
    ensures IntTruthy(TcpPortFor(Some(base), index)) && TcpPortFor(Some(base), index).value >= base
  {
  }

  /** The three first drones of a swarm with base 5760 listen on 5760, 5761 and 5762. */
  lemma BasePort5760()
    ensures TcpPortFor(Some(5760), 1) == Some(5760)
    ensures TcpPortFor(Some(5760), 2) == Some(5761)
    ensures TcpPortFor(Some(5760), 3) == Some(5762)
  {
  }

  /** A negative base can compute the port 0, which the launcher then treats as no port. */
  lemma ZeroPortIsFalsy()
    ensures TcpPortFor(Some(-1), 2) == Some(0) && !IntTruthy(TcpPortFor(Some(-1), 2))
  {
  }

  /** Width of the zero-padded drone directory name. */
  const DroneIdWidth := 3

  /** `"{0:03}".format(index)`: the name of the drone's directory under `drones/`. */
  function DroneId(index: nat): (id: string)
    ensures |id| >= DroneIdWidth && AllDigits(id)
    ensures |id| == if |NatToString(index)| < DroneIdWidth then DroneIdWidth else |NatToString(index)|
    ensures ParseDigits(id) == index
  {
    ParseZeroPad(index, DroneIdWidth);
    ZeroPad(index, DroneIdWidth)
  }

  /** Distinct indices name distinct drone directories. */
  lemma DroneIdsDistinct(i: nat, j: nat)
    requires i != j
    ensures DroneId(i) != DroneId(j)
  {
  }

  /** Small indices are padded to three digits; larger ones are written in full. */
  lemma DroneIdExamples()
    ensures DroneId(1) == "001" && DroneId(42) == "042" && DroneId(1234) == "1234"
  {
    assert NatToString(1) == "1";
    assert NatToString(42) == "42";
    assert NatToString(1234) == "1234";
  }

  /** `float(default_heading) % 360`, over whole degrees: Python's `%` with a positive divisor
      lands in [0, 360), like Dafny's. */
  function NormalizeHeading(heading: int): (h: int)
    ensures 0 <= h < 360
    ensures (heading - h) % 360 == 0
  {
    heading % 360
  }

  /** A default heading of 370 degrees is stored as 10, and -90 as 270. */
  lemma NormalizeHeadingExamples()
    ensures NormalizeHeading(370) == 10 && NormalizeHeading(-90) == 270
  {
  }

  const GcsUartId := "A"
  const MulticastUartId := "C"
  const TcpUartId := "D"
  const MulticastFallback := "udpclient:127.0.0.1:14555"
  const TcpFallback := "udpclient:127.0.0.1:14552"

  /** The UART map of a drone: `A` sends to the ground station, `C` listens on the multicast
      address (a fixed UDP client when none is set), `D` serves the drone's TCP port (a fixed
      UDP client when the drone has none). */
  function UartRoles(gcsAddress: string, multicast: Option<string>, tcpPort: Option<int>): (r: seq<(string, string)>)
    ensures |r| == 3 && r[0].0 == GcsUartId && r[1].0 == MulticastUartId && r[2].0 == TcpUartId
  {
    [ (GcsUartId, "udpclient:" + gcsAddress),
      (MulticastUartId, if StrTruthy(multicast) then "mcast:" + multicast.value else MulticastFallback),
      (TcpUartId, if IntTruthy(tcpPort) then "tcp:" + IntToString(tcpPort.value) else TcpFallback) ]
  }

  /** UART `D` serves TCP port `p` exactly when the drone's port is `p` (and not the falsy 0). */
  lemma TcpUartIff(gcsAddress: string, multicast: Option<string>, tcpPort: Option<int>, p: int)
    ensures UartRoles(gcsAddress, multicast, tcpPort)[2].1 == "tcp:" + IntToString(p)
            <==> IntTruthy(tcpPort) && tcpPort.value == p
  {
    var role := UartRoles(gcsAddress, multicast, tcpPort)[2].1;
    var want := "tcp:" + IntToString(p);
    if IntTruthy(tcpPort) {
      if role == want {
        assert IntToString(tcpPort.value) == role[4..] == want[4..] == IntToString(p);
        IntToStringInjective(tcpPort.value, p);
      }
    } else {
      assert role[0] == 'u' && want[0] == 't';
    }
  }

  /** UART `C` listens on address `a` exactly when `a` is the (non-empty) multicast address. */
  lemma MulticastUartIff(gcsAddress: string, multicast: Option<string>, tcpPort: Option<int>, a: string)
    ensures UartRoles(gcsAddress, multicast, tcpPort)[1].1 == "mcast:" + a
            <==> StrTruthy(multicast) && multicast.value == a
  {
    var role := UartRoles(gcsAddress, multicast, tcpPort)[1].1;
    var want := "mcast:" + a;
    if StrTruthy(multicast) {
      if role == want {
        assert multicast.value == role[6..] == want[6..] == a;
      }
    } else {
      assert role[0] == 'u' && want[0] == 'm';
    }
  }
}
