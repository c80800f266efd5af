/** `SimulatedDroneSwarm` and its context object: the swarm's configuration, the index counter,
    the fields `use()` sets and clears, and the start of one drone. */
module Swarm {
  import opened Wrappers
  import opened Decimal
  import opened SimulatorArgs
  import opened ParamFile
  import opened Identity
  import opened Strings

  /** An opaque handle on the trio nursery or on the process runner. */
  datatype Handle = Handle(id: nat)

  /** A call `_request_stop` makes: the runner's `request_stop()` or the cancellation of the
      nursery's cancel scope. */
  datatype StopAction = StopRunner(runner: Handle) | CancelScope(nursery: Handle)

  /** Why a drone could not be started: the swarm is not in use (the assertions on `_runner` and
      `_swarm_dir` fail), or a parameter source could not be read. */
  datatype DroneError = NotActive | ParamSourceUnreadable(error: ParamError)

  /** The swarm's settings once the constructor has normalised them. */
  datatype SwarmConfig = SwarmConfig(
    executable: string,
    dir: Option<string>,
    params: seq<ParamSource>,
    tcpBasePort: Option<int>,
    defaultHeading: int,
    gcsAddress: string,
    multicastAddress: Option<string>)

  /** What starting one drone produces: its index and directory, the chunks of its parameter
      file, and the request handed to the process runner. */
  datatype DroneLaunch = DroneLaunch(index: nat, droneDir: string, paramFile: seq<string>, request: StartRequest)

  /** The speed-up factor drones are started with, as `str(1)` renders it. */
  const DroneSpeedup := "1"

  /** `Path / name`, written with a separator. */
  function Join(dir: string, name: string): string {
    dir + "/" + name
  }

  /** A joined path is the directory, a separator, and the name. */
  lemma JoinParts(dir: string, name: string)
    ensures var p := Join(dir, name);
      && |p| == |dir| + 1 + |name|
      && p[..|dir|] == dir && p[|dir|] == '/' && p[|dir| + 1..] == name
  {
  }

  /** Joining different names to one directory gives different paths. */
  lemma JoinInjective(dir: string, a: string, b: string)
    ensures Join(dir, a) == Join(dir, b) ==> a == b
  {
    assert Join(dir, a)[|dir| + 1..] == a;
    assert Join(dir, b)[|dir| + 1..] == b;
  }

  /** `swarm_dir / "drones" / drone_id`: the drone's directory sits under `drones/` of the swarm's
      directory and is named by the drone id. */
  function DroneDir(swarmDir: string, index: nat): string {
    Join(Join(swarmDir, "drones"), DroneId(index))
  }

  /** A drone's directory is the swarm's directory, then `/drones/`, then the drone id. */
  lemma DroneDirParts(swarmDir: string, index: nat)
    ensures var d := DroneDir(swarmDir, index);
      var k := |swarmDir|;
      && |d| == k + 8 + |DroneId(index)|
      && d[..k] == swarmDir && d[k..k + 8] == "/drones/" && d[k + 8..] == DroneId(index)
  {
    var inner := Join(swarmDir, "drones");
    JoinParts(swarmDir, "drones");
    JoinParts(inner, DroneId(index));
    var d := DroneDir(swarmDir, index);
    assert d[..|inner|] == inner;
  }

  /** Distinct drones of one swarm have distinct directories. */
  lemma DroneDirsDistinct(swarmDir: string, i: nat, j: nat)
    requires i != j
    ensures DroneDir(swarmDir, i) != DroneDir(swarmDir, j)
  {
    DroneIdsDistinct(i, j);
    JoinInjective(Join(swarmDir, "drones"), DroneId(i), DroneId(j));
  }

  /** A per-drone heading wins over the swarm's default. */
  function EffectiveHeading(heading: Option<int>, default: int): (h: int)
    ensures heading.Some? ==> h == heading.value
    ensures heading.None? ==> h == default
  {
    if heading.Some? then heading.value else default
  }

  /** The options `_start_simulated_drone` passes on to the argument builder. */
  function DroneOptions(cfg: SwarmConfig, index: nat, paramFile: string, home: string, heading: int): (o: SimulatorOptions)
    requires index >= 1
    ensures o.index == Some(index - 1)
    ensures o.model == DefaultModel && o.paramFile == Some(paramFile) && !o.useConsole
    ensures o.rcInputPort.None? && o.speedup == DroneSpeedup && o.home == home && o.heading == heading
  {
    SimulatorOptions(
      DefaultModel, Some(paramFile), false, home, heading, Some(index - 1),
      UartRoles(cfg.gcsAddress, cfg.multicastAddress, TcpPortFor(cfg.tcpBasePort, index)),
      None, DroneSpeedup)
  }

  /** The request `start_simulator` hands to the runner for drone number `index` of a swarm
      whose directory is `swarmDir`; `home` is the rendered geodetic home ("lat,lon,amsl"). */
  function DroneRequest(cfg: SwarmConfig, index: nat, swarmDir: string, home: string, heading: Option<int>): (r: StartRequest)
    requires index >= 1
    ensures r.name == NatToString(index) && r.daemon
    ensures r.cwd == Some(Join(DroneDir(swarmDir, index), "fs"))
    ensures r.streamStdout == !r.useStdin
  {
    var dir := DroneDir(swarmDir, index);
    var o := DroneOptions(cfg, index, Join(dir, "default.param"), home, EffectiveHeading(heading, cfg.defaultHeading));
    var args := [cfg.executable] + ArgsFor(o).value;
    StartRequest(args, NatToString(index), true, Some(Join(dir, "fs")), "-C" !in args, "-C" in args)
  }

  /** The outcome of starting drone number `index` of an active swarm, given the readable files:
      the parameter file is written first, and an unreadable source stops the start. */
  function DroneLaunchFor(cfg: SwarmConfig, index: nat, swarmDir: string, home: string,
                          heading: Option<int>, env: Env): (r: Result<DroneLaunch, DroneError>)
    requires index >= 1
    ensures r.Failure? ==> r.error.ParamSourceUnreadable?
    ensures r.Success? ==> r.value.index == index && r.value.droneDir == DroneDir(swarmDir, index)
    ensures r.Success? ==> r.value.request == DroneRequest(cfg, index, swarmDir, home, heading)
  {
    var tcpPort := TcpPortFor(cfg.tcpBasePort, index);
    var file := ParamFileChunks(cfg.params, env, index, StrTruthy(cfg.multicastAddress), IntTruthy(tcpPort));
    if file.error.Some? then Failure(ParamSourceUnreadable(file.error.value))
    else Success(DroneLaunch(index, DroneDir(swarmDir, index), file.chunks, DroneRequest(cfg, index, swarmDir, home, heading)))
  }

  /** A drone fails to start exactly when one of the swarm's parameter sources cannot be read;
      otherwise its parameter file is the sources' chunks followed by the computed lines. */
  lemma LaunchFailsIffSourceUnreadable(cfg: SwarmConfig, index: nat, swarmDir: string, home: string,
                                       heading: Option<int>, env: Env)
    requires index >= 1
    ensures var r := DroneLaunchFor(cfg, index, swarmDir, home, heading, env);
      var sources := SourceChunks(cfg.params, env);
      && (r.Failure? <==> sources.error.Some?)
      && (r.Failure? ==> r.error == ParamSourceUnreadable(sources.error.value))
      && (r.Success? ==>
            r.value.paramFile == sources.chunks
              + ComputedLines(index, StrTruthy(cfg.multicastAddress), IntTruthy(TcpPortFor(cfg.tcpBasePort, index))))
  {
  }

  /** The full command line of a drone: the executable, `-M quad --disable-fgview`, the
      zero-based index, the drone's own parameter file, one flag per UART role, the home and the
      speed-up 1. The simulator index is never negative, so the builder never raises here. */
  lemma DroneCommandLine(cfg: SwarmConfig, index: nat, swarmDir: string, home: string, heading: Option<int>)
    requires index >= 1
    ensures var request := DroneRequest(cfg, index, swarmDir, home, heading);
      var dir := DroneDir(swarmDir, index);
      && request.name == NatToString(index)
      && request.cwd == Some(Join(dir, "fs"))
      && request.args == [cfg.executable] +
         (["-M", DefaultModel, "--disable-fgview"]
          + ["-I", NatToString(index - 1), "--defaults", Join(dir, "default.param")]
          + UartFlags(UartRoles(cfg.gcsAddress, cfg.multicastAddress, TcpPortFor(cfg.tcpBasePort, index)))
          + ["--home", HomeArg(home, EffectiveHeading(heading, cfg.defaultHeading)), "--speedup", DroneSpeedup])
  {
    var dir := DroneDir(swarmDir, index);
    var o := DroneOptions(cfg, index, Join(dir, "default.param"), home, EffectiveHeading(heading, cfg.defaultHeading));
    var request := DroneRequest(cfg, index, swarmDir, home, heading);
    assert request.args == [cfg.executable] + ArgsFor(o).value;
    assert ArgsFor(o).value == ["-M", DefaultModel, "--disable-fgview"]
      + ["-I", NatToString(index - 1), "--defaults", Join(dir, "default.param")]
      + UartFlags(o.uarts) + ["--home", HomeArg(o.home, o.heading), "--speedup", DroneSpeedup] by {
      ArgsForIndexedDefaults(o);
    }
  }

  /** The UART flags of a drone, in the order A, C, D: the ground station, the multicast address
      or its fallback, the TCP port or its fallback. */
  lemma DroneUartFlags(gcsAddress: string, multicast: Option<string>, tcpPort: Option<int>)
    ensures UartFlags(UartRoles(gcsAddress, multicast, tcpPort)) ==
      [ "--uartA=udpclient:" + gcsAddress,
        "--uartC=" + (if StrTruthy(multicast) then "mcast:" + multicast.value else MulticastFallback),
        "--uartD=" + (if IntTruthy(tcpPort) then "tcp:" + IntToString(tcpPort.value) else TcpFallback) ]
  {
    var roles := UartRoles(gcsAddress, multicast, tcpPort);
    var flags := UartFlags(roles);
    assert Upper("A") == "A" && Upper("C") == "C" && Upper("D") == "D";
    assert flags[0] == "--uart" + "A" + "=" + roles[0].1 == "--uartA=" + roles[0].1;
    assert flags[1] == "--uart" + "C" + "=" + roles[1].1 == "--uartC=" + roles[1].1;
    assert flags[2] == "--uart" + "D" + "=" + roles[2].1 == "--uartD=" + roles[2].1;
    assert "--uartA=" + ("udpclient:" + gcsAddress) == "--uartA=udpclient:" + gcsAddress;
    assert flags == [flags[0], flags[1], flags[2]];
  }

  /** The drone's standard input is never used and its output is streamed, unless the executable
      path itself is `-C`. */
  lemma DroneStdio(cfg: SwarmConfig, index: nat, swarmDir: string, home: string, heading: Option<int>)
    requires index >= 1
    ensures var request := DroneRequest(cfg, index, swarmDir, home, heading);
      && request.useStdin == (cfg.executable == "-C")
      && request.streamStdout == !request.useStdin
  {
    var dir := DroneDir(swarmDir, index);
    var o := DroneOptions(cfg, index, Join(dir, "default.param"), home, EffectiveHeading(heading, cfg.defaultHeading));
    assert Join(dir, "default.param")[|dir|] == '/';
    assert FreeTextAvoids(o, "-C");
    ConsoleFlagIffUseConsole(o);
  }

  /** The sixth argument of a drone's command line is its zero-based simulator index. */
  lemma DroneIndexArg(cfg: SwarmConfig, index: nat, swarmDir: string, home: string, heading: Option<int>)
    requires index >= 1
    ensures var args := DroneRequest(cfg, index, swarmDir, home, heading).args;
      |args| > 5 && args[4] == "-I" && args[5] == NatToString(index - 1)
  {
    DroneCommandLine(cfg, index, swarmDir, home, heading);
  }

  /** Two drones of one swarm never share a directory, a process name, a simulator index or a
      TCP port. */
  lemma LaunchesDistinct(cfg: SwarmConfig, i: nat, j: nat, swarmDir: string,
                         homeI: string, headingI: Option<int>, homeJ: string, headingJ: Option<int>)
    requires 1 <= i && 1 <= j && i != j
    ensures var a := DroneRequest(cfg, i, swarmDir, homeI, headingI);
      var b := DroneRequest(cfg, j, swarmDir, homeJ, headingJ);
      && DroneDir(swarmDir, i) != DroneDir(swarmDir, j)
      && a.name != b.name
      && a.args[5] != b.args[5]
      && (IntTruthy(cfg.tcpBasePort) ==> TcpPortFor(cfg.tcpBasePort, i) != TcpPortFor(cfg.tcpBasePort, j))
  {
    DroneIndexArg(cfg, i, swarmDir, homeI, headingI);
    DroneIndexArg(cfg, j, swarmDir, homeJ, headingJ);
    DroneDirsDistinct(swarmDir, i, j);
    NatToStringInjective(i, j);
    NatToStringInjective(i - 1, j - 1);
  }


  /** The body of `_start_simulated_drone` once the index is taken: the directory names, the
      parameter file, the UART map and the call to `start_simulator`. */
  method LaunchDrone(cfg: SwarmConfig, index: nat, swarmDir: string, home: string, heading: Option<int>, env: Env)
    returns (r: Result<DroneLaunch, DroneError>)
    requires index >= 1
    ensures r == DroneLaunchFor(cfg, index, swarmDir, home, heading, env)
  {
    var h := if heading.Some? then heading.value else cfg.defaultHeading;
    var droneDir := Join(Join(swarmDir, "drones"), DroneId(index));
    var droneFsDir := Join(droneDir, "fs");
    var ownParamFile := Join(droneDir, "default.param");
    var tcpPort := TcpPortFor(cfg.tcpBasePort, index);
    var chunks, error := WriteParamFile(cfg.params, env, index, StrTruthy(cfg.multicastAddress), IntTruthy(tcpPort));
    if error.Some? {
      return Failure(ParamSourceUnreadable(error.value));
    }
    var uarts := UartRoles(cfg.gcsAddress, cfg.multicastAddress, tcpPort);
    var o := SimulatorOptions(DefaultModel, Some(ownParamFile), false, home, h, Some(index - 1), uarts, None, DroneSpeedup);
    var started := StartSimulator(cfg.executable, NatToString(index), Some(droneFsDir), o);
    assert started.Success?;
    return Success(DroneLaunch(index, droneDir, chunks, started.value));
  }

  /** A record of the numbers 1, 2, ..., n holds only numbers up to n, and extends by n + 1. */
  lemma CountUp(issued: seq<nat>)
    requires forall k :: 0 <= k < |issued| ==> issued[k] == k + 1
    ensures forall x :: x in issued ==> 1 <= x <= |issued|
    ensures var next := issued + [|issued| + 1];
      forall k :: 0 <= k < |next| ==> next[k] == k + 1
  {
    forall x | x in issued ensures 1 <= x <= |issued| {
      var k :| 0 <= k < |issued| && issued[k] == x;
    }
  }

  /** `SimulatedDroneSwarm`: the normalised configuration, the `count(1)` index generator and the
      three fields `use()` manages. `issued` records the indices handed out so far. */
  class SimulatedDroneSwarm {
    const config: SwarmConfig
    var nextIndex: nat
    ghost var issued: seq<nat>
    var nursery: Option<Handle>
    var swarmDir: Option<string>
    var runner: Option<Handle>

    /** The generator has handed out 1, 2, ..., in order, and yields the next number. */
    ghost predicate Valid()
      reads this
    {
      && nextIndex == |issued| + 1
      && forall k :: 0 <= k < |issued| ==> issued[k] == k + 1
    }

    /** The state in which drones can be started. */
    predicate IsActive()
      reads this
    {
      runner.Some? && swarmDir.Some?
    }

    constructor (executable: string, dir: Option<string>, params: Option<seq<ParamSource>>, orientation: int,
                 defaultHeading: Option<int>, gcsAddress: string, multicastAddress: Option<string>,
                 tcpBasePort: Option<int>)
      ensures Valid() && issued == [] && nextIndex == 1
      ensures config.executable == executable
      ensures config.dir == (if StrTruthy(dir) then dir else None)
      ensures config.params == (if params.Some? then params.value else [])
      ensures config.tcpBasePort == NormalizeBasePort(tcpBasePort)
      ensures config.defaultHeading == (if defaultHeading.Some? then NormalizeHeading(defaultHeading.value) else orientation)
      ensures config.gcsAddress == gcsAddress && config.multicastAddress == multicastAddress
      ensures nursery.None? && swarmDir.None? && runner.None?
    {
      config := SwarmConfig(
        executable,
        if StrTruthy(dir) then dir else None,
        if params.Some? then params.value else [],
        NormalizeBasePort(tcpBasePort),
        if defaultHeading.Some? then NormalizeHeading(defaultHeading.value) else orientation,
        gcsAddress,
        multicastAddress);
      nextIndex := 1;
      issued := [];
      nursery := None;
      runner := None;
      swarmDir := None;
    }

    /** Entering `use()`: the nursery, the working directory (the configured one, else the
        temporary one made for the swarm) and the runner are set. */
    method EnterUse(newNursery: Handle, tempDir: string, newRunner: Handle)
      requires Valid()
      modifies this
      ensures Valid() && nextIndex == old(nextIndex) && issued == old(issued)
      ensures nursery == Some(newNursery) && runner == Some(newRunner)
      ensures swarmDir == Some(if config.dir.Some? then config.dir.value else tempDir)
      ensures IsActive()
    {
      nursery := Some(newNursery);
      swarmDir := Some(if config.dir.Some? then config.dir.value else tempDir);
      runner := Some(newRunner);
    }

    /** The `finally` of `use()`: the three fields are cleared; the counter is kept, so indices
        are never handed out again. */
    method ExitUse()
      requires Valid()
      modifies this
      ensures Valid() && nextIndex == old(nextIndex) && issued == old(issued)
      ensures nursery.None? && swarmDir.None? && runner.None?
      ensures !IsActive()
    {
      nursery := None;
      runner := None;
      swarmDir := None;
    }

    /** `_request_stop`: asks the runner to stop, then cancels the nursery, each only when set. */
    method RequestStop() returns (actions: seq<StopAction>)
      ensures |actions| <= 2
      ensures forall h :: StopRunner(h) in actions <==> runner == Some(h)
      ensures forall h :: CancelScope(h) in actions <==> nursery == Some(h)
      ensures |actions| == 2 ==> actions[0].StopRunner? && actions[1].CancelScope?
    {
      actions := [];
      if runner.Some? {
        actions := actions + [StopRunner(runner.value)];
      }
      if nursery.Some? {
        actions := actions + [CancelScope(nursery.value)];
      }
    }

    /** The effect of `_start_simulated_drone`: outside `use()` nothing changes and the call fails;
        inside, the next index is taken, never one handed out before, and the drone is started as
        `DroneLaunchFor` describes, or fails on an unreadable source with the index spent. */
    twostate predicate DroneStarted(new r: Result<DroneLaunch, DroneError>, home: string, heading: Option<int>, env: Env)
      reads this
    {
      && nursery == old(nursery) && swarmDir == old(swarmDir) && runner == old(runner)
      && (!old(IsActive()) ==> r == Failure(NotActive) && nextIndex == old(nextIndex) && issued == old(issued))
      && (old(IsActive()) ==>
            && old(nextIndex) >= 1
            && old(nextIndex) !in old(issued)
            && (forall k :: k in old(issued) ==> k < old(nextIndex))
            && nextIndex == old(nextIndex) + 1
            && issued == old(issued) + [old(nextIndex)]
            && r == DroneLaunchFor(config, old(nextIndex), old(swarmDir).value, home, heading, env))
    }

    /** Starts one drone: takes the next index, writes its parameter file, builds its command
        line and hands it to the runner. `home` is the rendered geodetic home position. */
    method StartSimulatedDrone(home: string, heading: Option<int>, env: Env) returns (r: Result<DroneLaunch, DroneError>)
      requires Valid()
      modifies this
      ensures Valid()
      ensures DroneStarted(r, home, heading, env)
    {
      if runner.None? || swarmDir.None? {
        return Failure(NotActive);
      }
      var index := nextIndex;
      CountUp(issued);
      nextIndex := nextIndex + 1;
      issued := issued + [index];
      r := LaunchDrone(config, index, swarmDir.value, home, heading, env);
    }
  }

  /** `SimulatedDroneSwarmContext`: what `use()` hands to the caller, forwarding to the swarm. */
  class SimulatedDroneSwarmContext {
    const swarm: SimulatedDroneSwarm

    constructor (swarm: SimulatedDroneSwarm)
      ensures this.swarm == swarm
    {
      this.swarm := swarm;
    }

    /** `add_drone`: starts a drone of the swarm. */
    method AddDrone(home: string, heading: Option<int>, env: Env) returns (r: Result<DroneLaunch, DroneError>)
      requires swarm.Valid()
      modifies swarm
      ensures swarm.Valid()
      ensures swarm.DroneStarted(r, home, heading, env)
    {
      r := swarm.StartSimulatedDrone(home, heading, env);
    }

    /** `request_stop`: asks the swarm to stop. */
    method RequestStop() returns (actions: seq<StopAction>)
      ensures |actions| <= 2
      ensures forall h :: StopRunner(h) in actions <==> swarm.runner == Some(h)
      ensures forall h :: CancelScope(h) in actions <==> swarm.nursery == Some(h)
      ensures |actions| == 2 ==> actions[0].StopRunner? && actions[1].CancelScope?
    {
      actions := swarm.RequestStop();
    }
  }
}
