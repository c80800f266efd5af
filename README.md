# ap-swarm-launcher: the SITL swarm launcher, modelled in Dafny

This project models the core of `src/ap_swarm_launcher/sitl.py`. That file starts one ArduPilot
SITL simulator process per simulated drone. Four pieces of it are modelled:

- **The command line of a simulator** (`create_args_for_simulator`, `start_simulator`). The
  fixed head is `-M <model> --disable-fgview`. Then come the optional `-I`, `-C`, `--defaults`
  and `--rc-in-port` arguments, one `--uart<ID>=<role>` flag per UART entry, and the fixed tail
  `--home <home> --speedup <factor>`. A negative index is refused. Standard input is used, and
  output is not streamed, exactly when `-C` is among the arguments.
- **The identity of each drone.** The swarm's counter hands out 1, 2, 3, ... The drone
  directory is named by the index zero-padded to three digits. The TCP port is
  `base + index - 1`. The simulator index is `index - 1`. The process name is the decimal index.
- **The drone's `default.param` file.** The caller's sources are written in order: files,
  `embedded://` resources and name/value pairs. Then come the computed lines: `SYSID_THISMAV`,
  the two multicast serial lines and the TCP serial line. An unreadable source stops the file.
- **The UART role map** (`A`, `C`, `D`) and the lifecycle of `SimulatedDroneSwarm`. `use()`
  sets the nursery, the working directory and the runner, and clears them at the end.
  `_request_stop` asks the runner to stop, then cancels the nursery. `_start_simulated_drone`
  requires the swarm to be in use.

Modules, one per concern:

| file | module | contents |
|---|---|---|
| `wrappers.dfy` | `Wrappers` | `Option`, `Result` |
| `decimal.dfy` | `Decimal` | `str(int)`, the `{0:03}` zero padding, and their parse-back round trips |
| `strings.dfy` | `Strings` | ASCII `upper()`, `lstrip` |
| `simulator_args.dfy` | `SimulatorArgs` | the argument builder as a method, its specification `ArgsFor`, `start_simulator` |
| `param_file.dfy` | `ParamFile` | parameter sources, the writing loop as a method, its specification `ParamFileChunks` |
| `identity.dfy` | `Identity` | Python truthiness, TCP ports, drone ids, heading normalisation, UART roles |
| `swarm.dfy` | `Swarm` | the `SimulatedDroneSwarm` and `SimulatedDroneSwarmContext` classes, and what one drone start produces |

How the source is rendered in Dafny:

- **Python truthiness.** An optional integer is true when it is present and not 0. An optional
  string is true when it is present and not empty.
- **Files.** The file system is a value `Env`: the readable files by path and the packaged
  resources by name.
- **The process runner.** A call to the runner becomes the `StartRequest` value it would
  receive.
- **The two `assert` statements** at the start of `_start_simulated_drone` become the error
  `NotActive`. It is returned before the counter advances.
- **The `-C` test.** `start_simulator` tests whether the string `-C` is a member of the
  argument list, and the model keeps that test as written. So "stdin is used iff console mode"
  holds only when no caller text (model, parameter file, speed-up, executable) is itself `-C`.
  `ConsoleTokenInModel` shows the case where it fails.
- **Heading.** Headings are whole degrees. The constructor's `% 360` is Python's floored modulo,
  which for the divisor 360 is Dafny's `%`.

Two behaviours of the code are easy to miss, and the model keeps both:

- `tcp_base_port` is only tested for truthiness, so a negative base is accepted.
  `ZeroPortIsFalsy` shows that such a base can compute the port 0, and that a port of 0 is
  then treated as no port.
- Using a swarm after `use()` has ended is refused only by the `assert` statements. Nothing
  stops `use()` from being entered twice.

## Model

| member | source | states |
|---|---|---|
| Decimal.NatToString | src/ap_swarm_launcher/sitl.py:74 | `str(n)` of a natural is a non-empty digit string whose first digit is 0 only for 0 |
| Decimal.ParseNatToString | src/ap_swarm_launcher/sitl.py:74 | reading the decimal text of `n` back gives `n` |
| Decimal.NatToStringInjective | src/ap_swarm_launcher/sitl.py:314 | different numbers have different decimal texts |
| Decimal.IntToString | src/ap_swarm_launcher/sitl.py:83 | `str(i)` starts with `-` exactly for negative `i`, and is otherwise the natural rendering |
| Decimal.IntToStringInjective | src/ap_swarm_launcher/sitl.py:330 | different integers have different decimal texts |
| Decimal.ZeroPad | src/ap_swarm_launcher/sitl.py:264 | `{0:0w}` gives all digits, of length max(w, digit count), ending in the plain rendering |
| Decimal.ParseZeroPad | src/ap_swarm_launcher/sitl.py:264 | the padded text reads back as the number |
| Decimal.ZeroPadInjective | src/ap_swarm_launcher/sitl.py:264 | different numbers padded to one width are different texts |
| Strings.UpperChar | src/ap_swarm_launcher/sitl.py:87 | a lower-case ASCII letter maps to its capital; anything else is kept; no lower-case letter comes out |
| Strings.Upper | src/ap_swarm_launcher/sitl.py:87 | `upper()` keeps the length and maps every character by `UpperChar` |
| Strings.LStrip | src/ap_swarm_launcher/sitl.py:279 | `lstrip(c)` is a suffix that does not start with `c`, and only copies of `c` are removed |
| Strings.LStripRun | src/ap_swarm_launcher/sitl.py:279 | stripping a run of `c` in front of a text that does not start with `c` gives that text |
| SimulatorArgs.HomeArg | src/ap_swarm_launcher/sitl.py:90 | the home argument is the position text, a comma, and the decimal heading |
| SimulatorArgs.HomeArgNotToken | src/ap_swarm_launcher/sitl.py:90 | the home argument always holds a comma, so it is never a comma-free flag |
| SimulatorArgs.UartFlag | src/ap_swarm_launcher/sitl.py:87-88 | a UART flag starts with `--uart` and is 7 characters longer than its identifier and role together |
| SimulatorArgs.UartFlagParts | src/ap_swarm_launcher/sitl.py:87-88 | after `--uart` a flag holds the identifier in upper case, then `=`, then the role |
| SimulatorArgs.UartFlags | src/ap_swarm_launcher/sitl.py:85-88 | one flag per UART entry, in the mapping's order |
| SimulatorArgs.UartFlagsSnoc | src/ap_swarm_launcher/sitl.py:86-88 | one more entry appends exactly its own flag |
| SimulatorArgs.ShortTokenNotUartFlag | src/ap_swarm_launcher/sitl.py:88 | two-letter flags such as `-C` and `-I` are never UART flags |
| SimulatorArgs.ArgsFor | src/ap_swarm_launcher/sitl.py:70-72 | the builder fails exactly when an index is given and is negative |
| SimulatorArgs.ArgsShape | src/ap_swarm_launcher/sitl.py:68-98 | every argument list starts with `-M model --disable-fgview`, then `-I index` when there is an index; it ends with the UART flags in order, then `--home`, the home text, `--speedup` and the factor |
| SimulatorArgs.ArgsMiddle | src/ap_swarm_launcher/sitl.py:70-83 | between the fixed head and the UART flags come exactly, in this order, `-I <index>` when an index is given, `-C` when the console is used, `--defaults <file>` when a parameter file is given and `--rc-in-port <port>` when an RC input port is given |
| SimulatorArgs.ArgsForIndexedDefaults | src/ap_swarm_launcher/sitl.py:70-83 | with an index, a parameter file, no console and no RC port, the optional part is exactly `-I <index> --defaults <file>` |
| SimulatorArgs.AppendUartFlags | src/ap_swarm_launcher/sitl.py:85-88 | the UART loop appends the flags of all entries, in order, to what was built so far |
| SimulatorArgs.CreateArgsForSimulator | src/ap_swarm_launcher/sitl.py:36-98 | the step-by-step builder returns the list `ArgsFor` specifies, or the negative-index error |
| SimulatorArgs.IntToStringNotFlag | src/ap_swarm_launcher/sitl.py:83 | the decimal rendering of an integer is never a flag like `-C` or `-I` |
| SimulatorArgs.ConsoleFlagIffUseConsole | src/ap_swarm_launcher/sitl.py:76-77 | `-C` is among the arguments exactly when console mode is asked for, given caller text other than `-C` |
| SimulatorArgs.NoIndexNoIndexFlag | src/ap_swarm_launcher/sitl.py:70-74 | without an index, `-I` is not among the arguments, given caller text other than `-I` |
| SimulatorArgs.StartSimulator | src/ap_swarm_launcher/sitl.py:127-145 | the runner receives the executable followed by the built arguments, the name, daemon mode and the working directory; stdin is used exactly when `-C` is an argument, and output is streamed exactly when it is not; a builder error is passed on |
| SimulatorArgs.StdioFollowsConsole | src/ap_swarm_launcher/sitl.py:133-134 | with no caller text equal to `-C`, stdin is used exactly in console mode |
| SimulatorArgs.ConsoleTokenInModel | src/ap_swarm_launcher/sitl.py:133-134 | a model named `-C` turns stdin on although console mode is off |
| ParamFile.Resolve | src/ap_swarm_launcher/sitl.py:276-282 | a string is an `embedded://` resource exactly when it has the scheme, and a path otherwise; a path object is a path; pairs and `None` keep their kind |
| ParamFile.ResolveEmbedded | src/ap_swarm_launcher/sitl.py:276-280 | an `embedded://` string names the resource after the scheme, however many slashes follow it |
| ParamFile.PairLine | src/ap_swarm_launcher/sitl.py:286 | a name/value pair writes the name, a tab, the value and a newline |
| ParamFile.ChunksOf | src/ap_swarm_launcher/sitl.py:284-293 | a source fails exactly when its file or resource is missing; a readable file writes exactly its content from the environment then a newline, a readable resource likewise; a name/value pair writes exactly its `PairLine`; `None` writes nothing |
| ParamFile.ChunksEndLine | src/ap_swarm_launcher/sitl.py:284-293 | what a readable source writes is empty or ends with a newline |
| ParamFile.SourceChunks | src/ap_swarm_launcher/sitl.py:275-293 | the sources' chunks in list order, up to the first unreadable source; its properties are the lemmas on the next rows |
| ParamFile.SourceChunksSucceedIff | src/ap_swarm_launcher/sitl.py:275-293 | the sources are written in full exactly when every source can be read |
| ParamFile.SysIdLine | src/ap_swarm_launcher/sitl.py:295 | the system id line is `SYSID_THISMAV`, a tab, the drone's index in decimal and a newline |
| ParamFile.SysIdLinesDistinct | src/ap_swarm_launcher/sitl.py:295 | different drones get different system id lines |
| ParamFile.ComputedLines | src/ap_swarm_launcher/sitl.py:295-307 | the computed part is the system id line first, then `SERIAL1_PROTOCOL` and `SERIAL1_OPTIONS` with multicast, then `SERIAL2_PROTOCOL` last with a TCP port; nothing else |
| ParamFile.ParamFileChunks | src/ap_swarm_launcher/sitl.py:274-307 | the whole file fails with exactly the sources' error; `Swarm.LaunchFailsIffSourceUnreadable` states its chunks |
| ParamFile.ComputedLinesContent | src/ap_swarm_launcher/sitl.py:297-307 | the two multicast lines are there exactly with multicast, and the TCP serial line exactly with a TCP port |
| ParamFile.SourceChunksSnoc | src/ap_swarm_launcher/sitl.py:275-293 | one more source adds its chunks, or records its error, unless writing has stopped already |
| ParamFile.SourceChunksAppend | src/ap_swarm_launcher/sitl.py:275-293 | after an unreadable source nothing more is written; otherwise two runs of sources write one after the other |
| ParamFile.SourceInOrder | src/ap_swarm_launcher/sitl.py:275-293 | a readable source's chunks come right after those of the sources before it |
| ParamFile.WriteSources | src/ap_swarm_launcher/sitl.py:275-293 | the loop over the sources produces their chunks, or the chunks before the first unreadable source and its error |
| ParamFile.WriteParamFile | src/ap_swarm_launcher/sitl.py:274-307 | writing the file produces the sources' chunks then the computed lines, or the chunks before the first unreadable source and its error |
| ParamFile.ConcatAppend | src/ap_swarm_launcher/sitl.py:274-307 | the file's text is the texts of its chunks one after the other |
| ParamFile.SourceTextEndsLine | src/ap_swarm_launcher/sitl.py:284-293 | every source ends its text with a newline |
| ParamFile.ComputedLinesStartFreshLine | src/ap_swarm_launcher/sitl.py:295 | the computed lines follow all caller sources and start on a line of their own, with `SYSID_THISMAV` |
| Identity.NormalizeBasePort | src/ap_swarm_launcher/sitl.py:199 | no base port is stored exactly when the given one is falsy; otherwise it is stored as given |
| Identity.TcpPortFor | src/ap_swarm_launcher/sitl.py:270 | a port exists exactly when the base is truthy, and it is the base shifted by the index minus 1 |
| Identity.TcpPortsDistinct | src/ap_swarm_launcher/sitl.py:270 | different indices get different ports |
| Identity.PositiveBaseGivesPort | src/ap_swarm_launcher/sitl.py:270 | with a positive base every drone has a truthy port at or above the base |
| Identity.BasePort5760 | src/ap_swarm_launcher/sitl.py:270 | the first three drones with base 5760 get 5760, 5761 and 5762 |
| Identity.ZeroPortIsFalsy | src/ap_swarm_launcher/sitl.py:304 | base -1 gives drone 2 the port 0, which counts as no TCP port |
| Identity.DroneId | src/ap_swarm_launcher/sitl.py:264 | the drone id is all digits, exactly max(3, digit count of the index) long, and reads back as the index |
| Identity.DroneIdsDistinct | src/ap_swarm_launcher/sitl.py:264 | different indices get different drone ids |
| Identity.DroneIdExamples | src/ap_swarm_launcher/sitl.py:264 | 1 gives `001`, 42 gives `042`, 1234 gives `1234` |
| Identity.NormalizeHeading | src/ap_swarm_launcher/sitl.py:206-207 | the stored default heading is in [0, 360) and differs from the given one by a multiple of 360 |
| Identity.NormalizeHeadingExamples | src/ap_swarm_launcher/sitl.py:206-207 | 370 is stored as 10 and -90 as 270 |
| Identity.UartRoles | src/ap_swarm_launcher/sitl.py:320-331 | the UART map has exactly the entries `A`, `C`, `D`, in that order |
| Identity.TcpUartIff | src/ap_swarm_launcher/sitl.py:330 | UART `D` serves TCP port `p` exactly when the drone's port is the truthy `p` |
| Identity.MulticastUartIff | src/ap_swarm_launcher/sitl.py:325-329 | UART `C` listens on address `a` exactly when the multicast address is the non-empty `a` |
| Swarm.JoinParts | src/ap_swarm_launcher/sitl.py:265-268 | `dir / name` is the directory, a `/` and the name |
| Swarm.JoinInjective | src/ap_swarm_launcher/sitl.py:265 | joining different names to one directory gives different paths |
| Swarm.DroneDirParts | src/ap_swarm_launcher/sitl.py:265 | the drone's directory is the swarm's directory, `/drones/`, and the drone id |
| Swarm.DroneDirsDistinct | src/ap_swarm_launcher/sitl.py:264-265 | different drones of a swarm get different directories |
| Swarm.EffectiveHeading | src/ap_swarm_launcher/sitl.py:260 | the drone's own heading when given, the swarm's default otherwise |
| Swarm.DroneOptions | src/ap_swarm_launcher/sitl.py:311-331 | the builder gets the model `quad`, the drone's parameter file, no console, no RC port, speed-up 1, the home and heading, and the index minus 1 |
| Swarm.DroneRequest | src/ap_swarm_launcher/sitl.py:127-145 | the request for a drone is named by its index, is a daemon, runs in `<dir>/fs`, and streams output exactly when it does not use stdin |
| Swarm.DroneLaunchFor | src/ap_swarm_launcher/sitl.py:262-334 | a failed start is an unreadable source; a successful one records the index, the drone's directory and its request |
| Swarm.LaunchDrone | src/ap_swarm_launcher/sitl.py:264-334 | the steps after the index is taken (names, parameter file, UART map, `start_simulator`) produce exactly `DroneLaunchFor` |
| Swarm.CountUp | src/ap_swarm_launcher/sitl.py:215 | `count(1)` after n steps has handed out only 1..n, and its next step keeps that pattern |
| Swarm.LaunchFailsIffSourceUnreadable | src/ap_swarm_launcher/sitl.py:274-307 | a drone start fails exactly when a parameter source cannot be read, with that source's error; otherwise the file is the sources' chunks then the computed lines |
| Swarm.DroneCommandLine | src/ap_swarm_launcher/sitl.py:311-331 | a drone's process is named by its index and runs in `<dir>/fs`; its command line is the executable, `-M quad --disable-fgview`, `-I index-1`, `--defaults <dir>/default.param`, the UART flags, the home with the heading, and `--speedup 1` |
| Swarm.DroneUartFlags | src/ap_swarm_launcher/sitl.py:320-331 | a drone's UART flags are `--uartA=udpclient:<gcs>`, the multicast or UDP fallback on `C`, and the TCP or UDP fallback on `D` |
| Swarm.DroneIndexArg | src/ap_swarm_launcher/sitl.py:318 | the simulator index argument of drone `n` is `n - 1` |
| Swarm.DroneStdio | src/ap_swarm_launcher/sitl.py:133-134 | a drone never uses stdin and always streams its output, unless the executable path is itself `-C` |
| Swarm.LaunchesDistinct | src/ap_swarm_launcher/sitl.py:262-270 | two drones never share a directory, a process name, a simulator index or, when a base port is set, a TCP port |
| Swarm.SimulatedDroneSwarm.constructor | src/ap_swarm_launcher/sitl.py:196-219 | falsy `dir`, `params` and base port are dropped; the default heading is normalised or taken from the orientation; the counter starts at 1; the swarm is not in use |
| Swarm.SimulatedDroneSwarm.EnterUse | src/ap_swarm_launcher/sitl.py:226-228 | entering `use()` sets the nursery, the runner and the working directory (the configured one, else a temporary one) and keeps the counter |
| Swarm.SimulatedDroneSwarm.ExitUse | src/ap_swarm_launcher/sitl.py:231-234 | leaving `use()` clears the three fields and keeps the counter |
| Swarm.SimulatedDroneSwarm.RequestStop | src/ap_swarm_launcher/sitl.py:236-241 | the runner is asked to stop exactly when it is set, and the nursery cancelled exactly when it is set, in that order |
| Swarm.SimulatedDroneSwarm.StartSimulatedDrone | src/ap_swarm_launcher/sitl.py:243-334 | outside `use()` the call fails and changes nothing; inside, it takes the next index, which was never handed out before, and its result is `DroneLaunchFor` of that index |
| Swarm.SimulatedDroneSwarmContext.constructor | src/ap_swarm_launcher/sitl.py:351-352 | the context holds the swarm it was made for |
| Swarm.SimulatedDroneSwarmContext.AddDrone | src/ap_swarm_launcher/sitl.py:354-367 | adding a drone starts one drone of the swarm, as `StartSimulatedDrone` states |
| Swarm.SimulatedDroneSwarmContext.RequestStop | src/ap_swarm_launcher/sitl.py:369-373 | asking the context to stop forwards to the swarm: at most two calls, the runner asked to stop exactly when set, the nursery cancelled exactly when set, the runner first |

## Left out

- The coordinate system and `to_gps` are not modelled. The geodetic home reaches the model as
  the text already rendered, and the coordinate transform is not part of this model.
- Floating point is not modelled. `f"{lat:.7f}"`-style formatting is not modelled. Headings are
  whole degrees, so `int(heading)` and `float(...) % 360` act on integers. The speed-up factor is
  its rendered text (`"1"` for drones).
- Directory creation (`mkdir`), opening `default.param`, and copying into it
  (`copy_file_async`) are not modelled as I/O. The file is the sequence of chunks written, and
  the readable files are the `Env` maps. The UTF-8 encoding of the written lines is not
  modelled.
- Swarm.SimulatedDroneSwarm.StartSimulatedDrone: a failed start does not model the partial
  `default.param` left on disk.
- `use_embedded_param_file` and `importlib.resources` are not modelled. An embedded resource
  is looked up by name in `Env.resources`.
- Swarm.SimulatedDroneSwarm.EnterUse: entering `use()` cannot fail in the model. In the code,
  if making the working directory or starting `AsyncProcessRunner` raises, the `finally` block
  is never reached. `_nursery` stays set after that, and so does `_swarm_dir` when only the
  runner fails. A later `_request_stop` would then cancel that stale nursery. The model does not
  capture this state.
- `maybe_temporary_working_directory` is given as the temporary directory's path, passed to
  `EnterUse`. Making and deleting that directory is not modelled.
- The constructor's keyword defaults, such as the ground station address `127.0.0.1:14550`, are
  not modelled. `SwarmConfig` receives every value explicitly.
- trio, the nursery, `AsyncProcessRunner` and cancellation are opaque handles. `_request_stop`
  returns the calls it would make. The runner's `start` is the `StartRequest` it receives.
- Concurrency is not modelled. Concurrent `add_drone` calls and the atomicity of the counter are
  outside the model; each method runs to completion.
- Swarm.Join: writes `dir/name` without the path normalisation `pathlib` does. A `Path` is
  always truthy, so `--defaults` is always present for drones.
- Strings.Upper: upper-cases ASCII letters only. Python's `str.upper()` also maps non-ASCII
  letters.
- Swarm.SimulatedDroneSwarm.StartSimulatedDrone: models the two `assert` statements as enabled.
  Under `python -O` they are skipped and the call would fail later instead.
- Only the options `_start_simulated_drone` uses from the `start_simulator` keywords reach the
  builder. All other keyword forwarding is the `SimulatorOptions` record.
