/** The simulator's command line: `create_args_for_simulator` and the standard input and
    output choice `start_simulator` derives from it. */
module SimulatorArgs {
  import opened Wrappers
  import opened Decimal
  import opened Strings

  /** The `ValueError` raised for a negative drone index. */
  datatype ArgsError = NegativeIndex

  /** The keyword arguments of `create_args_for_simulator`. `home` is the rendered latitude,
      longitude and altitude ("lat,lon,amsl"); `speedup` is the rendered speed-up factor. */
  datatype SimulatorOptions = SimulatorOptions(
    model: string,
    paramFile: Option<string>,
    useConsole: bool,
    home: string,
    heading: int,
    index: Option<int>,
    uarts: seq<(string, string)>,
    rcInputPort: Option<int>,
    speedup: string)

  /** The model used when the caller names none. */
  const DefaultModel := "quad"

  /** Python truthiness of an optional path: `None` and the empty string are false. */
  predicate PathGiven(p: Option<string>) {
    p.Some? && p.value != ""
  }

  /** The value of `--home`: position, then the heading in whole degrees. */
  function HomeArg(home: string, heading: int): (r: string)
    ensures |r| == |home| + 1 + |IntToString(heading)|
    ensures r[..|home|] == home && r[|home|] == ','
    ensures r[|home| + 1..] == IntToString(heading)
  {
    home + "," + IntToString(heading)
  }

  /** The flag for one UART: its identifier in upper case, then its role. */
  function UartFlag(id: string, role: string): (r: string)
    ensures |r| == 7 + |id| + |role| && r[..6] == "--uart"
  {
    "--uart" + Upper(id) + "=" + role
  }

  /** After `--uart` a UART flag holds the identifier in upper case, then `=`, then the role. */
  lemma UartFlagParts(id: string, role: string)
    ensures var r := UartFlag(id, role);
      r[6..6 + |id|] == Upper(id) && r[6 + |id|] == '=' && r[7 + |id|..] == role
  {
    var r := UartFlag(id, role);
    assert r == "--uart" + Upper(id) + "=" + role;
  }

  /** One flag per UART entry, in the order of the mapping. */
  function UartFlags(uarts: seq<(string, string)>): (r: seq<string>)
    ensures |r| == |uarts|
    ensures forall i :: 0 <= i < |uarts| ==> r[i] == UartFlag(uarts[i].0, uarts[i].1)
  {
    if uarts == [] then [] else [UartFlag(uarts[0].0, uarts[0].1)] + UartFlags(uarts[1..])
  }

  function IndexArgs(index: Option<int>): seq<string>
    requires index.Some? ==> index.value >= 0
  {
    if index.Some? then ["-I", NatToString(index.value)] else []
  }

  function ConsoleArgs(useConsole: bool): seq<string> {
    if useConsole then ["-C"] else []
  }

  function DefaultsArgs(paramFile: Option<string>): seq<string> {
    if PathGiven(paramFile) then ["--defaults", paramFile.value] else []
  }

  function RcInputArgs(rcInputPort: Option<int>): seq<string> {
    if rcInputPort.Some? then ["--rc-in-port", IntToString(rcInputPort.value)] else []
  }

  lemma UartFlagsSnoc(uarts: seq<(string, string)>, i: nat)
    requires i < |uarts|
    ensures UartFlags(uarts[..i + 1]) == UartFlags(uarts[..i]) + [UartFlag(uarts[i].0, uarts[i].1)]
  {
    var a := UartFlags(uarts[..i + 1]);
    var b := UartFlags(uarts[..i]) + [UartFlag(uarts[i].0, uarts[i].1)];
    assert |a| == |b|;
    forall k | 0 <= k < |a| ensures a[k] == b[k] {
      assert uarts[..i + 1][k] == uarts[k];
      if k < i {
        assert uarts[..i][k] == uarts[k];
      }
    }
  }

  /** The arguments that follow the fixed head and precede the UART flags. */
  function OptionalArgs(o: SimulatorOptions): seq<string>
    requires o.index.Some? ==> o.index.value >= 0
  {
    IndexArgs(o.index) + ConsoleArgs(o.useConsole) + DefaultsArgs(o.paramFile) + RcInputArgs(o.rcInputPort)
  }

  /** The argument vector for the given options, or the error for a negative index. */
  function ArgsFor(o: SimulatorOptions): (r: Result<seq<string>, ArgsError>)
    ensures r.Failure? <==> o.index.Some? && o.index.value < 0
  {
    if o.index.Some? && o.index.value < 0 then Failure(NegativeIndex)
    else
      Success(["-M", o.model, "--disable-fgview"] + OptionalArgs(o) + UartFlags(o.uarts)
              + ["--home", HomeArg(o.home, o.heading), "--speedup", o.speedup])
  }

  /** The shape of every argument vector: the fixed head `-M model --disable-fgview`, then
      `-I index` when an index is given, the UART flags in mapping order just before the fixed
      tail `--home <home> --speedup <factor>`, which is there whatever the factor. */
  lemma ArgsShape(o: SimulatorOptions)
    requires ArgsFor(o).Success?
    ensures var args := ArgsFor(o).value;
      var n := |args|;
      && n >= 7 + |o.uarts|
      && args[..3] == ["-M", o.model, "--disable-fgview"]
      && args[n - 4..] == ["--home", HomeArg(o.home, o.heading), "--speedup", o.speedup]
      && args[n - 4 - |o.uarts|..n - 4] == UartFlags(o.uarts)
      && (o.index.Some? ==> args[3..5] == ["-I", NatToString(o.index.value)])
  {
    var head := ["-M", o.model, "--disable-fgview"];
    var opt := OptionalArgs(o);
    var flags := UartFlags(o.uarts);
    var tail := ["--home", HomeArg(o.home, o.heading), "--speedup", o.speedup];
    var args := ArgsFor(o).value;
    assert args == head + opt + flags + tail;
    var n := |args|;
    assert args[..3] == head;
    assert args[n - 4..] == tail;
    assert args[n - 4 - |flags|..n - 4] == flags;
    if o.index.Some? {
      assert opt[..2] == ["-I", NatToString(o.index.value)];
      assert args[3..5] == opt[..2];
    }
  }

  /** Between the fixed head and the UART flags come, in this order: `-I <index>` when an index
      is given, `-C` when the console is used, `--defaults <file>` when a parameter file is
      given, and `--rc-in-port <port>` when an RC input port is given. */
  lemma ArgsMiddle(o: SimulatorOptions)
    requires ArgsFor(o).Success?
    ensures var args := ArgsFor(o).value;
      var n := |args|;
      && n >= 7 + |o.uarts|
      && args[3..n - 4 - |o.uarts|]
         == (if o.index.Some? then ["-I", NatToString(o.index.value)] else [])
            + (if o.useConsole then ["-C"] else [])
            + (if PathGiven(o.paramFile) then ["--defaults", o.paramFile.value] else [])
            + (if o.rcInputPort.Some? then ["--rc-in-port", IntToString(o.rcInputPort.value)] else [])
  {
    var head := ["-M", o.model, "--disable-fgview"];
    var opt := OptionalArgs(o);
    var flags := UartFlags(o.uarts);
    var tail := ["--home", HomeArg(o.home, o.heading), "--speedup", o.speedup];
    var args := ArgsFor(o).value;
    var a := head + opt;
    assert args == (a + flags) + tail;
    assert args[..|a|] == a;
    assert args[3..|a|] == a[3..];
    assert a[3..] == opt;
  }

  /** With an index, a parameter file, no console and no RC input port, the optional part is
      exactly `-I <index> --defaults <file>`. */
  lemma ArgsForIndexedDefaults(o: SimulatorOptions)
    requires o.index.Some? && o.index.value >= 0
    requires PathGiven(o.paramFile) && !o.useConsole && o.rcInputPort.None?
    ensures ArgsFor(o) == Success(["-M", o.model, "--disable-fgview"]
      + ["-I", NatToString(o.index.value), "--defaults", o.paramFile.value]
      + UartFlags(o.uarts) + ["--home", HomeArg(o.home, o.heading), "--speedup", o.speedup])
  {
    assert OptionalArgs(o) == ["-I", NatToString(o.index.value), "--defaults", o.paramFile.value];
  }

  /** The loop over the UART mapping: appends one `--uart<ID>=<role>` flag per entry, in order. */
  method AppendUartFlags(args: seq<string>, uarts: seq<(string, string)>) returns (result: seq<string>)
    ensures result == args + UartFlags(uarts)
  {
    result := args;
    var i := 0;
    while i < |uarts|
      invariant 0 <= i <= |uarts|
      invariant result == args + UartFlags(uarts[..i])
    {
      var (id, role) := uarts[i];
      result := result + ["--uart" + Upper(id) + "=" + role];
      UartFlagsSnoc(uarts, i);
      i := i + 1;
    }
    assert uarts[..i] == uarts;
  }

  /** Builds the argument list step by step, as `create_args_for_simulator` does. */
  method CreateArgsForSimulator(o: SimulatorOptions) returns (r: Result<seq<string>, ArgsError>)
    ensures r == ArgsFor(o)
  {
    var result := ["-M", o.model, "--disable-fgview"];
    ghost var start := result;
    if o.index.Some? {
      if o.index.value < 0 {
        return Failure(NegativeIndex);
      }
      result := result + ["-I", NatToString(o.index.value)];
    }
    if o.useConsole {
      result := result + ["-C"];
    }
    if PathGiven(o.paramFile) {
      result := result + ["--defaults", o.paramFile.value];
    }
    if o.rcInputPort.Some? {
      result := result + ["--rc-in-port", IntToString(o.rcInputPort.value)];
    }
    assert result == start + OptionalArgs(o);
    result := AppendUartFlags(result, o.uarts);
    ghost var flagged := result;
    assert flagged == start + OptionalArgs(o) + UartFlags(o.uarts);
    result := result + ["--home", HomeArg(o.home, o.heading)];
    result := result + ["--speedup", o.speedup];
    assert result == flagged + ["--home", HomeArg(o.home, o.heading), "--speedup", o.speedup];
    return Success(result);
  }

  /** No argument the builder writes itself reads as `tok` unless `tok` is one of its flags;
      the caller's free text (model, parameter file, speed-up) is the only other source. */
  predicate FreeTextAvoids(o: SimulatorOptions, tok: string) {
    && o.model != tok
    && (o.paramFile.Some? ==> o.paramFile.value != tok)
    && o.speedup != tok
  }

  /** A decimal or signed decimal rendering is never a flag that starts "-" and a letter. */
  lemma IntToStringNotFlag(i: int, letter: char)
    requires !IsDigit(letter)
    ensures IntToString(i) != ['-', letter]
  {
    var s := IntToString(i);
    if i < 0 {
      assert s[1..] == NatToString(-i);
      assert IsDigit(s[1]);
    } else {
      assert IsDigit(s[0]);
    }
  }

  /** A token shorter than any UART flag is none of them. */
  lemma ShortTokenNotUartFlag(uarts: seq<(string, string)>, tok: string)
    requires |tok| < 7
    ensures tok !in UartFlags(uarts)
  {
    var flags := UartFlags(uarts);
    forall k | 0 <= k < |flags| ensures flags[k] != tok {
      assert |flags[k]| >= 7;
    }
  }

  /** The home argument always holds a comma, so a token without one is not it. */
  lemma HomeArgNotToken(home: string, heading: int, tok: string)
    requires ',' !in tok
    ensures HomeArg(home, heading) != tok
  {
    var r := HomeArg(home, heading);
    assert r[|home|] == ',';
  }

  /** `-C` is among the arguments exactly when console mode is requested, provided the
      caller's free text is not itself `-C`. */
  lemma ConsoleFlagIffUseConsole(o: SimulatorOptions)
    requires ArgsFor(o).Success?
    requires FreeTextAvoids(o, "-C")
    ensures ("-C" in ArgsFor(o).value) <==> o.useConsole
  {
    var head := ["-M", o.model, "--disable-fgview"];
    var opt := OptionalArgs(o);
    var flags := UartFlags(o.uarts);
    var home := HomeArg(o.home, o.heading);
    var tail := ["--home", home, "--speedup", o.speedup];
    assert "-C" !in head by {
      assert "-M"[1] != "-C"[1];
    }
    assert ("-C" in opt) <==> o.useConsole by {
      assert opt == IndexArgs(o.index) + ConsoleArgs(o.useConsole) + DefaultsArgs(o.paramFile) + RcInputArgs(o.rcInputPort);
      if o.index.Some? {
        assert "-I"[1] != "-C"[1];
        assert IsDigit(NatToString(o.index.value)[0]);
      }
      if o.rcInputPort.Some? {
        IntToStringNotFlag(o.rcInputPort.value, 'C');
      }
    }
    ShortTokenNotUartFlag(o.uarts, "-C");
    assert "-C" !in tail by {
      HomeArgNotToken(o.home, o.heading, "-C");
    }
    assert ArgsFor(o).value == head + opt + flags + tail;
  }

  /** Without an index there is no `-I`, provided the caller's free text is not `-I`. */
  lemma NoIndexNoIndexFlag(o: SimulatorOptions)
    requires o.index.None?
    requires FreeTextAvoids(o, "-I")
    ensures "-I" !in ArgsFor(o).value
  {
    var head := ["-M", o.model, "--disable-fgview"];
    var opt := OptionalArgs(o);
    var flags := UartFlags(o.uarts);
    var home := HomeArg(o.home, o.heading);
    var tail := ["--home", home, "--speedup", o.speedup];
    assert "-I" !in head by {
      assert "-M"[1] != "-I"[1];
    }
    assert "-I" !in opt by {
      assert opt == IndexArgs(o.index) + ConsoleArgs(o.useConsole) + DefaultsArgs(o.paramFile) + RcInputArgs(o.rcInputPort);
      assert "-C"[1] != "-I"[1];
      if o.rcInputPort.Some? {
        IntToStringNotFlag(o.rcInputPort.value, 'I');
      }
    }
    ShortTokenNotUartFlag(o.uarts, "-I");
    assert "-I" !in tail by {
      HomeArgNotToken(o.home, o.heading, "-I");
    }
    assert ArgsFor(o).value == head + opt + flags + tail;
  }

  /** The request handed to the process runner by `start_simulator`. */
  datatype StartRequest = StartRequest(
    args: seq<string>,
    name: string,
    daemon: bool,
    cwd: Option<string>,
    streamStdout: bool,
    useStdin: bool)

  /** `start_simulator`: the executable followed by the builder's arguments; standard input is the
      control channel exactly when `-C` is among the arguments, and output is streamed otherwise. */
  method StartSimulator(executable: string, name: string, cwd: Option<string>, o: SimulatorOptions)
    returns (r: Result<StartRequest, ArgsError>)
    ensures r.Failure? <==> ArgsFor(o).Failure?
    ensures r.Failure? ==> r.error == ArgsFor(o).error
    ensures r.Success? ==>
      && r.value.args == [executable] + ArgsFor(o).value
      && r.value.name == name && r.value.daemon && r.value.cwd == cwd
      && r.value.useStdin == ("-C" in r.value.args)
      && r.value.streamStdout == !r.value.useStdin
  {
    var built := CreateArgsForSimulator(o);
    if built.Failure? {
      return Failure(built.error);
    }
    var args := [executable] + built.value;
    var streamStdout := "-C" !in args;
    var useStdin := "-C" in args;
    return Success(StartRequest(args, name, true, cwd, streamStdout, useStdin));
  }

  /** Console mode and streamed output exclude each other: with no free text (executable
      included) equal to `-C`, standard input is used exactly in console mode. */
  lemma StdioFollowsConsole(executable: string, o: SimulatorOptions)
    requires ArgsFor(o).Success?
    requires executable != "-C" && FreeTextAvoids(o, "-C")
    ensures ("-C" in [executable] + ArgsFor(o).value) <==> o.useConsole
  {
    ConsoleFlagIffUseConsole(o);
  }

  /** The membership test reads the caller's text too: a model named `-C` turns standard input on
      although console mode was not requested. */
  lemma ConsoleTokenInModel()
    ensures var o := SimulatorOptions("-C", None, false, "0,0,0", 0, Some(0), [], None, "1");
            "-C" in ArgsFor(o).value && !o.useConsole
  {
    var o := SimulatorOptions("-C", None, false, "0,0,0", 0, Some(0), [], None, "1");
    assert ArgsFor(o).value[1] == "-C";
  }
}
