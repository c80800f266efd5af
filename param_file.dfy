/** The composition of a drone's `default.param` file: the swarm's parameter sources in order,
    then the lines the launcher computes for the drone. */
module ParamFile {
  import opened Wrappers
  import opened Decimal
  import opened Strings

  /** One entry of the swarm's `params` list: a string (a path, or an `embedded://` reference to
      a parameter file shipped with the package), a path object, a name/value pair, or `None`.
      The value of a pair is held as the text Python renders for it. */
  datatype ParamSource =
    | Text(text: string)
    | PathSource(path: string)
    | Pair(name: string, value: string)
    | NoSource

  /** What a source stands for once its kind is decided. */
  datatype Resolved =
    | FileAt(path: string)
    | Resource(name: string)
    | Line(name: string, value: string)
    | Skip

  /** A source whose content cannot be read: the error aborts the drone's start. */
  datatype ParamError = MissingFile(path: string) | MissingResource(name: string)

  /** The readable files and the embedded resources, by path and by name. */
  datatype Env = Env(files: map<string, string>, resources: map<string, string>)

  const EmbeddedScheme := "embedded://"

  /** Strings with the `embedded://` scheme name a packaged resource (leading slashes of the
      rest dropped); every other string is a path. */
  function Resolve(src: ParamSource): (r: Resolved)
    ensures src.Text? ==> (r.Resource? <==> EmbeddedScheme <= src.text)
    ensures src.Text? && !(EmbeddedScheme <= src.text) ==> r == FileAt(src.text)
    ensures src.PathSource? ==> r == FileAt(src.path)
    ensures r.Line? <==> src.Pair?
    ensures r.Skip? <==> src.NoSource?
  {
    match src
    case Text(s) =>
      if EmbeddedScheme <= s then Resource(LStrip(s[|EmbeddedScheme|..], '/')) else FileAt(s)
    case PathSource(p) => FileAt(p)
    case Pair(n, v) => Line(n, v)
    case NoSource => Skip
  }

  /** An `embedded://` reference names the resource written after the scheme, however many
      slashes precede the name; a string without the scheme is read as a path. */
  lemma ResolveEmbedded(slashes: nat, name: string)
    requires name == [] || name[0] != '/'
    ensures Resolve(Text(EmbeddedScheme + Repeat('/', slashes) + name)) == Resource(name)
  {
    var s := EmbeddedScheme + Repeat('/', slashes) + name;
    assert EmbeddedScheme <= s;
    assert s[|EmbeddedScheme|..] == Repeat('/', slashes) + name;
    LStripRun('/', slashes, name);
  }

  /** The line written for a name/value pair: name, a tab, the value, a newline. */
  function PairLine(name: string, value: string): (line: string)
    ensures |line| == |name| + |value| + 2
    ensures line[..|name|] == name && line[|name|] == '\t'
    ensures line[|name| + 1..|line| - 1] == value && line[|line| - 1] == '\n'
  {
    name + "\t" + value + "\n"
  }

  /** The chunks one source writes: a file's or a resource's whole content then a newline, a
      pair's line, or nothing for `None`. */
  function ChunksOf(r: Resolved, env: Env): (c: Result<seq<string>, ParamError>)
    ensures c.Failure? <==> (r.FileAt? && r.path !in env.files) || (r.Resource? && r.name !in env.resources)
    ensures c.Success? && (r.FileAt? || r.Resource?) ==> |c.value| == 2 && c.value[1] == "\n"
    ensures r.FileAt? && r.path in env.files ==> c == Success([env.files[r.path], "\n"])
    ensures r.Resource? && r.name in env.resources ==> c == Success([env.resources[r.name], "\n"])
    ensures r.Line? ==> c == Success([PairLine(r.name, r.value)])
    ensures r.Skip? ==> c == Success([])
  {
    match r
    case FileAt(p) => if p in env.files then Success([env.files[p], "\n"]) else Failure(MissingFile(p))
    case Resource(n) =>
      if n in env.resources then Success([env.resources[n], "\n"]) else Failure(MissingResource(n))
    case Line(n, v) => Success([PairLine(n, v)])
    case Skip => Success([])
  }

  /** What the file holds: the chunks written, and the error that stopped the writing, if any. */
  datatype Written = Written(chunks: seq<string>, error: Option<ParamError>)

  /** The chunks the sources write, in list order, up to the first one that cannot be read. */
  function SourceChunks(srcs: seq<ParamSource>, env: Env): Written
    decreases |srcs|
  {
    if srcs == [] then Written([], None)
    else
      match ChunksOf(Resolve(srcs[|srcs| - 1]), env)
      case Failure(e) =>
        var before := SourceChunks(srcs[..|srcs| - 1], env);
        if before.error.Some? then before else Written(before.chunks, Some(e))
      case Success(c) =>
        var before := SourceChunks(srcs[..|srcs| - 1], env);
        if before.error.Some? then before else Written(before.chunks + c, None)
  }

  const Serial1Protocol := "SERIAL1_PROTOCOL\t2\n"
  const Serial1Options := "SERIAL1_OPTIONS\t1024\n"
  const Serial2Protocol := "SERIAL2_PROTOCOL\t2\n"

  /** The lines the launcher adds for a drone: its system id, the multicast serial port when a
      multicast address is set, the TCP serial port when the drone has a TCP port. */
  function ComputedLines(index: nat, multicast: bool, tcp: bool): (lines: seq<string>)
    ensures |lines| == 1 + (if multicast then 2 else 0) + (if tcp then 1 else 0)
    ensures lines[0] == SysIdLine(index)
    ensures multicast ==> lines[1] == Serial1Protocol && lines[2] == Serial1Options
    ensures tcp ==> lines[|lines| - 1] == Serial2Protocol
  {
    [SysIdLine(index)]
    + (if multicast then [Serial1Protocol, Serial1Options] else [])
    + (if tcp then [Serial2Protocol] else [])
  }

  /** The system id line: the drone's index as the MAVLink system id. */
  function SysIdLine(index: nat): (line: string)
    ensures |line| > 14 && line[..14] == "SYSID_THISMAV\t"
    ensures line[14..|line| - 1] == NatToString(index) && line[|line| - 1] == '\n'
  {
    "SYSID_THISMAV\t" + NatToString(index) + "\n"
  }

  /** Different drones get different system ids. */
  lemma SysIdLinesDistinct(i: nat, j: nat)
    requires i != j
    ensures SysIdLine(i) != SysIdLine(j)
  {
    NatToStringInjective(i, j);
  }

  /** The system id line is always there; the two multicast lines are there exactly when a
      multicast address is set, the TCP serial line exactly when the drone has a TCP port. */
  lemma ComputedLinesContent(index: nat, multicast: bool, tcp: bool)
    ensures var lines := ComputedLines(index, multicast, tcp);
      && SysIdLine(index) in lines
      && (multicast <==> Serial1Protocol in lines)
      && (multicast <==> Serial1Options in lines)
      && (tcp <==> Serial2Protocol in lines)
  {
    var lines := ComputedLines(index, multicast, tcp);
    var sys := SysIdLine(index);
    assert sys[1] == 'Y';
    assert Serial1Protocol[1] == 'E' && Serial1Options[1] == 'E' && Serial2Protocol[1] == 'E';
    assert Serial1Protocol[6] == '1' && Serial1Options[6] == '1' && Serial2Protocol[6] == '2';
    assert Serial1Protocol[8] == 'P' && Serial1Options[8] == 'O';
  }

  /** The whole file: the sources' chunks then the computed lines, or, when a source cannot be
      read, the chunks written before it and the error. */
  function ParamFileChunks(srcs: seq<ParamSource>, env: Env, index: nat, multicast: bool, tcp: bool): (w: Written)
    ensures w.error == SourceChunks(srcs, env).error
  {
    var w := SourceChunks(srcs, env);
    if w.error.Some? then w else Written(w.chunks + ComputedLines(index, multicast, tcp), None)
  }

  /** One more source: its chunks follow, unless writing has already stopped or it cannot be read. */
  lemma SourceChunksSnoc(srcs: seq<ParamSource>, src: ParamSource, env: Env)
    ensures var before := SourceChunks(srcs, env);
      var own := ChunksOf(Resolve(src), env);
      SourceChunks(srcs + [src], env) ==
        if before.error.Some? then before
        else if own.Failure? then Written(before.chunks, Some(own.error))
        else Written(before.chunks + own.value, None)
  {
    var t := srcs + [src];
    assert t[..|t| - 1] == srcs;
    assert t[|t| - 1] == src;
  }

  /** The sources are written in full exactly when every one of them can be read. */
  lemma {:induction false} SourceChunksSucceedIff(srcs: seq<ParamSource>, env: Env)
    ensures SourceChunks(srcs, env).error.None? <==>
            forall k :: 0 <= k < |srcs| ==> ChunksOf(Resolve(srcs[k]), env).Success?
    decreases |srcs|
  {
    if srcs != [] {
      var init := srcs[..|srcs| - 1];
      var last := srcs[|srcs| - 1];
      SourceChunksSucceedIff(init, env);
      assert init + [last] == srcs;
      SourceChunksSnoc(init, last, env);
      assert forall k :: 0 <= k < |init| ==> init[k] == srcs[k];
    }
  }

  /** Writing stops at the first unreadable source: what the sources after it would add is lost. */
  lemma {:induction false} SourceChunksAppend(a: seq<ParamSource>, b: seq<ParamSource>, env: Env)
    ensures SourceChunks(a, env).error.Some? ==> SourceChunks(a + b, env) == SourceChunks(a, env)
    ensures SourceChunks(a, env).error.None? ==>
      SourceChunks(a + b, env) ==
      Written(SourceChunks(a, env).chunks + SourceChunks(b, env).chunks, SourceChunks(b, env).error)
    decreases |b|
  {
    if b == [] {
      assert a + b == a;
    } else {
      var init := b[..|b| - 1];
      var last := b[|b| - 1];
      assert a + b == (a + init) + [last];
      assert b == init + [last];
      SourceChunksAppend(a, init, env);
      SourceChunksSnoc(a + init, last, env);
      SourceChunksSnoc(init, last, env);
    }
  }

  /** The loop over the swarm's sources: each source in turn; an unreadable one ends the writing
      with its error. */
  method WriteSources(srcs: seq<ParamSource>, env: Env) returns (chunks: seq<string>, error: Option<ParamError>)
    ensures Written(chunks, error) == SourceChunks(srcs, env)
  {
    chunks := [];
    var i := 0;
    while i < |srcs|
      invariant 0 <= i <= |srcs|
      invariant SourceChunks(srcs[..i], env) == Written(chunks, None)
    {
      assert srcs[..i + 1][..i] == srcs[..i];
      match ChunksOf(Resolve(srcs[i]), env)
      case Failure(e) =>
        assert SourceChunks(srcs[..i + 1], env) == Written(chunks, Some(e));
        SourceChunksAppend(srcs[..i + 1], srcs[i + 1..], env);
        assert srcs[..i + 1] + srcs[i + 1..] == srcs;
        return chunks, Some(e);
      case Success(c) =>
        chunks := chunks + c;
      i := i + 1;
    }
    assert srcs[..i] == srcs;
    error := None;
  }

  /** Writes the file as `_start_simulated_drone` does: the sources, then the computed lines. */
  method WriteParamFile(srcs: seq<ParamSource>, env: Env, index: nat, multicast: bool, tcp: bool)
    returns (chunks: seq<string>, error: Option<ParamError>)
    ensures Written(chunks, error) == ParamFileChunks(srcs, env, index, multicast, tcp)
  {
    chunks, error := WriteSources(srcs, env);
    if error.Some? {
      return;
    }
    ghost var sources := chunks;
    chunks := chunks + ["SYSID_THISMAV\t" + NatToString(index) + "\n"];
    if multicast {
      chunks := chunks + [Serial1Protocol];
      chunks := chunks + [Serial1Options];
    }
    if tcp {
      chunks := chunks + [Serial2Protocol];
    }
    assert chunks == sources + ComputedLines(index, multicast, tcp);
  }

  /** A source that reads fine contributes its chunks right after those of the sources before it:
      the file follows the order of the list. */
  lemma SourceInOrder(a: seq<ParamSource>, src: ParamSource, b: seq<ParamSource>, env: Env)
    requires SourceChunks(a, env).error.None?
    requires ChunksOf(Resolve(src), env).Success?
    ensures var w := SourceChunks(a + [src] + b, env);
      var before := SourceChunks(a, env).chunks;
      var own := ChunksOf(Resolve(src), env).value;
      |w.chunks| >= |before| + |own| && w.chunks[..|before| + |own|] == before + own
  {
    SourceChunksAppend(a, [src], env);
    assert SourceChunks([src], env) == Written(ChunksOf(Resolve(src), env).value, None) by {
      assert [src][..0] == [];
    }
    SourceChunksAppend(a + [src], b, env);
  }

  /** The text of a sequence of chunks, in order. */
  function Concat(chunks: seq<string>): string {
    if chunks == [] then [] else Concat(chunks[..|chunks| - 1]) + chunks[|chunks| - 1]
  }

  lemma {:induction false} ConcatAppend(a: seq<string>, b: seq<string>)
    ensures Concat(a + b) == Concat(a) + Concat(b)
    decreases |b|
  {
    if b == [] {
      assert a + b == a;
    } else {
      assert (a + b)[..|a + b| - 1] == a + b[..|b| - 1];
      ConcatAppend(a, b[..|b| - 1]);
    }
  }

  predicate EndsLine(t: string) {
    t == [] || t[|t| - 1] == '\n'
  }

  /** Every source ends what it writes with a newline, so the sources' text ends at a line break. */
  lemma {:induction false} SourceTextEndsLine(srcs: seq<ParamSource>, env: Env)
    ensures EndsLine(Concat(SourceChunks(srcs, env).chunks))
    decreases |srcs|
  {
    if srcs != [] {
      var init := srcs[..|srcs| - 1];
      var last := srcs[|srcs| - 1];
      assert init + [last] == srcs;
      SourceTextEndsLine(init, env);
      SourceChunksSnoc(init, last, env);
      var before := SourceChunks(init, env);
      var r := ChunksOf(Resolve(last), env);
      if r.Success? && before.error.None? {
        var c := r.value;
        ConcatAppend(before.chunks, c);
        assert EndsLine(Concat(c)) by {
          ChunksEndLine(Resolve(last), env);
        }
      }
    }
  }

  /** What one readable source writes ends with a newline, or is empty. */
  lemma ChunksEndLine(r: Resolved, env: Env)
    requires ChunksOf(r, env).Success?
    ensures EndsLine(Concat(ChunksOf(r, env).value))
  {
    var c := ChunksOf(r, env).value;
    if c != [] {
      assert Concat(c) == Concat(c[..|c| - 1]) + c[|c| - 1];
      if r.Line? {
        assert c[|c| - 1] == PairLine(r.name, r.value);
      }
    }
  }

  /** The computed lines come after every caller source and start on a line of their own: the
      text of the file is the sources' text, ending at a line break, followed by the computed lines,
      the first of which sets SYSID_THISMAV. */
  lemma ComputedLinesStartFreshLine(srcs: seq<ParamSource>, env: Env, index: nat, multicast: bool, tcp: bool)
    requires SourceChunks(srcs, env).error.None?
    ensures var text := Concat(ParamFileChunks(srcs, env, index, multicast, tcp).chunks);
      var callers := Concat(SourceChunks(srcs, env).chunks);
      var computed := Concat(ComputedLines(index, multicast, tcp));
      && text == callers + computed
      && EndsLine(callers)
      && |computed| > 14 && computed[..14] == "SYSID_THISMAV\t"
  {
    var lines := ComputedLines(index, multicast, tcp);
    ConcatAppend(SourceChunks(srcs, env).chunks, lines);
    SourceTextEndsLine(srcs, env);
    ConcatAppend([lines[0]], lines[1..]);
    assert [lines[0]] + lines[1..] == lines;
    assert Concat([lines[0]]) == lines[0] by {
      assert [lines[0]][..0] == [];
    }
  }
}
