/** The ffmpeg command line of the encode phase (src/execute.rs:370-449): the
    stream-copy concat demuxer by default, or the filter-graph re-encode when
    the plan carries the concat-filter flag. The argument list is built the way
    the executor pushes it; a reader turns it back into option/value pairs
    followed by the output path and `-y`, and the lemmas state which options
    each mode passes. */
module Argv {
  import opened Wrappers
  import opened PlanModel
  import opened FilterGraph
  import opened Audio
  import opened Catfile

  // ---------------------------------------------------------------------
  // The argument list, as the executor builds it

  /** The stream-copy mode: the catfile through the concat demuxer. */
  function ConcatArgv(catfile: string, target: string): seq<string>
  {
    ["-f", "concat", "-safe", "0", "-i", catfile, "-progress", "pipe:1", "-c", "copy", target, "-y"]
  }

  /** `-i <path>` for every source, in plan order. */
  function InputArgs(paths: seq<string>): seq<string>
  {
    if |paths| == 0 then [] else ["-i", paths[0]] + InputArgs(paths[1..])
  }

  /** The filter graph and the stream mapping of the two filter-graph branches. */
  function GraphArgs(graph: string, audio: bool): seq<string>
  {
    if audio then ["-filter_complex", graph, "-map", "[outv]", "-map", "[outa]", "-c:a", "aac", "-b:a", "128k"]
    else ["-filter_complex", graph, "-map", "[outv]"]
  }

  /** The re-encode mode. */
  function FilterArgv(paths: seq<string>, audio: bool, target: string): seq<string>
  {
    InputArgs(paths) + ["-vsync", "cfr", "-r", "30"] + GraphArgs(GraphText(|paths|, audio), audio)
    + ["-c:v", "libx264", "-preset", "medium", "-crf", "23", "-progress", "pipe:1"] + [target, "-y"]
  }

  function SourceLeavesOf(plan: Plan): seq<string>
  {
    seq(|plan.sources|, i requires 0 <= i < |plan.sources| => plan.sources[i].leaf)
  }

  /** The encode command for a plan: the audio decision is the tie-break over
      the plan's sources, and only the filter-graph mode looks at it. */
  function EncodeArgv(plan: Plan, verdicts: map<string, bool>, catfile: string): seq<string>
  {
    if UsesConcatFilter(plan.flags) then
      FilterArgv(SourcePathsOf(plan), AllHaveAudio(SourceLeavesOf(plan), verdicts), plan.target.path)
    else ConcatArgv(catfile, plan.target.path)
  }

  // ---------------------------------------------------------------------
  // Reading an argument list back

  /** An option with its value. */
  datatype Opt = Opt(name: string, value: string)

  /** The options in order, then the output file, then the overwrite switch. */
  datatype Invocation = Invocation(options: seq<Opt>, output: string)

  predicate IsOptionName(s: string) {
    |s| > 1 && s[0] == '-'
  }

  /** Each option as its name followed by its value. */
  function OptTokens(opts: seq<Opt>): seq<string>
  {
    seq(2 * |opts|, k requires 0 <= k < 2 * |opts| => if k % 2 == 0 then opts[k / 2].name else opts[k / 2].value)
  }

  function Tokens(inv: Invocation): seq<string>
  {
    OptTokens(inv.options) + [inv.output, "-y"]
  }

  /** Pairs up option names with the values that follow them. */
  function ReadOpts(toks: seq<string>): Option<seq<Opt>>
  {
    if |toks| == 0 then Some([])
    else if |toks| == 1 || !IsOptionName(toks[0]) then None
    else
      match ReadOpts(toks[2..])
      case None => None
      case Some(rest) => Some([Opt(toks[0], toks[1])] + rest)
  }

  /** An argument list is options, the output file, and `-y` last. */
  function ReadArgv(toks: seq<string>): Option<Invocation>
  {
    if |toks| < 2 || toks[|toks| - 1] != "-y" then None
    else
      match ReadOpts(toks[..|toks| - 2])
      case None => None
      case Some(opts) => Some(Invocation(opts, toks[|toks| - 2]))
  }

  /** The values given to one option, in order. */
  function ValuesOf(opts: seq<Opt>, name: string): seq<string>
  {
    if |opts| == 0 then []
    else (if opts[0].name == name then [opts[0].value] else []) + ValuesOf(opts[1..], name)
  }

  /** The value of `o` if it is the named option. */
  function ValueIf(o: Opt, name: string): seq<string>
  {
    if o.name == name then [o.value] else []
  }

  lemma ValuesOfCons(o: Opt, rest: seq<Opt>, name: string)
    ensures ValuesOf([o] + rest, name) == ValueIf(o, name) + ValuesOf(rest, name)
  {
    assert ([o] + rest)[1..] == rest;
  }

  lemma ValuesOfFour(a: Opt, b: Opt, c: Opt, d: Opt, name: string)
    ensures ValuesOf([a, b, c, d], name) == ValueIf(a, name) + ValueIf(b, name) + ValueIf(c, name) + ValueIf(d, name)
  {
    assert ValuesOf([d], name) == ValueIf(d, name) by {
      ValuesOfCons(d, [], name);
      assert [d] + [] == [d];
    }
    assert ValuesOf([c, d], name) == ValueIf(c, name) + ValueIf(d, name) by {
      ValuesOfCons(c, [d], name);
      assert [c] + [d] == [c, d];
    }
    assert ValuesOf([b, c, d], name) == ValueIf(b, name) + (ValueIf(c, name) + ValueIf(d, name)) by {
      ValuesOfCons(b, [c, d], name);
      assert [b] + [c, d] == [b, c, d];
    }
    assert ValuesOf([a, b, c, d], name) == ValueIf(a, name) + (ValueIf(b, name) + (ValueIf(c, name) + ValueIf(d, name))) by {
      ValuesOfCons(a, [b, c, d], name);
      assert [a] + [b, c, d] == [a, b, c, d];
    }
    Assoc4(ValueIf(a, name), ValueIf(b, name), ValueIf(c, name), ValueIf(d, name));
  }

  lemma Assoc4<T>(a: seq<T>, b: seq<T>, c: seq<T>, d: seq<T>)
    ensures a + (b + (c + d)) == a + b + c + d
  {
  }


  predicate WellNamed(opts: seq<Opt>) {
    forall i :: 0 <= i < |opts| ==> IsOptionName(opts[i].name)
  }

  lemma {:induction false} ReadOptsOf(opts: seq<Opt>)
    requires WellNamed(opts)
    ensures ReadOpts(OptTokens(opts)) == Some(opts)
  {
    if |opts| > 0 {
      ReadOptsOf(opts[1..]);
      var toks := OptTokens(opts);
      assert toks[2..] == OptTokens(opts[1..]);
      assert [opts[0]] + opts[1..] == opts;
    }
  }

  /** Reading the tokens of an invocation gives the invocation back. */
  lemma ReadArgvOf(inv: Invocation)
    requires WellNamed(inv.options)
    ensures ReadArgv(Tokens(inv)) == Some(inv)
  {
    var toks := Tokens(inv);
    assert toks[..|toks| - 2] == OptTokens(inv.options);
    ReadOptsOf(inv.options);
  }

  lemma OptTokensAppend(a: seq<Opt>, b: seq<Opt>)
    ensures OptTokens(a + b) == OptTokens(a) + OptTokens(b)
  {
    forall k | 2 * |a| <= k < 2 * |a + b|
      ensures OptTokens(a + b)[k] == OptTokens(b)[k - 2 * |a|]
    {
      assert (k - 2 * |a|) / 2 == k / 2 - |a|;
      assert (k - 2 * |a|) % 2 == k % 2;
    }
  }

  lemma {:induction false} ValuesOfAppend(a: seq<Opt>, b: seq<Opt>, name: string)
    ensures ValuesOf(a + b, name) == ValuesOf(a, name) + ValuesOf(b, name)
  {
    if |a| > 0 {
      assert (a + b)[1..] == a[1..] + b;
      ValuesOfAppend(a[1..], b, name);
    } else {
      assert a + b == b;
    }
  }

  // ---------------------------------------------------------------------
  // The options each mode passes

  const ProgressOpt := Opt("-progress", "pipe:1")

  function ConcatOpts(catfile: string): seq<Opt>
  {
    [Opt("-f", "concat"), Opt("-safe", "0"), Opt("-i", catfile), ProgressOpt, Opt("-c", "copy")]
  }

  function InputOpts(paths: seq<string>): seq<Opt>
  {
    if |paths| == 0 then [] else [Opt("-i", paths[0])] + InputOpts(paths[1..])
  }

  function RateOpts(graph: string): seq<Opt>
  {
    [Opt("-vsync", "cfr"), Opt("-r", "30"), Opt("-filter_complex", graph)]
  }

  function MapOpts(audio: bool): seq<Opt>
  {
    if audio then [Opt("-map", "[outv]"), Opt("-map", "[outa]"), Opt("-c:a", "aac"), Opt("-b:a", "128k")]
    else [Opt("-map", "[outv]")]
  }

  const VideoCodecOpts := [Opt("-c:v", "libx264"), Opt("-preset", "medium"), Opt("-crf", "23"), ProgressOpt]

  function FilterOptsWith(paths: seq<string>, graph: string, audio: bool): seq<Opt>
  {
    InputOpts(paths) + RateOpts(graph) + MapOpts(audio) + VideoCodecOpts
  }

  function FilterOpts(paths: seq<string>, audio: bool): seq<Opt>
  {
    FilterOptsWith(paths, GraphText(|paths|, audio), audio)
  }

  lemma {:induction false} InputOptsTokens(paths: seq<string>)
    ensures OptTokens(InputOpts(paths)) == InputArgs(paths)
    ensures WellNamed(InputOpts(paths)) && |InputOpts(paths)| == |paths|
  {
    if |paths| > 0 {
      InputOptsTokens(paths[1..]);
      OptTokensAppend([Opt("-i", paths[0])], InputOpts(paths[1..]));
    }
  }

  /** The stream-copy argument list reads back as the demuxer options and
      the target. */
  lemma ConcatArgvReads(catfile: string, target: string)
    ensures ReadArgv(ConcatArgv(catfile, target)) == Some(Invocation(ConcatOpts(catfile), target))
  {
    var inv := Invocation(ConcatOpts(catfile), target);
    assert Tokens(inv) == ConcatArgv(catfile, target);
    ReadArgvOf(inv);
  }

  lemma RateTokens(graph: string)
    ensures OptTokens(RateOpts(graph)) == ["-vsync", "cfr", "-r", "30", "-filter_complex", graph]
  {
  }

  lemma MapTokens(audio: bool)
    ensures OptTokens(MapOpts(audio))
         == if audio then ["-map", "[outv]", "-map", "[outa]", "-c:a", "aac", "-b:a", "128k"] else ["-map", "[outv]"]
  {
  }

  lemma VideoCodecTokens()
    ensures OptTokens(VideoCodecOpts) == ["-c:v", "libx264", "-preset", "medium", "-crf", "23", "-progress", "pipe:1"]
  {
  }

  lemma GraphTokens(graph: string, audio: bool)
    ensures OptTokens(RateOpts(graph)) + OptTokens(MapOpts(audio)) == ["-vsync", "cfr", "-r", "30"] + GraphArgs(graph, audio)
  {
    RateTokens(graph);
    MapTokens(audio);
  }

  lemma FilterTokens(paths: seq<string>, graph: string, audio: bool)
    ensures OptTokens(FilterOptsWith(paths, graph, audio))
         == InputArgs(paths) + ["-vsync", "cfr", "-r", "30"] + GraphArgs(graph, audio)
          + ["-c:v", "libx264", "-preset", "medium", "-crf", "23", "-progress", "pipe:1"]
  {
    var a := InputOpts(paths);
    var g := RateOpts(graph);
    var m := MapOpts(audio);
    InputOptsTokens(paths);
    GraphTokens(graph, audio);
    VideoCodecTokens();
    OptTokensAppend(a, g);
    OptTokensAppend(a + g, m);
    OptTokensAppend(a + g + m, VideoCodecOpts);
    Regroup(OptTokens(a), OptTokens(g), OptTokens(m), OptTokens(VideoCodecOpts),
            ["-vsync", "cfr", "-r", "30"], GraphArgs(graph, audio));
  }

  lemma Regroup<T>(a: seq<T>, b: seq<T>, c: seq<T>, d: seq<T>, x: seq<T>, y: seq<T>)
    requires b + c == x + y
    ensures a + b + c + d == a + x + y + d
  {
    assert a + b + c == a + (b + c);
    assert a + (x + y) == a + x + y;
  }

  lemma FilterOptsWellNamed(paths: seq<string>, graph: string, audio: bool)
    ensures WellNamed(FilterOptsWith(paths, graph, audio))
  {
    var opts := FilterOptsWith(paths, graph, audio);
    InputOptsTokens(paths);
    forall i | 0 <= i < |opts| ensures IsOptionName(opts[i].name) {
      if i < |paths| {
        assert opts[i] == InputOpts(paths)[i];
      }
    }
  }

  lemma FilterArgvReadsWith(paths: seq<string>, graph: string, audio: bool, target: string)
    ensures ReadArgv(InputArgs(paths) + ["-vsync", "cfr", "-r", "30"] + GraphArgs(graph, audio)
                     + ["-c:v", "libx264", "-preset", "medium", "-crf", "23", "-progress", "pipe:1"] + [target, "-y"])
         == Some(Invocation(FilterOptsWith(paths, graph, audio), target))
  {
    FilterTokens(paths, graph, audio);
    FilterOptsWellNamed(paths, graph, audio);
    ReadArgvOf(Invocation(FilterOptsWith(paths, graph, audio), target));
  }

  /** The re-encode argument list reads back as the inputs, the filter graph,
      the mapping of its branch, the video codec options, and the target. */
  lemma FilterArgvReads(paths: seq<string>, audio: bool, target: string)
    ensures ReadArgv(FilterArgv(paths, audio, target)) == Some(Invocation(FilterOpts(paths, audio), target))
  {
    FilterArgvReadsWith(paths, GraphText(|paths|, audio), audio, target);
  }

  lemma {:induction false} InputOptsValues(paths: seq<string>, name: string)
    ensures ValuesOf(InputOpts(paths), name) == if name == "-i" then paths else []
  {
    if |paths| > 0 {
      InputOptsValues(paths[1..], name);
      ValuesOfCons(Opt("-i", paths[0]), InputOpts(paths[1..]), name);
    }
  }

  lemma RateOptsValues(graph: string, name: string)
    ensures ValuesOf(RateOpts(graph), name)
         == ValueIf(Opt("-vsync", "cfr"), name) + ValueIf(Opt("-r", "30"), name) + ValueIf(Opt("-filter_complex", graph), name)
  {
    var c := Opt("-filter_complex", graph);
    ValuesOfCons(c, [], name);
    assert [c] + [] == [c];
    ValuesOfCons(Opt("-r", "30"), [c], name);
    ValuesOfCons(Opt("-vsync", "cfr"), [Opt("-r", "30"), c], name);
    assert [Opt("-vsync", "cfr")] + [Opt("-r", "30"), c] == RateOpts(graph);
  }

  lemma MapOptsValues(audio: bool, name: string)
    ensures ValuesOf(MapOpts(audio), name)
         == if audio then ValueIf(Opt("-map", "[outv]"), name) + ValueIf(Opt("-map", "[outa]"), name)
                        + ValueIf(Opt("-c:a", "aac"), name) + ValueIf(Opt("-b:a", "128k"), name)
            else ValueIf(Opt("-map", "[outv]"), name)
  {
    if audio {
      ValuesOfFour(Opt("-map", "[outv]"), Opt("-map", "[outa]"), Opt("-c:a", "aac"), Opt("-b:a", "128k"), name);
    } else {
      ValuesOfCons(Opt("-map", "[outv]"), [], name);
      assert [Opt("-map", "[outv]")] + [] == MapOpts(false);
    }
  }

  lemma FilterOptsSplit(paths: seq<string>, graph: string, audio: bool, name: string)
    ensures ValuesOf(FilterOptsWith(paths, graph, audio), name)
         == ValuesOf(InputOpts(paths), name) + ValuesOf(RateOpts(graph), name)
          + ValuesOf(MapOpts(audio), name) + ValuesOf(VideoCodecOpts, name)
  {
    var i := InputOpts(paths);
    var g := RateOpts(graph);
    var m := MapOpts(audio);
    ValuesOfAppend(i, g, name);
    ValuesOfAppend(i + g, m, name);
    ValuesOfAppend(i + g + m, VideoCodecOpts, name);
  }

  /** The values one option takes in the re-encode mode, part by part. */
  lemma FilterOptsValuesNamed(paths: seq<string>, graph: string, audio: bool, name: string)
    ensures ValuesOf(FilterOptsWith(paths, graph, audio), name)
         == (if name == "-i" then paths else [])
          + (ValueIf(Opt("-vsync", "cfr"), name) + ValueIf(Opt("-r", "30"), name) + ValueIf(Opt("-filter_complex", graph), name))
          + ValuesOf(MapOpts(audio), name)
          + (ValueIf(Opt("-c:v", "libx264"), name) + ValueIf(Opt("-preset", "medium"), name)
             + ValueIf(Opt("-crf", "23"), name) + ValueIf(ProgressOpt, name))
  {
    FilterOptsSplit(paths, graph, audio, name);
    InputOptsValues(paths, name);
    RateOptsValues(graph, name);
    ValuesOfFour(Opt("-c:v", "libx264"), Opt("-preset", "medium"), Opt("-crf", "23"), ProgressOpt, name);
  }

  lemma FilterOptsValuesWith(paths: seq<string>, graph: string, audio: bool)
    ensures ValuesOf(FilterOptsWith(paths, graph, audio), "-i") == paths
    ensures ValuesOf(FilterOptsWith(paths, graph, audio), "-filter_complex") == [graph]
    ensures ValuesOf(FilterOptsWith(paths, graph, audio), "-map") == (if audio then ["[outv]", "[outa]"] else ["[outv]"])
    ensures ValuesOf(FilterOptsWith(paths, graph, audio), "-c:a") == (if audio then ["aac"] else [])
    ensures ValuesOf(FilterOptsWith(paths, graph, audio), "-progress") == ["pipe:1"]
  {
    FilterOptsInputs(paths, graph, audio);
    FilterOptsGraph(paths, graph, audio);
    FilterOptsMaps(paths, graph, audio);
    FilterOptsAudioCodec(paths, graph, audio);
    FilterOptsProgress(paths, graph, audio);
  }

  lemma FilterOptsInputs(paths: seq<string>, graph: string, audio: bool)
    ensures ValuesOf(FilterOptsWith(paths, graph, audio), "-i") == paths
  {
    FilterOptsValuesNamed(paths, graph, audio, "-i");
    MapOptsValues(audio, "-i");
  }

  lemma FilterOptsGraph(paths: seq<string>, graph: string, audio: bool)
    ensures ValuesOf(FilterOptsWith(paths, graph, audio), "-filter_complex") == [graph]
  {
    FilterOptsValuesNamed(paths, graph, audio, "-filter_complex");
    MapOptsValues(audio, "-filter_complex");
  }

  lemma FilterOptsMaps(paths: seq<string>, graph: string, audio: bool)
    ensures ValuesOf(FilterOptsWith(paths, graph, audio), "-map") == (if audio then ["[outv]", "[outa]"] else ["[outv]"])
  {
    FilterOptsValuesNamed(paths, graph, audio, "-map");
    MapOptsValues(audio, "-map");
  }

  lemma FilterOptsAudioCodec(paths: seq<string>, graph: string, audio: bool)
    ensures ValuesOf(FilterOptsWith(paths, graph, audio), "-c:a") == (if audio then ["aac"] else [])
  {
    FilterOptsValuesNamed(paths, graph, audio, "-c:a");
    MapOptsValues(audio, "-c:a");
  }

  lemma FilterOptsProgress(paths: seq<string>, graph: string, audio: bool)
    ensures ValuesOf(FilterOptsWith(paths, graph, audio), "-progress") == ["pipe:1"]
  {
    FilterOptsValuesNamed(paths, graph, audio, "-progress");
    MapOptsValues(audio, "-progress");
  }

  /** What the re-encode mode passes: one input per source path, in plan order;
      the graph for that many inputs; both concat outputs mapped and the audio
      encoded exactly when every source has audio; progress to standard output. */
  lemma FilterOptsValues(paths: seq<string>, audio: bool)
    ensures ValuesOf(FilterOpts(paths, audio), "-i") == paths
    ensures ValuesOf(FilterOpts(paths, audio), "-filter_complex") == [GraphText(|paths|, audio)]
    ensures ValuesOf(FilterOpts(paths, audio), "-map") == (if audio then ["[outv]", "[outa]"] else ["[outv]"])
    ensures ValuesOf(FilterOpts(paths, audio), "-c:a") == (if audio then ["aac"] else [])
    ensures ValuesOf(FilterOpts(paths, audio), "-progress") == ["pipe:1"]
  {
    FilterOptsValuesWith(paths, GraphText(|paths|, audio), audio);
  }

  lemma ConcatOptsSplit(catfile: string, name: string)
    ensures ValuesOf(ConcatOpts(catfile), name)
         == ValueIf(Opt("-f", "concat"), name) + (ValueIf(Opt("-safe", "0"), name) + ValueIf(Opt("-i", catfile), name)
          + ValueIf(ProgressOpt, name) + ValueIf(Opt("-c", "copy"), name))
  {
    var f := Opt("-f", "concat");
    var rest := [Opt("-safe", "0"), Opt("-i", catfile), ProgressOpt, Opt("-c", "copy")];
    assert [f] + rest == ConcatOpts(catfile);
    ValuesOfCons(f, rest, name);
    ValuesOfFour(Opt("-safe", "0"), Opt("-i", catfile), ProgressOpt, Opt("-c", "copy"), name);
  }

  /** What the stream-copy mode passes: the catfile as its one input, copied
      streams, no filter graph, progress to standard output. */
  lemma ConcatOptsValues(catfile: string)
    ensures ValuesOf(ConcatOpts(catfile), "-i") == [catfile]
    ensures ValuesOf(ConcatOpts(catfile), "-c:a") == []
    ensures ValuesOf(ConcatOpts(catfile), "-filter_complex") == []
    ensures ValuesOf(ConcatOpts(catfile), "-progress") == ["pipe:1"]
  {
    assert ValuesOf(ConcatOpts(catfile), "-i") == [catfile] by {
      ConcatOptsSplit(catfile, "-i");
    }
    assert ValuesOf(ConcatOpts(catfile), "-c:a") == [] by {
      ConcatOptsSplit(catfile, "-c:a");
    }
    assert ValuesOf(ConcatOpts(catfile), "-filter_complex") == [] by {
      ConcatOptsSplit(catfile, "-filter_complex");
    }
    assert ValuesOf(ConcatOpts(catfile), "-progress") == ["pipe:1"] by {
      ConcatOptsSplit(catfile, "-progress");
    }
  }

  /** The encode command of a plan, read back: the output is the plan's target
      and progress always goes to standard output; the inputs are the source
      paths in filter-graph mode and the catfile otherwise; audio is encoded
      only in filter-graph mode with every source having audio. */
  lemma EncodeArgvReads(plan: Plan, verdicts: map<string, bool>, catfile: string)
    ensures ReadArgv(EncodeArgv(plan, verdicts, catfile)).Some?
    ensures ReadArgv(EncodeArgv(plan, verdicts, catfile)).value.output == plan.target.path
    ensures ValuesOf(ReadArgv(EncodeArgv(plan, verdicts, catfile)).value.options, "-progress") == ["pipe:1"]
    ensures ValuesOf(ReadArgv(EncodeArgv(plan, verdicts, catfile)).value.options, "-i")
         == (if UsesConcatFilter(plan.flags) then SourcePathsOf(plan) else [catfile])
    ensures |ValuesOf(ReadArgv(EncodeArgv(plan, verdicts, catfile)).value.options, "-c:a")| > 0
        <==> UsesConcatFilter(plan.flags) && AllHaveAudio(SourceLeavesOf(plan), verdicts)
  {
    if UsesConcatFilter(plan.flags) {
      var audio := AllHaveAudio(SourceLeavesOf(plan), verdicts);
      FilterArgvReads(SourcePathsOf(plan), audio, plan.target.path);
      FilterOptsValues(SourcePathsOf(plan), audio);
    } else {
      ConcatArgvReads(catfile, plan.target.path);
      ConcatOptsValues(catfile);
    }
  }
}
