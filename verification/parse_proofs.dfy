/** Properties of the spec grammar (module Parse): the first grammar error ends
    the parse, the asymmetric ways an open plan is closed, file order of plans
    and sources, and a round trip through a renderer that writes plans back out
    as spec lines. */
module ParseProofs {
  import opened Wrappers
  import opened Text
  import opened PlanModel
  import opened Parse

  lemma RunSnoc(lines: seq<string>, line: string, targetDir: string, sourcesDir: string)
    ensures Run(lines + [line], targetDir, sourcesDir)
         == if Run(lines, targetDir, sourcesDir).Ok?
            then Step(Run(lines, targetDir, sourcesDir).value, line, targetDir, sourcesDir)
            else Run(lines, targetDir, sourcesDir)
  {
    assert (lines + [line])[..|lines|] == lines;
  }

  lemma RunPrefix(lines: seq<string>, k: nat, targetDir: string, sourcesDir: string)
    requires k < |lines|
    ensures Run(lines[..k + 1], targetDir, sourcesDir)
         == if Run(lines[..k], targetDir, sourcesDir).Ok?
            then Step(Run(lines[..k], targetDir, sourcesDir).value, lines[k], targetDir, sourcesDir)
            else Run(lines[..k], targetDir, sourcesDir)
  {
    assert lines[..k + 1] == lines[..k] + [lines[k]];
    RunSnoc(lines[..k], lines[k], targetDir, sourcesDir);
  }

  /** One more line, once the prefix has parsed and the line is classified. */
  lemma RunStep(lines: seq<string>, line: string, st: ParseState, kind: LineKind,
                targetDir: string, sourcesDir: string)
    requires Run(lines, targetDir, sourcesDir) == Ok(st) && Classify(line) == kind
    ensures Run(lines + [line], targetDir, sourcesDir) == Advance(st, kind, line, targetDir, sourcesDir)
  {
    RunSnoc(lines, line, targetDir, sourcesDir);
  }

  /** Once a prefix of the lines fails, the whole parse fails with that error:
      no later line is looked at. */
  lemma ErrorIsFinal(lines: seq<string>, k: nat, targetDir: string, sourcesDir: string)
    requires k <= |lines|
    requires Run(lines[..k], targetDir, sourcesDir).Err?
    ensures Run(lines, targetDir, sourcesDir) == Run(lines[..k], targetDir, sourcesDir)
    ensures ParseLines(lines, targetDir, sourcesDir) == Err(Run(lines[..k], targetDir, sourcesDir).error)
  {
    RunStaysFailed(lines, k, targetDir, sourcesDir);
  }

  lemma {:induction false} RunStaysFailed(lines: seq<string>, k: nat, targetDir: string, sourcesDir: string)
    requires k <= |lines|
    requires Run(lines[..k], targetDir, sourcesDir).Err?
    ensures Run(lines, targetDir, sourcesDir) == Run(lines[..k], targetDir, sourcesDir)
    decreases |lines| - k
  {
    if k == |lines| {
      assert lines[..k] == lines;
    } else {
      var n := |lines|;
      var init := lines[..n - 1];
      assert init[..k] == lines[..k];
      RunStaysFailed(init, k, targetDir, sourcesDir);
      RunAfterError(init, lines[n - 1], targetDir, sourcesDir);
      assert init + [lines[n - 1]] == lines;
    }
  }

  lemma RunAfterError(lines: seq<string>, line: string, targetDir: string, sourcesDir: string)
    requires Run(lines, targetDir, sourcesDir).Err?
    ensures Run(lines + [line], targetDir, sourcesDir) == Run(lines, targetDir, sourcesDir)
  {
    assert (lines + [line])[..|lines|] == lines;
  }

  /** The first line whose step fails decides the result of the whole parse. */
  lemma FirstErrorAborts(lines: seq<string>, k: nat, targetDir: string, sourcesDir: string)
    requires k < |lines|
    requires Run(lines[..k], targetDir, sourcesDir).Ok?
    requires Step(Run(lines[..k], targetDir, sourcesDir).value, lines[k], targetDir, sourcesDir).Err?
    ensures ParseLines(lines, targetDir, sourcesDir)
         == Err(Step(Run(lines[..k], targetDir, sourcesDir).value, lines[k], targetDir, sourcesDir).error)
  {
    RunPrefix(lines, k, targetDir, sourcesDir);
    ErrorIsFinal(lines, k + 1, targetDir, sourcesDir);
  }

  /** A line that both expressions match (one that starts with a tab and ends
      with ':') aborts the parse, whatever state the parser is in. */
  lemma SourceAndTargetAborts(lines: seq<string>, k: nat, targetDir: string, sourcesDir: string)
    requires k < |lines| && Run(lines[..k], targetDir, sourcesDir).Ok?
    requires TargetCapture(lines[k]).Some? && lines[k][0] == '\t'
    ensures SourceCapture(lines[k]).Some?
    ensures ParseLines(lines, targetDir, sourcesDir)
         == Err(UnexpectedSourceAndTarget(lines[k], Trim(SourceCapture(lines[k]).value),
                                          Trim(TargetCapture(lines[k]).value)))
  {
    FirstErrorAborts(lines, k, targetDir, sourcesDir);
  }

  /** A line neither expression matches and that is not blank after trimming
      aborts the parse with `InvalidLine`. */
  lemma InvalidLineAborts(lines: seq<string>, k: nat, targetDir: string, sourcesDir: string)
    requires k < |lines| && Run(lines[..k], targetDir, sourcesDir).Ok?
    requires TargetCapture(lines[k]).None? && SourceCapture(lines[k]).None?
    requires !AllWhitespace(lines[k])
    ensures ParseLines(lines, targetDir, sourcesDir) == Err(InvalidLine(lines[k]))
  {
    FirstErrorAborts(lines, k, targetDir, sourcesDir);
  }

  /** A source line that is the first line, or follows a blank line, has no
      open plan to join and aborts with `MissingTarget`. */
  lemma SourceWithoutTargetAborts(lines: seq<string>, k: nat, targetDir: string, sourcesDir: string)
    requires k < |lines| && Run(lines[..k], targetDir, sourcesDir).Ok?
    requires k == 0 || (AllWhitespace(lines[k - 1]) && SourceCapture(lines[k - 1]).None?)
    requires SourceCapture(lines[k]).Some? && lines[k][|lines[k]| - 1] != ':'
    ensures ParseLines(lines, targetDir, sourcesDir)
         == Err(MissingTarget(Trim(SourceCapture(lines[k]).value)))
  {
    var st := Run(lines[..k], targetDir, sourcesDir).value;
    NothingOpenAfterBlank(lines, k, targetDir, sourcesDir);
    assert Step(st, lines[k], targetDir, sourcesDir) == Err(MissingTarget(Trim(SourceCapture(lines[k]).value))) by {
      ClassifyAsSource(lines[k]);
    }
    FirstErrorAborts(lines, k, targetDir, sourcesDir);
  }

  /** At the start and after a blank line no plan is open. */
  lemma NothingOpenAfterBlank(lines: seq<string>, k: nat, targetDir: string, sourcesDir: string)
    requires k < |lines| && Run(lines[..k], targetDir, sourcesDir).Ok?
    requires k == 0 || (AllWhitespace(lines[k - 1]) && SourceCapture(lines[k - 1]).None?)
    ensures Run(lines[..k], targetDir, sourcesDir).value.open.None?
  {
    if k > 0 {
      RunPrefix(lines, k - 1, targetDir, sourcesDir);
      assert lines[..k - 1 + 1] == lines[..k];
      ClassifyAsBlank(lines[k - 1]);
    } else {
      assert lines[..k] == [];
    }
  }

  lemma ClassifyAsSource(line: string)
    requires SourceCapture(line).Some? && line[|line| - 1] != ':'
    ensures Classify(line) == SourceLine(Trim(SourceCapture(line).value))
  {
  }

  lemma ClassifyAsTarget(line: string)
    requires TargetCapture(line).Some? && line[0] != '\t'
    ensures Classify(line) == TargetLine(Trim(TargetCapture(line).value))
  {
  }

  lemma ClassifyAsBlank(line: string)
    requires AllWhitespace(line) && SourceCapture(line).None?
    ensures Classify(line) == BlankLine
  {
  }

  /** A target line closing a plan that has no sources aborts the parse with
      `MissingSources` naming the earlier target. */
  lemma TargetClosingEmptyPlanAborts(lines: seq<string>, k: nat, st: ParseState, targetDir: string, sourcesDir: string)
    requires k + 1 < |lines| && Run(lines[..k], targetDir, sourcesDir) == Ok(st)
    requires st.open.None? || |st.open.value.sources| > 0
    requires TargetCapture(lines[k]).Some? && lines[k][0] != '\t'
    requires TargetCapture(lines[k + 1]).Some? && lines[k + 1][0] != '\t'
    ensures ParseLines(lines, targetDir, sourcesDir)
         == Err(MissingSources(Trim(TargetCapture(lines[k]).value)))
  {
    var t := Trim(TargetCapture(lines[k]).value);
    ClassifyAsTarget(lines[k]);
    ClassifyAsTarget(lines[k + 1]);
    RunPrefix(lines, k, targetDir, sourcesDir);
    var next := ParseState(Flush(st), Some(OpenPlan(t, targetDir)));
    assert Run(lines[..k + 1], targetDir, sourcesDir) == Ok(next);
    FirstErrorAborts(lines, k + 1, targetDir, sourcesDir);
  }

  /** A blank line closes the open plan even when it has no sources: the plan
      is pushed and nothing is open afterwards. */
  lemma BlankLineClosesEmptyPlan(lines: seq<string>, k: nat, st: ParseState, targetDir: string, sourcesDir: string)
    requires k + 1 < |lines| && Run(lines[..k], targetDir, sourcesDir) == Ok(st)
    requires st.open.None? || |st.open.value.sources| > 0
    requires TargetCapture(lines[k]).Some? && lines[k][0] != '\t'
    requires AllWhitespace(lines[k + 1]) && SourceCapture(lines[k + 1]).None?
    ensures Run(lines[..k + 2], targetDir, sourcesDir)
         == Ok(ParseState(Flush(st) + [OpenPlan(Trim(TargetCapture(lines[k]).value), targetDir)], None))
  {
    var t := Trim(TargetCapture(lines[k]).value);
    ClassifyAsTarget(lines[k]);
    ClassifyAsBlank(lines[k + 1]);
    RunPrefix(lines, k, targetDir, sourcesDir);
    var next := ParseState(Flush(st), Some(OpenPlan(t, targetDir)));
    assert Run(lines[..k + 1], targetDir, sourcesDir) == Ok(next);
    RunPrefix(lines, k + 1, targetDir, sourcesDir);
  }

  /** A plan still open at the end of the input is pushed without the
      source-count check, so a final target line with no sources parses. */
  lemma FinalTargetKeptWithoutSources(lines: seq<string>, st: ParseState, targetDir: string, sourcesDir: string)
    requires |lines| >= 1 && Run(lines[..|lines| - 1], targetDir, sourcesDir) == Ok(st)
    requires st.open.None? || |st.open.value.sources| > 0
    requires TargetCapture(lines[|lines| - 1]).Some? && lines[|lines| - 1][0] != '\t'
    ensures ParseLines(lines, targetDir, sourcesDir)
         == Ok(Flush(st) + [OpenPlan(Trim(TargetCapture(lines[|lines| - 1]).value), targetDir)])
  {
    var n := |lines|;
    var t := Trim(TargetCapture(lines[n - 1]).value);
    ClassifyAsTarget(lines[n - 1]);
    RunPrefix(lines, n - 1, targetDir, sourcesDir);
    assert lines[..n] == lines;
    var next := ParseState(Flush(st), Some(OpenPlan(t, targetDir)));
    assert Run(lines, targetDir, sourcesDir) == Ok(next);
  }

  // ---------------------------------------------------------------------
  // File order

  /** The names of the target lines, in file order. */
  function TargetNames(lines: seq<string>): seq<string>
  {
    if |lines| == 0 then []
    else
      var k := Classify(lines[|lines| - 1]);
      TargetNames(lines[..|lines| - 1]) + (if k.TargetLine? then [k.target] else [])
  }

  /** The names of the source lines, in file order. */
  function SourceNames(lines: seq<string>): seq<string>
  {
    if |lines| == 0 then []
    else
      var k := Classify(lines[|lines| - 1]);
      SourceNames(lines[..|lines| - 1]) + (if k.SourceLine? then [k.source] else [])
  }

  function Leaves(ps: seq<PlanPath>): seq<string>
  {
    seq(|ps|, i requires 0 <= i < |ps| => ps[i].leaf)
  }

  function TargetLeaves(plans: seq<Plan>): seq<string>
  {
    seq(|plans|, i requires 0 <= i < |plans| => plans[i].target.leaf)
  }

  /** Every plan's source leaves, plan after plan. */
  function SourceLeaves(plans: seq<Plan>): seq<string>
  {
    if |plans| == 0 then [] else SourceLeaves(plans[..|plans| - 1]) + Leaves(plans[|plans| - 1].sources)
  }

  lemma SourceLeavesSnoc(plans: seq<Plan>, p: Plan)
    ensures SourceLeaves(plans + [p]) == SourceLeaves(plans) + Leaves(p.sources)
  {
    assert (plans + [p])[..|plans|] == plans;
  }

  lemma AdvanceKeepsOrder(st: ParseState, kind: LineKind, line: string, targetDir: string, sourcesDir: string)
    requires Advance(st, kind, line, targetDir, sourcesDir).Ok?
    ensures var next := Advance(st, kind, line, targetDir, sourcesDir).value;
            && TargetLeaves(Flush(next)) == TargetLeaves(Flush(st)) + (if kind.TargetLine? then [kind.target] else [])
            && SourceLeaves(Flush(next)) == SourceLeaves(Flush(st)) + (if kind.SourceLine? then [kind.source] else [])
  {
    var next := Advance(st, kind, line, targetDir, sourcesDir).value;
    match kind
    case TargetLine(t) =>
      assert Flush(next) == Flush(st) + [OpenPlan(t, targetDir)];
      SourceLeavesSnoc(Flush(st), OpenPlan(t, targetDir));
      assert Leaves([]) == [];
    case SourceLine(s) =>
      var p := st.open.value;
      var src := NewRelativeTo(s, sourcesDir);
      var q := p.(sources := p.sources + [src]);
      assert Flush(st) == st.plans + [p];
      assert Flush(next) == st.plans + [q];
      assert TargetLeaves(Flush(next)) == TargetLeaves(Flush(st));
      SourceLeavesSnoc(st.plans, p);
      SourceLeavesSnoc(st.plans, q);
      assert Leaves(q.sources) == Leaves(p.sources) + [s];
    case BlankLine =>
      assert Flush(next) == Flush(st);
  }

  /** Plans come out in the order of their target lines, and the sources of all
      plans, taken plan after plan, in the order of the source lines. */
  lemma {:induction false} ParseKeepsFileOrder(lines: seq<string>, targetDir: string, sourcesDir: string)
    requires Run(lines, targetDir, sourcesDir).Ok?
    ensures var plans := Flush(Run(lines, targetDir, sourcesDir).value);
            TargetLeaves(plans) == TargetNames(lines) && SourceLeaves(plans) == SourceNames(lines)
  {
    if |lines| > 0 {
      var n := |lines|;
      ParseKeepsFileOrder(lines[..n - 1], targetDir, sourcesDir);
      var line := lines[n - 1];
      AdvanceKeepsOrder(Run(lines[..n - 1], targetDir, sourcesDir).value, Classify(line), line, targetDir, sourcesDir);
    }
  }

  // ---------------------------------------------------------------------
  // Round trip through a renderer

  /** A target name and its source names, as a spec author writes them. */
  datatype Block = Block(target: string, sources: seq<string>)

  /** A name that survives the trip through a spec line unchanged: non-empty,
      no surrounding whitespace, no line feed. */
  predicate CleanName(n: string) {
    |n| >= 1 && IsTrimmed(n) && '\n' !in n
  }

  /** Every name is clean; source names also must not end in ':' (such a line
      would match both expressions). */
  predicate RenderableBlock(b: Block) {
    CleanName(b.target) && forall i :: 0 <= i < |b.sources| ==> RenderableSource(b.sources[i])
  }

  predicate RenderableSource(n: string) {
    CleanName(n) && n[|n| - 1] != ':'
  }

  function SourceLines(sources: seq<string>): seq<string>
  {
    seq(|sources|, i requires 0 <= i < |sources| => ['\t'] + sources[i])
  }

  /** One block as spec lines: `<target>:`, one tab-indented line per source,
      then a blank line. */
  function RenderBlock(b: Block): seq<string>
  {
    [b.target + [':']] + SourceLines(b.sources) + [[]]
  }

  function Render(blocks: seq<Block>): seq<string>
  {
    if |blocks| == 0 then [] else Render(blocks[..|blocks| - 1]) + RenderBlock(blocks[|blocks| - 1])
  }

  function SourcePaths(sources: seq<string>, sourcesDir: string): seq<PlanPath>
  {
    seq(|sources|, i requires 0 <= i < |sources| => NewRelativeTo(sources[i], sourcesDir))
  }

  /** The plan a block describes. */
  function BlockPlan(b: Block, targetDir: string, sourcesDir: string): Plan
  {
    Plan(NewRelativeTo(b.target, targetDir), SourcePaths(b.sources, sourcesDir), [])
  }

  function BlockPlans(blocks: seq<Block>, targetDir: string, sourcesDir: string): seq<Plan>
  {
    seq(|blocks|, i requires 0 <= i < |blocks| => BlockPlan(blocks[i], targetDir, sourcesDir))
  }

  lemma ClassifyTargetLine(name: string)
    requires CleanName(name)
    ensures Classify(name + [':']) == TargetLine(name)
  {
    var line := name + [':'];
    assert MatchesTarget(line, name);
    assert line[0] == name[0];
  }

  lemma ClassifySourceLine(name: string)
    requires RenderableSource(name)
    ensures Classify(['\t'] + name) == SourceLine(name)
  {
    var line := ['\t'] + name;
    assert MatchesSource(line, name);
    assert line[|line| - 1] == name[|name| - 1];
  }

  lemma ClassifyEmptyLine()
    ensures Classify([]) == BlankLine
  {
  }

  lemma TakeSnoc<T>(s: seq<T>, j: nat)
    requires 0 < j <= |s|
    ensures s[..j] == s[..j - 1] + [s[j - 1]]
  {
  }

  lemma AppendSnoc<T>(a: seq<T>, b: seq<T>, x: T)
    ensures a + (b + [x]) == (a + b) + [x]
  {
  }

  /** After the target line and the first `j` source lines of a block, the
      block's plan is open with its first `j` sources. */
  lemma {:induction false} RunBlockSources(prefix: seq<string>, plans: seq<Plan>, b: Block, j: nat,
                                           targetDir: string, sourcesDir: string)
    requires RenderableBlock(b) && j <= |b.sources|
    requires Run(prefix, targetDir, sourcesDir) == Ok(ParseState(plans, None))
    ensures Run(prefix + [b.target + [':']] + SourceLines(b.sources)[..j], targetDir, sourcesDir)
         == Ok(ParseState(plans, Some(Plan(NewRelativeTo(b.target, targetDir),
                                           SourcePaths(b.sources, sourcesDir)[..j], []))))
  {
    var head := prefix + [b.target + [':']];
    var src := SourceLines(b.sources);
    var ps := SourcePaths(b.sources, sourcesDir);
    if j == 0 {
      assert head + src[..0] == head;
      ClassifyTargetLine(b.target);
      RunStep(prefix, b.target + [':'], ParseState(plans, None), TargetLine(b.target), targetDir, sourcesDir);
      assert ps[..0] == [];
    } else {
      RunBlockSources(prefix, plans, b, j - 1, targetDir, sourcesDir);
      var before := head + src[..j - 1];
      var open := Plan(NewRelativeTo(b.target, targetDir), ps[..j - 1], []);
      TakeSnoc(src, j);
      AppendSnoc(head, src[..j - 1], src[j - 1]);
      var name := b.sources[j - 1];
      assert RenderableSource(name);
      ClassifySourceLine(name);
      RunStep(before, src[j - 1], ParseState(plans, Some(open)), SourceLine(name), targetDir, sourcesDir);
      TakeSnoc(ps, j);
    }
  }

  lemma TakeAll<T>(s: seq<T>)
    ensures s[..|s|] == s
  {
  }

  lemma RenderBlockAfter(prefix: seq<string>, b: Block)
    ensures prefix + RenderBlock(b) == (prefix + [b.target + [':']] + SourceLines(b.sources)) + [[]]
  {
  }

  lemma RunBlock(prefix: seq<string>, plans: seq<Plan>, b: Block, targetDir: string, sourcesDir: string)
    requires RenderableBlock(b)
    requires Run(prefix, targetDir, sourcesDir) == Ok(ParseState(plans, None))
    ensures Run(prefix + RenderBlock(b), targetDir, sourcesDir)
         == Ok(ParseState(plans + [BlockPlan(b, targetDir, sourcesDir)], None))
  {
    var src := SourceLines(b.sources);
    var ps := SourcePaths(b.sources, sourcesDir);
    RunBlockSources(prefix, plans, b, |b.sources|, targetDir, sourcesDir);
    TakeAll(src);
    TakeAll(ps);
    var body := prefix + [b.target + [':']] + src;
    var open := ParseState(plans, Some(BlockPlan(b, targetDir, sourcesDir)));
    assert Run(body, targetDir, sourcesDir) == Ok(open);
    RenderBlockAfter(prefix, b);
    ClassifyEmptyLine();
    RunStep(body, [], open, BlankLine, targetDir, sourcesDir);
  }

  lemma BlockPlansSnoc(blocks: seq<Block>, targetDir: string, sourcesDir: string)
    requires |blocks| > 0
    ensures BlockPlans(blocks, targetDir, sourcesDir)
         == BlockPlans(blocks[..|blocks| - 1], targetDir, sourcesDir)
            + [BlockPlan(blocks[|blocks| - 1], targetDir, sourcesDir)]
  {
  }

  /** Rendering blocks whose names are clean and parsing the result gives back
      one plan per block, in order, each leaf equal to the name as written and
      each path that name under its directory. */
  lemma {:induction false} ParseRender(blocks: seq<Block>, targetDir: string, sourcesDir: string)
    requires forall i :: 0 <= i < |blocks| ==> RenderableBlock(blocks[i])
    ensures Run(Render(blocks), targetDir, sourcesDir)
         == Ok(ParseState(BlockPlans(blocks, targetDir, sourcesDir), None))
    ensures ParseLines(Render(blocks), targetDir, sourcesDir) == Ok(BlockPlans(blocks, targetDir, sourcesDir))
  {
    if |blocks| > 0 {
      var n := |blocks|;
      var init := blocks[..n - 1];
      assert forall i :: 0 <= i < |init| ==> RenderableBlock(init[i]);
      ParseRender(init, targetDir, sourcesDir);
      assert RenderableBlock(blocks[n - 1]);
      RunBlock(Render(init), BlockPlans(init, targetDir, sourcesDir), blocks[n - 1], targetDir, sourcesDir);
      BlockPlansSnoc(blocks, targetDir, sourcesDir);
    } else {
      assert BlockPlans(blocks, targetDir, sourcesDir) == [];
    }
  }
}
