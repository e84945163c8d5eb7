/** The spec grammar of src/parse.rs: line classification by the two regular
    expressions `^(.+):$` (target) and `^\t(.+)$` (source), and the single-pass
    line loop of `parse_spec` that aborts on the first grammar error. Reading
    the spec file is replaced by the sequence of its lines. */
module Parse {
  import opened Wrappers
  import opened Text
  import opened PlanModel

  /** Problems found by the validation pass (src/parse.rs:68-86). The
      underlying I/O error of `MissingSource` is not modelled. */
  datatype ValidationError =
    | DuplicateSource(sourceName: string, targetName: string)
    | MissingSource(sourceName: string, sourcePath: string, targetName: string)
    | DuplicateTarget(targetName: string)

  /** Failures of `parse_spec` (src/parse.rs:42-66) other than the three I/O
      ones (`SpecNotFound`, `Open`, `ReadLine`). */
  datatype ParseError =
    | UnexpectedSourceAndTarget(line: string, src: string, target: string)
    | MissingSources(targetName: string)
    | MissingTarget(sourceName: string)
    | Validation(errors: seq<ValidationError>)
    | InvalidLine(line: string)

  /** `line` is matched by `^(.+):$` with capture group 1 equal to `cap`. The
      regex `.` matches anything but a line feed, and `$` only the very end. */
  predicate MatchesTarget(line: string, cap: string) {
    |cap| >= 1 && '\n' !in cap && line == cap + [':']
  }

  /** `line` is matched by `^\t(.+)$` with capture group 1 equal to `cap`. */
  predicate MatchesSource(line: string, cap: string) {
    |cap| >= 1 && '\n' !in cap && line == ['\t'] + cap
  }

  /** Capture group 1 of `^(.+):$`, if the line matches. */
  function TargetCapture(line: string): (r: Option<string>)
    ensures r.Some? ==> MatchesTarget(line, r.value)
    ensures r.None? ==> forall cap :: !MatchesTarget(line, cap)
  {
    if |line| >= 2 && line[|line| - 1] == ':' && '\n' !in line[..|line| - 1] then
      Some(line[..|line| - 1])
    else
      TargetMatchShape(line);
      None
  }

  lemma TargetMatchShape(line: string)
    ensures forall cap :: MatchesTarget(line, cap) ==>
              |line| >= 2 && line[|line| - 1] == ':' && line[..|line| - 1] == cap
  {
  }

  /** Capture group 1 of `^\t(.+)$`, if the line matches. */
  function SourceCapture(line: string): (r: Option<string>)
    ensures r.Some? ==> MatchesSource(line, r.value)
    ensures r.None? ==> forall cap :: !MatchesSource(line, cap)
  {
    if |line| >= 2 && line[0] == '\t' && '\n' !in line[1..] then
      assert line == ['\t'] + line[1..];
      Some(line[1..])
    else
      SourceMatchShape(line);
      None
  }

  lemma SourceMatchShape(line: string)
    ensures forall cap :: MatchesSource(line, cap) ==>
              |line| >= 2 && line[0] == '\t' && line[1..] == cap
  {
  }

  /** How the line loop sees one line: the pair of trimmed captures
      (`try_get_first_capture` for both expressions), or neither. */
  datatype LineKind =
    | TargetLine(target: string)
    | SourceLine(source: string)
    | BothLine(source: string, target: string)
    | BlankLine
    | OtherLine

  /** The four arms of the `match (target_result, source_result)`, with the
      `(None, None)` arm split by whether the line is blank after trimming.
      A line is a target line when it matches the target expression and does
      not start with a tab; a source line when it matches the source expression
      and does not end in ':'; both when it matches the target expression and
      starts with a tab; blank when it is all whitespace and not a source line. */
  function Classify(line: string): (k: LineKind)
    ensures k.TargetLine? <==> TargetCapture(line).Some? && line[0] != '\t'
    ensures k.SourceLine? <==> SourceCapture(line).Some? && line[|line| - 1] != ':'
    ensures k.BothLine? <==> TargetCapture(line).Some? && line[0] == '\t'
    ensures k.BlankLine? <==> AllWhitespace(line) && SourceCapture(line).None?
    ensures k.TargetLine? ==> k.target == Trim(TargetCapture(line).value)
    ensures k.SourceLine? ==> k.source == Trim(SourceCapture(line).value)
    ensures k.BothLine? ==> k.target == Trim(TargetCapture(line).value)
                            && k.source == Trim(SourceCapture(line).value)
  {
    ClassifyFacts(line);
    match (TargetCapture(line), SourceCapture(line))
    case (Some(t), None) => TargetLine(Trim(t))
    case (None, Some(s)) => SourceLine(Trim(s))
    case (Some(t), Some(s)) => BothLine(Trim(s), Trim(t))
    case (None, None) => if Trim(line) == [] then BlankLine else OtherLine
  }

  lemma ClassifyFacts(line: string)
    ensures TargetCapture(line).Some? && line[0] == '\t' ==> SourceCapture(line).Some?
    ensures SourceCapture(line).Some? ==> line[0] == '\t'
    ensures SourceCapture(line).Some? && line[|line| - 1] == ':' ==> TargetCapture(line).Some?
    ensures SourceCapture(line).Some? && TargetCapture(line).Some? ==> line[|line| - 1] == ':'
    ensures AllWhitespace(line) ==> TargetCapture(line).None?
  {
    if |line| >= 2 {
      assert line[1..] == line[1..|line| - 1] + [line[|line| - 1]];
      assert line[..|line| - 1] == [line[0]] + line[1..|line| - 1];
    }
    assert AllWhitespace(line) && |line| > 0 ==> IsWhitespace(line[|line| - 1]);
  }

  /** Where the line loop stands: the plans already pushed and the open plan. */
  datatype ParseState = ParseState(plans: seq<Plan>, open: Option<Plan>)

  const Initial := ParseState([], None)

  /** The pushed plans followed by the open plan, if there is one. */
  function Flush(st: ParseState): seq<Plan> {
    if st.open.Some? then st.plans + [st.open.value] else st.plans
  }

  /** A fresh plan for a target line: no sources, no flags. */
  function OpenPlan(target: string, targetDir: string): Plan {
    Plan(NewRelativeTo(target, targetDir), [], [])
  }

  /** One iteration of the line loop (src/parse.rs:141-236). */
  function Step(st: ParseState, line: string, targetDir: string, sourcesDir: string)
    : Result<ParseState, ParseError>
  {
    Advance(st, Classify(line), line, targetDir, sourcesDir)
  }

  /** The loop body once the line has been classified as `kind`. */
  function Advance(st: ParseState, kind: LineKind, line: string, targetDir: string, sourcesDir: string)
    : Result<ParseState, ParseError>
  {
    match kind
    case TargetLine(t) =>
      if st.open.Some? && |st.open.value.sources| == 0 then
        Err(MissingSources(st.open.value.target.leaf))
      else
        Ok(ParseState(Flush(st), Some(OpenPlan(t, targetDir))))
    case SourceLine(s) =>
      if st.open.None? then
        Err(MissingTarget(s))
      else
        var p := st.open.value;
        Ok(ParseState(st.plans, Some(p.(sources := p.sources + [NewRelativeTo(s, sourcesDir)]))))
    case BothLine(s, t) =>
      Err(UnexpectedSourceAndTarget(line, s, t))
    case BlankLine =>
      Ok(ParseState(Flush(st), None))
    case OtherLine =>
      Err(InvalidLine(line))
  }

  /** The plan has its target under `targetDir`, its sources under
      `sourcesDir`, and no flags. */
  predicate PlanPlaced(p: Plan, targetDir: string, sourcesDir: string) {
    && p.target == NewRelativeTo(p.target.leaf, targetDir)
    && p.flags == []
    && forall k :: 0 <= k < |p.sources| ==> p.sources[k] == NewRelativeTo(p.sources[k].leaf, sourcesDir)
  }

  predicate PlacedUnder(plans: seq<Plan>, targetDir: string, sourcesDir: string) {
    forall i :: 0 <= i < |plans| ==> PlanPlaced(plans[i], targetDir, sourcesDir)
  }

  /** The line loop over all lines; the first failing line ends it. */
  function Run(lines: seq<string>, targetDir: string, sourcesDir: string)
    : (r: Result<ParseState, ParseError>)
    ensures r.Ok? ==> PlacedUnder(Flush(r.value), targetDir, sourcesDir)
    ensures r.Err? ==> !r.error.Validation?
  {
    if |lines| == 0 then Ok(Initial)
    else
      match Run(lines[..|lines| - 1], targetDir, sourcesDir)
      case Err(e) => Err(e)
      case Ok(st) =>
        var r := Step(st, lines[|lines| - 1], targetDir, sourcesDir);
        assert r.Ok? ==> PlacedUnder(Flush(r.value), targetDir, sourcesDir) by {
          if r.Ok? { StepPlaced(st, Classify(lines[|lines| - 1]), lines[|lines| - 1], targetDir, sourcesDir); }
        }
        r
  }

  lemma StepPlaced(st: ParseState, kind: LineKind, line: string, targetDir: string, sourcesDir: string)
    requires PlacedUnder(Flush(st), targetDir, sourcesDir)
    requires Advance(st, kind, line, targetDir, sourcesDir).Ok?
    ensures PlacedUnder(Flush(Advance(st, kind, line, targetDir, sourcesDir).value), targetDir, sourcesDir)
  {
    var next := Advance(st, kind, line, targetDir, sourcesDir).value;
    match kind
    case TargetLine(t) =>
      assert Flush(next) == Flush(st) + [OpenPlan(t, targetDir)];
    case SourceLine(s) =>
      var p := st.open.value;
      assert Flush(st) == st.plans + [p];
      assert Flush(st)[|st.plans|] == p;
      assert PlanPlaced(p, targetDir, sourcesDir);
      var q := p.(sources := p.sources + [NewRelativeTo(s, sourcesDir)]);
      assert Flush(next) == st.plans + [q];
      assert PlanPlaced(q, targetDir, sourcesDir);
      assert forall i :: 0 <= i < |st.plans| ==> Flush(next)[i] == Flush(st)[i];
    case BlankLine =>
      assert Flush(next) == Flush(st);
  }

  /** The grammar part of `parse_spec`: the line loop, then the still-open plan
      pushed without a source-count check (src/parse.rs:238-245). */
  function ParseLines(lines: seq<string>, targetDir: string, sourcesDir: string)
    : Result<seq<Plan>, ParseError>
  {
    match Run(lines, targetDir, sourcesDir)
    case Err(e) => Err(e)
    case Ok(st) => Ok(Flush(st))
  }
}
