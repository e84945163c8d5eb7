/** One job from start to end (`execute_plan`, `_execute_plan` and
    `Process::execute`, src/execute.rs:147-535): the progress payloads a job
    sends, in order, given what each outside step returned. The outside world
    (file creation, probe results in completion order, the float parser, the
    encode run, the output lines the progress reader took) is a parameter. */
module Job {
  import opened Wrappers
  import opened Text
  import opened PlanModel
  import opened Tools
  import opened Events
  import opened Catfile
  import opened Audio
  import opened Duration
  import opened Progress
  import opened Argv

  const PreparePhase: string := "Preparing concatenation file"
  const AudioPhase: string := "Detecting audio tracks"
  const DurationPhase: string := "Calculating total duration"
  const EncodePhase: string := "Encoding"

  /** The phase announcements in the order a job makes them. */
  const AllPhases: seq<Payload> := [Phase(PreparePhase), Phase(AudioPhase), Phase(DurationPhase), Phase(EncodePhase)]

  /** The `mode` of the `Info` event. */
  function Mode(filter: bool): string
  {
    if filter then "filter_complex" else "concat"
  }

  /** The text after the two counts of the video-only warning; its leading
      space is written apart so that proofs can see where the counts end. */
  const WarningTail: string := " " + "sources have audio - output will be video-only"

  /** The text of the video-only warning. */
  function WarningMessage(withAudio: nat, sources: nat): string
  {
    "Only " + NatToString(withAudio) + "/" + NatToString(sources) + WarningTail
  }

  /** How creating and writing the catfile went. */
  datatype CatfileOutcome = CatfileWritten | CreateFailed(detail: string) | WriteFailed(detail: string)

  /** What the outside steps of one job returned. `encode` and
      `progressLines` are independent, so some worlds pair output lines with
      an ffmpeg that never spawned, which the program cannot produce; every
      property is stated for all worlds, so it holds for the real ones too. */
  datatype World = World(
    tmpRoot: string,
    catfile: CatfileOutcome,
    audioProbes: seq<AudioProbe>,
    durationProbes: seq<Result<ToolExit, ToolError>>,
    parseFloat: string -> Option<real>,
    encode: Result<ToolExit, ToolError>,
    progressLines: seq<string>)

  /** The result of each step, once the probe results are aggregated. */
  datatype Steps = Steps(
    catfile: CatfileOutcome,
    audio: Result<map<string, bool>, ExecuteError>,
    total: Result<real, ExecuteError>,
    encode: Result<ToolExit, ToolError>,
    progressLines: seq<string>)

  function StepsOf(w: World): Steps
  {
    Steps(w.catfile, CollectAudio(w.audioProbes), TotalSeconds(w.durationProbes, w.parseFloat), w.encode, w.progressLines)
  }

  function CatfileOf(plan: Plan, w: World): string
  {
    CatfilePath(w.tmpRoot, plan.target.leaf)
  }

  // ---------------------------------------------------------------------
  // The trace, stage by stage

  /** `Finished` with the run's exit summary whatever its exit code, or
      `Failed` with the runner's error. */
  function Outcome(encode: Result<ToolExit, ToolError>): Payload
  {
    match encode
    case Ok(x) => Finished(x)
    case Err(e) => Failed(Ffmpeg(e))
  }

  function InfoFor(plan: Plan, verdicts: map<string, bool>, total: real): Payload
  {
    Info(|plan.sources|, total, AllHaveAudio(SourceLeavesOf(plan), verdicts), Mode(UsesConcatFilter(plan.flags)))
  }

  function WarningStage(plan: Plan, verdicts: map<string, bool>): seq<Payload>
  {
    if UsesConcatFilter(plan.flags) && !AllHaveAudio(SourceLeavesOf(plan), verdicts) then
      [Warning(WarningMessage(AudioCount(verdicts), |plan.sources|))]
    else []
  }

  /** From `Info` on: the summary, the warning if any, the encode phase, one
      `Progress` per marker the reader took, and the outcome. */
  function EncodeStage(plan: Plan, s: Steps, verdicts: map<string, bool>, total: real): seq<Payload>
  {
    EncodeTail(InfoFor(plan, verdicts, total), WarningStage(plan, verdicts),
               ProgressEvents(s.progressLines, total), Outcome(s.encode))
  }

  function EncodeTail(info: Payload, warnings: seq<Payload>, progress: seq<Payload>, outcome: Payload): seq<Payload>
  {
    [info] + warnings + [Phase(EncodePhase)] + progress + [outcome]
  }

  function DurationStage(plan: Plan, s: Steps, verdicts: map<string, bool>): seq<Payload>
  {
    match s.total
    case Err(e) => [Failed(e)]
    case Ok(total) => EncodeStage(plan, s, verdicts, total)
  }

  function AudioStage(plan: Plan, s: Steps): seq<Payload>
  {
    match s.audio
    case Err(e) => [Failed(e)]
    case Ok(verdicts) => [Phase(DurationPhase)] + DurationStage(plan, s, verdicts)
  }

  function CatfileStage(plan: Plan, cat: string, s: Steps): seq<Payload>
  {
    match s.catfile
    case CreateFailed(d) => [Failed(CreateCatFile(cat, d))]
    case WriteFailed(d) => [Failed(WriteToCatFile(cat, d))]
    case CatfileWritten => [Prepared(cat)] + [Phase(AudioPhase)] + AudioStage(plan, s)
  }

  function Trace(plan: Plan, cat: string, s: Steps): seq<Payload>
  {
    [Start(plan.target.leaf)] + [Phase(PreparePhase)] + CatfileStage(plan, cat, s)
  }

  /** Every payload the job sends, in order. */
  function JobPayloads(plan: Plan, w: World): seq<Payload>
  {
    Trace(plan, CatfileOf(plan, w), StepsOf(w))
  }

  /** Every step before the encode succeeded. */
  predicate Reached(s: Steps) {
    s.catfile.CatfileWritten? && s.audio.Ok? && s.total.Ok?
  }

  /** The job reached the encoder: the catfile was written and both probe
      phases succeeded. */
  predicate Probed(w: World) {
    Reached(StepsOf(w))
  }

  /** The encode command, for a job that gets that far. */
  function EncodeCommand(plan: Plan, w: World): Option<seq<string>>
  {
    if Probed(w) then Some(EncodeArgv(plan, CollectAudio(w.audioProbes).value, CatfileOf(plan, w))) else None
  }

  // ---------------------------------------------------------------------
  // Selecting payloads from a trace

  predicate IsPhase(p: Payload) { p.Phase? }
  predicate IsWarning(p: Payload) { p.Warning? }
  predicate IsInfo(p: Payload) { p.Info? }

  /** The payloads of one kind, in trace order. */
  function Select(t: seq<Payload>, f: Payload -> bool): seq<Payload>
  {
    if |t| == 0 then [] else (if f(t[0]) then [t[0]] else []) + Select(t[1..], f)
  }

  lemma SelectCons(p: Payload, t: seq<Payload>, f: Payload -> bool)
    ensures Select([p] + t, f) == (if f(p) then [p] else []) + Select(t, f)
  {
    assert ([p] + t)[1..] == t;
  }

  lemma {:induction false} SelectAppend(a: seq<Payload>, b: seq<Payload>, f: Payload -> bool)
    ensures Select(a + b, f) == Select(a, f) + Select(b, f)
  {
    if |a| > 0 {
      assert (a + b)[1..] == a[1..] + b;
      SelectAppend(a[1..], b, f);
    } else {
      assert a + b == b;
    }
  }

  lemma {:induction false} SelectNone(t: seq<Payload>, f: Payload -> bool)
    ensures Select(t, f) == [] <==> forall i :: 0 <= i < |t| ==> !f(t[i])
  {
    if |t| > 0 {
      SelectNone(t[1..], f);
      assert forall i :: 1 <= i < |t| ==> t[i] == t[1..][i - 1];
    }
  }

  lemma SelectPair(a: Payload, b: Payload, t: seq<Payload>, f: Payload -> bool)
    ensures Select([a] + [b] + t, f) == (if f(a) then [a] else []) + (if f(b) then [b] else []) + Select(t, f)
  {
    assert [a] + [b] + t == [a] + ([b] + t);
    SelectCons(b, t, f);
    SelectCons(a, [b] + t, f);
  }

  lemma SelectOne(p: Payload, f: Payload -> bool)
    ensures Select([p], f) == if f(p) then [p] else []
  {
    SelectCons(p, [], f);
    assert [p] + [] == [p];
  }

  /** Selecting from `[p] + t` when `t` holds nothing of the kind. */
  lemma SelectFirst(p: Payload, t: seq<Payload>, f: Payload -> bool)
    requires Select(t, f) == []
    ensures Select([p] + t, f) == if f(p) then [p] else []
  {
    SelectCons(p, t, f);
  }

  // ---------------------------------------------------------------------
  // One terminal event, last

  /** A trace that ends in its only terminal event and never holds `Spawned`. */
  predicate EndsOnce(t: seq<Payload>) {
    && |t| > 0 && IsTerminal(t[|t| - 1])
    && (forall i :: 0 <= i < |t| - 1 ==> !IsTerminal(t[i]))
    && (forall i :: 0 <= i < |t| ==> !t[i].Spawned?)
  }

  lemma EndsOnceAfter(p: seq<Payload>, s: seq<Payload>)
    requires forall i :: 0 <= i < |p| ==> !IsTerminal(p[i]) && !p[i].Spawned?
    requires EndsOnce(s)
    ensures EndsOnce(p + s)
  {
    var t := p + s;
    forall i | |p| <= i < |t|
      ensures t[i] == s[i - |p|]
    {
    }
  }

  lemma EncodeStageEndsOnce(plan: Plan, s: Steps, verdicts: map<string, bool>, total: real)
    ensures EndsOnce(EncodeStage(plan, s, verdicts, total))
  {
    var pre := [InfoFor(plan, verdicts, total)] + WarningStage(plan, verdicts) + [Phase(EncodePhase)]
               + ProgressEvents(s.progressLines, total);
    assert forall i :: 0 <= i < |pre| ==> !IsTerminal(pre[i]) && !pre[i].Spawned?;
    EndsOnceAfter(pre, [Outcome(s.encode)]);
  }

  lemma TraceEndsOnce(plan: Plan, cat: string, s: Steps)
    ensures EndsOnce(CatfileStage(plan, cat, s))
    ensures EndsOnce(Trace(plan, cat, s))
  {
    if s.catfile.CatfileWritten? {
      match s.audio
      case Err(e) =>
      case Ok(verdicts) =>
        match s.total
        case Err(e) =>
        case Ok(total) =>
          EncodeStageEndsOnce(plan, s, verdicts, total);
        EndsOnceAfter([Phase(DurationPhase)], DurationStage(plan, s, verdicts));
      EndsOnceAfter([Prepared(cat)] + [Phase(AudioPhase)], AudioStage(plan, s));
    }
    EndsOnceAfter([Start(plan.target.leaf)] + [Phase(PreparePhase)], CatfileStage(plan, cat, s));
  }

  /** A job starts with `Start` and the catfile phase, sends exactly one
      terminal event, `Finished` or `Failed`, as its last, and never sends
      `Spawned`. */
  lemma JobEndsOnce(plan: Plan, w: World)
    ensures |JobPayloads(plan, w)| >= 3
    ensures JobPayloads(plan, w)[0] == Start(plan.target.leaf)
    ensures JobPayloads(plan, w)[1] == Phase(PreparePhase)
    ensures EndsOnce(JobPayloads(plan, w))
  {
    TraceEndsOnce(plan, CatfileOf(plan, w), StepsOf(w));
  }

  function Last(t: seq<Payload>): Payload
    requires |t| > 0
  {
    t[|t| - 1]
  }

  lemma LastAppend(a: seq<Payload>, b: seq<Payload>)
    requires |b| > 0
    ensures Last(a + b) == Last(b)
  {
  }

  lemma TraceOutcome(plan: Plan, cat: string, s: Steps)
    ensures |Trace(plan, cat, s)| > 0
    ensures s.catfile.CreateFailed? ==>
              Trace(plan, cat, s) == [Start(plan.target.leaf), Phase(PreparePhase), Failed(CreateCatFile(cat, s.catfile.detail))]
    ensures s.catfile.WriteFailed? ==>
              Trace(plan, cat, s) == [Start(plan.target.leaf), Phase(PreparePhase), Failed(WriteToCatFile(cat, s.catfile.detail))]
    ensures s.catfile.CatfileWritten? && s.audio.Err? ==> Last(Trace(plan, cat, s)) == Failed(s.audio.error)
    ensures s.catfile.CatfileWritten? && s.audio.Ok? && s.total.Err? ==> Last(Trace(plan, cat, s)) == Failed(s.total.error)
    ensures Reached(s) ==> Last(Trace(plan, cat, s)) == Outcome(s.encode)
  {
    TraceEndsOnce(plan, cat, s);
    LastAppend([Start(plan.target.leaf)] + [Phase(PreparePhase)], CatfileStage(plan, cat, s));
    if s.catfile.CatfileWritten? {
      LastAppend([Prepared(cat)] + [Phase(AudioPhase)], AudioStage(plan, s));
      match s.audio
      case Err(e) =>
      case Ok(verdicts) =>
        LastAppend([Phase(DurationPhase)], DurationStage(plan, s, verdicts));
    }
  }

  /** The terminal event names the first step that failed: the catfile, then
      the audio probes (with every probe error), then the duration probes
      (with the first failure in completion order), then the encoder. */
  lemma JobOutcome(plan: Plan, w: World)
    ensures |JobPayloads(plan, w)| > 0
    ensures w.catfile.CreateFailed? ==>
              JobPayloads(plan, w) == [Start(plan.target.leaf), Phase(PreparePhase),
                                       Failed(CreateCatFile(CatfileOf(plan, w), w.catfile.detail))]
    ensures w.catfile.WriteFailed? ==>
              JobPayloads(plan, w) == [Start(plan.target.leaf), Phase(PreparePhase),
                                       Failed(WriteToCatFile(CatfileOf(plan, w), w.catfile.detail))]
    ensures w.catfile.CatfileWritten? && (exists i :: 0 <= i < |w.audioProbes| && w.audioProbes[i].result.Err?) ==>
              Last(JobPayloads(plan, w)) == Failed(AudioFailures(ProbeErrors(w.audioProbes)))
    ensures w.catfile.CatfileWritten? && (forall i :: 0 <= i < |w.audioProbes| ==> w.audioProbes[i].result.Ok?)
            && TotalSeconds(w.durationProbes, w.parseFloat).Err? ==>
              Last(JobPayloads(plan, w)) == Failed(TotalSeconds(w.durationProbes, w.parseFloat).error)
    ensures Probed(w) ==> Last(JobPayloads(plan, w)) == Outcome(w.encode)
  {
    ProbeErrorsEmpty(w.audioProbes);
    TraceOutcome(plan, CatfileOf(plan, w), StepsOf(w));
  }

  /** The job finishes exactly when every step before the encode succeeded and
      the encoder ran to an exit, whatever its exit code; `Finished` carries
      the encoder's exit summary. */
  lemma JobFinishedIff(plan: Plan, w: World)
    ensures |JobPayloads(plan, w)| > 0
    ensures Last(JobPayloads(plan, w)).Finished? <==>
              && w.catfile.CatfileWritten?
              && (forall i :: 0 <= i < |w.audioProbes| ==> w.audioProbes[i].result.Ok?)
              && AllDurations(w.durationProbes, w.parseFloat)
              && w.encode.Ok?
    ensures Last(JobPayloads(plan, w)).Finished? ==> Last(JobPayloads(plan, w)) == Finished(w.encode.value)
  {
    ProbeErrorsEmpty(w.audioProbes);
    TotalSecondsSum(w.durationProbes, w.parseFloat);
    TraceOutcome(plan, CatfileOf(plan, w), StepsOf(w));
  }

  // ---------------------------------------------------------------------
  // Phases

  /** The warning stage holds at most the one warning. */
  lemma WarningStageShape(plan: Plan, verdicts: map<string, bool>)
    ensures |WarningStage(plan, verdicts)| <= 1
    ensures forall i :: 0 <= i < |WarningStage(plan, verdicts)| ==> WarningStage(plan, verdicts)[i].Warning?
  {
  }

  lemma EncodeTailPhases(info: Payload, warnings: seq<Payload>, progress: seq<Payload>, outcome: Payload)
    requires !info.Phase? && !outcome.Phase?
    requires forall i :: 0 <= i < |warnings| ==> warnings[i].Warning?
    requires forall i :: 0 <= i < |progress| ==> progress[i].Progress?
    ensures Select(EncodeTail(info, warnings, progress, outcome), IsPhase) == [Phase(EncodePhase)]
  {
    var tail := [Phase(EncodePhase)] + (progress + [outcome]);
    EncodePhaseThenNone(progress, outcome);
    SelectNone(warnings, IsPhase);
    SelectAppend(warnings, tail, IsPhase);
    assert Select(warnings + tail, IsPhase) == [Phase(EncodePhase)];
    SelectCons(info, warnings + tail, IsPhase);
    assert EncodeTail(info, warnings, progress, outcome) == [info] + (warnings + tail);
  }

  /** After the encode phase only progress and the outcome follow. */
  lemma EncodePhaseThenNone(progress: seq<Payload>, outcome: Payload)
    requires !outcome.Phase?
    requires forall i :: 0 <= i < |progress| ==> progress[i].Progress?
    ensures Select([Phase(EncodePhase)] + (progress + [outcome]), IsPhase) == [Phase(EncodePhase)]
  {
    var rest := progress + [outcome];
    SelectNone(rest, IsPhase);
    SelectFirst(Phase(EncodePhase), rest, IsPhase);
  }

  lemma EncodeStagePhases(plan: Plan, s: Steps, verdicts: map<string, bool>, total: real)
    ensures Select(EncodeStage(plan, s, verdicts, total), IsPhase) == [Phase(EncodePhase)]
  {
    WarningStageShape(plan, verdicts);
    EncodeTailPhases(InfoFor(plan, verdicts, total), WarningStage(plan, verdicts),
                     ProgressEvents(s.progressLines, total), Outcome(s.encode));
  }

  lemma AudioStagePhases(plan: Plan, s: Steps)
    ensures Select(AudioStage(plan, s), IsPhase)
         == if s.audio.Err? then []
            else if s.total.Err? then [Phase(DurationPhase)]
            else [Phase(DurationPhase), Phase(EncodePhase)]
  {
    match s.audio
    case Err(e) =>
      SelectOne(Failed(e), IsPhase);
    case Ok(verdicts) =>
      var d := DurationStage(plan, s, verdicts);
      match s.total
      case Err(e) =>
        SelectOne(Failed(e), IsPhase);
      case Ok(total) =>
        EncodeStagePhases(plan, s, verdicts, total);
      SelectCons(Phase(DurationPhase), d, IsPhase);
  }

  lemma CatfileStagePhases(plan: Plan, cat: string, s: Steps)
    ensures Select(CatfileStage(plan, cat, s), IsPhase)
         == if s.catfile.CatfileWritten? then [Phase(AudioPhase)] + Select(AudioStage(plan, s), IsPhase) else []
  {
    var c := CatfileStage(plan, cat, s);
    if s.catfile.CatfileWritten? {
      var a := AudioStage(plan, s);
      SelectCons(Phase(AudioPhase), a, IsPhase);
      SelectCons(Prepared(cat), [Phase(AudioPhase)] + a, IsPhase);
      assert c == [Prepared(cat)] + ([Phase(AudioPhase)] + a);
    } else {
      assert |c| == 1 && !c[0].Phase?;
      SelectOne(c[0], IsPhase);
      assert [c[0]] == c;
    }
  }

  lemma TracePhases(plan: Plan, cat: string, s: Steps)
    ensures Select(Trace(plan, cat, s), IsPhase)
         == if !s.catfile.CatfileWritten? then AllPhases[..1]
            else if s.audio.Err? then AllPhases[..2]
            else if s.total.Err? then AllPhases[..3]
            else AllPhases
  {
    TraceStartPhases(plan, cat, s);
    CatfileStagePhases(plan, cat, s);
    AudioStagePhases(plan, s);
    AllPhasesPrefixes();
  }

  lemma TraceStartPhases(plan: Plan, cat: string, s: Steps)
    ensures Select(Trace(plan, cat, s), IsPhase) == [Phase(PreparePhase)] + Select(CatfileStage(plan, cat, s), IsPhase)
  {
    var c := CatfileStage(plan, cat, s);
    var start := Start(plan.target.leaf);
    assert Trace(plan, cat, s) == [start] + [Phase(PreparePhase)] + c;
    SelectPair(start, Phase(PreparePhase), c, IsPhase);
    assert !IsPhase(start) && IsPhase(Phase(PreparePhase));
    assert [] + [Phase(PreparePhase)] == [Phase(PreparePhase)];
  }

  lemma AllPhasesPrefixes()
    ensures AllPhases[..1] == [Phase(PreparePhase)]
    ensures AllPhases[..2] == [Phase(PreparePhase)] + [Phase(AudioPhase)]
    ensures AllPhases[..3] == [Phase(PreparePhase)] + ([Phase(AudioPhase)] + [Phase(DurationPhase)])
    ensures AllPhases == [Phase(PreparePhase)] + ([Phase(AudioPhase)] + [Phase(DurationPhase), Phase(EncodePhase)])
  {
  }

  /** The phases a job announces are the first ones of the fixed order: the
      catfile phase always, the audio phase once the catfile is written, the
      duration phase once the audio probes succeed, the encode phase once the
      durations are known. */
  lemma JobPhases(plan: Plan, w: World)
    ensures 1 <= |Select(JobPayloads(plan, w), IsPhase)| <= |AllPhases|
    ensures Select(JobPayloads(plan, w), IsPhase) == AllPhases[..|Select(JobPayloads(plan, w), IsPhase)|]
    ensures |Select(JobPayloads(plan, w), IsPhase)| >= 2 <==> w.catfile.CatfileWritten?
    ensures |Select(JobPayloads(plan, w), IsPhase)| >= 3 <==>
              w.catfile.CatfileWritten? && forall i :: 0 <= i < |w.audioProbes| ==> w.audioProbes[i].result.Ok?
    ensures |Select(JobPayloads(plan, w), IsPhase)| == 4 <==> Probed(w)
  {
    ProbeErrorsEmpty(w.audioProbes);
    TracePhases(plan, CatfileOf(plan, w), StepsOf(w));
  }

  // ---------------------------------------------------------------------
  // Summary and warning

  lemma EncodeTailSummary(info: Payload, warnings: seq<Payload>, progress: seq<Payload>, outcome: Payload)
    requires info.Info? && !outcome.Info? && !outcome.Warning?
    requires forall i :: 0 <= i < |warnings| ==> warnings[i].Warning?
    requires forall i :: 0 <= i < |progress| ==> progress[i].Progress?
    ensures Select(EncodeTail(info, warnings, progress, outcome), IsInfo) == [info]
    ensures Select(EncodeTail(info, warnings, progress, outcome), IsWarning) == warnings
  {
    var rest := [Phase(EncodePhase)] + progress + [outcome];
    assert EncodeTail(info, warnings, progress, outcome) == [info] + (warnings + rest);
    SelectNone(rest, IsInfo);
    SelectNone(rest, IsWarning);
    SelectNone(warnings, IsInfo);
    SelectAppend(warnings, rest, IsInfo);
    SelectAppend(warnings, rest, IsWarning);
    SelectCons(info, warnings + rest, IsInfo);
    SelectCons(info, warnings + rest, IsWarning);
    SelectAll(warnings, IsWarning);
  }

  /** Selecting a kind every payload has keeps them all. */
  lemma {:induction false} SelectAll(t: seq<Payload>, f: Payload -> bool)
    requires forall i :: 0 <= i < |t| ==> f(t[i])
    ensures Select(t, f) == t
  {
    if |t| > 0 {
      assert forall i :: 0 <= i < |t[1..]| ==> f(t[1..][i]);
      SelectAll(t[1..], f);
    }
  }

  lemma EncodeStageSummary(plan: Plan, s: Steps, verdicts: map<string, bool>, total: real)
    ensures Select(EncodeStage(plan, s, verdicts, total), IsInfo) == [InfoFor(plan, verdicts, total)]
    ensures Select(EncodeStage(plan, s, verdicts, total), IsWarning) == WarningStage(plan, verdicts)
  {
    WarningStageShape(plan, verdicts);
    EncodeTailSummary(InfoFor(plan, verdicts, total), WarningStage(plan, verdicts),
                      ProgressEvents(s.progressLines, total), Outcome(s.encode));
  }

  /** The summaries and warnings a stage sends. */
  function Summaries(t: seq<Payload>): (seq<Payload>, seq<Payload>)
  {
    (Select(t, IsInfo), Select(t, IsWarning))
  }

  lemma SummariesCons(p: Payload, t: seq<Payload>)
    requires !p.Info? && !p.Warning?
    ensures Summaries([p] + t) == Summaries(t)
  {
    SelectCons(p, t, IsInfo);
    SelectCons(p, t, IsWarning);
    assert !IsInfo(p) && !IsWarning(p);
    assert [] + Select(t, IsInfo) == Select(t, IsInfo);
    assert [] + Select(t, IsWarning) == Select(t, IsWarning);
  }

  lemma SummariesOne(p: Payload)
    requires !p.Info? && !p.Warning?
    ensures Summaries([p]) == ([], [])
  {
    SelectOne(p, IsInfo);
    SelectOne(p, IsWarning);
  }

  lemma AudioStageSummary(plan: Plan, s: Steps)
    ensures Summaries(AudioStage(plan, s))
         == if s.audio.Ok? && s.total.Ok? then ([InfoFor(plan, s.audio.value, s.total.value)], WarningStage(plan, s.audio.value))
            else ([], [])
  {
    match s.audio
    case Err(e) =>
      SummariesOne(Failed(e));
    case Ok(verdicts) =>
      match s.total
      case Err(e) =>
        SummariesOne(Failed(e));
      case Ok(total) =>
        EncodeStageSummary(plan, s, verdicts, total);
      SummariesCons(Phase(DurationPhase), DurationStage(plan, s, verdicts));
  }

  lemma TraceSummary(plan: Plan, cat: string, s: Steps)
    ensures Select(Trace(plan, cat, s), IsInfo)
         == if Reached(s) then [InfoFor(plan, s.audio.value, s.total.value)] else []
    ensures Select(Trace(plan, cat, s), IsWarning)
         == if Reached(s) then WarningStage(plan, s.audio.value) else []
  {
    var c := CatfileStage(plan, cat, s);
    if s.catfile.CatfileWritten? {
      var a := AudioStage(plan, s);
      AudioStageSummary(plan, s);
      SummariesCons(Phase(AudioPhase), a);
      SummariesCons(Prepared(cat), [Phase(AudioPhase)] + a);
      assert c == [Prepared(cat)] + ([Phase(AudioPhase)] + a);
    } else {
      SummariesOne(c[0]);
      assert [c[0]] == c;
    }
    SummariesCons(Phase(PreparePhase), c);
    SummariesCons(Start(plan.target.leaf), [Phase(PreparePhase)] + c);
    assert Trace(plan, cat, s) == [Start(plan.target.leaf)] + ([Phase(PreparePhase)] + c);
  }

  /** A job sends one `Info` exactly when it gets past both probe phases; the
      summary counts the plan's sources, carries the summed durations, says
      whether every source has audio, and names the encode strategy. The
      video-only warning is sent exactly when the filter-graph strategy meets a
      source without audio, and counts the sources that have audio. */
  lemma JobSummary(plan: Plan, w: World)
    ensures |Select(JobPayloads(plan, w), IsInfo)| == (if Probed(w) then 1 else 0)
    ensures Probed(w) ==>
              && AllDurations(w.durationProbes, w.parseFloat)
              && Select(JobPayloads(plan, w), IsInfo)
                == [Info(|plan.sources|, Sum(Durations(w.durationProbes, w.parseFloat)),
                         AllHaveAudio(SourceLeavesOf(plan), CollectAudio(w.audioProbes).value),
                         if UsesConcatFilter(plan.flags) then "filter_complex" else "concat")]
    ensures |Select(JobPayloads(plan, w), IsWarning)| > 0 <==>
              Probed(w) && UsesConcatFilter(plan.flags) && !AllHaveAudio(SourceLeavesOf(plan), CollectAudio(w.audioProbes).value)
    ensures Probed(w) ==>
              Select(JobPayloads(plan, w), IsWarning) == WarningStage(plan, CollectAudio(w.audioProbes).value)
  {
    TotalSecondsSum(w.durationProbes, w.parseFloat);
    TraceSummary(plan, CatfileOf(plan, w), StepsOf(w));
  }

  /** When the verdicts are only for the plan's sources (every probe
      successful), the warning's count is below the source count, even when
      two sources share a leaf. */
  lemma WarningCountBelowSources(plan: Plan, w: World)
    requires Probed(w)
    requires forall l :: l in CollectAudio(w.audioProbes).value ==> l in SourceLeavesOf(plan)
    requires UsesConcatFilter(plan.flags) && !AllHaveAudio(SourceLeavesOf(plan), CollectAudio(w.audioProbes).value)
    ensures AudioCount(CollectAudio(w.audioProbes).value) < |plan.sources|
  {
    AudioCountBelowSources(SourceLeavesOf(plan), CollectAudio(w.audioProbes).value);
  }

  /** Reads the two counts back out of a warning text. */
  function ReadWarning(m: string): Option<(nat, nat)>
  {
    if |m| < 5 || m[..5] != "Only " then None
    else
      match ReadDigits(m[5..])
      case None => None
      case Some((withAudio, r)) =>
        if |r| == 0 || r[0] != '/' then None
        else
          match ReadDigits(r[1..])
          case None => None
          case Some((sources, t)) => if t == WarningTail then Some((withAudio, sources)) else None
  }

  /** The warning text gives back both counts, so different counts give
      different texts. */
  lemma ReadWarningMessage(withAudio: nat, sources: nat)
    ensures ReadWarning(WarningMessage(withAudio, sources)) == Some((withAudio, sources))
  {
    var a, b := NatToString(withAudio), NatToString(sources);
    assert WarningMessage(withAudio, sources) == "Only " + (a + (['/'] + (b + WarningTail)));
    ReadWarningOf(a, b);
    DigitsValueOfNatToString(withAudio);
    DigitsValueOfNatToString(sources);
  }

  lemma ReadWarningOf(a: string, b: string)
    requires |a| > 0 && AllDigits(a) && |b| > 0 && AllDigits(b)
    ensures ReadWarning("Only " + (a + (['/'] + (b + WarningTail)))) == Some((DigitsValue(a), DigitsValue(b)))
  {
    var rest := b + WarningTail;
    var m := "Only " + (a + (['/'] + rest));
    assert m[..5] == "Only " && m[5..] == a + (['/'] + rest);
    ReadDigitsOf(a, '/', rest);
    WarningTailAfterDigits(b);
  }

  lemma WarningTailAfterDigits(b: string)
    requires |b| > 0 && AllDigits(b)
    ensures ReadDigits(b + WarningTail) == Some((DigitsValue(b), WarningTail))
  {
    assert WarningTail[0] == ' ';
    assert WarningTail == [' '] + WarningTail[1..];
    ReadDigitsOf(b, ' ', WarningTail[1..]);
  }

  lemma WarningMessageInjective(k1: nat, n1: nat, k2: nat, n2: nat)
    ensures WarningMessage(k1, n1) == WarningMessage(k2, n2) ==> k1 == k2 && n1 == n2
  {
    ReadWarningMessage(k1, n1);
    ReadWarningMessage(k2, n2);
  }

  // ---------------------------------------------------------------------
  // Progress

  /** Every `Progress` in `t` follows an encode phase and carries `total`. */
  predicate ProgressAfterEncode(t: seq<Payload>, total: real) {
    forall i :: 0 <= i < |t| && t[i].Progress? ==>
      (exists j :: 0 <= j < i && t[j] == Phase(EncodePhase)) && t[i].totalSeconds == total
  }

  predicate NoProgress(t: seq<Payload>) {
    forall i :: 0 <= i < |t| ==> !t[i].Progress?
  }

  lemma EncodeTailProgress(info: Payload, warnings: seq<Payload>, progress: seq<Payload>, outcome: Payload, total: real)
    requires !info.Progress? && !outcome.Progress?
    requires NoProgress(warnings)
    requires forall i :: 0 <= i < |progress| ==> progress[i].Progress? && progress[i].totalSeconds == total
    ensures ProgressAfterEncode(EncodeTail(info, warnings, progress, outcome), total)
  {
    var t := EncodeTail(info, warnings, progress, outcome);
    var k := 1 + |warnings|;
    assert t == ([info] + warnings + [Phase(EncodePhase)]) + progress + [outcome];
    assert t[0] == info && t[k] == Phase(EncodePhase) && t[|t| - 1] == outcome;
    assert forall m :: 1 <= m < k ==> t[m] == warnings[m - 1];
    assert forall m :: k < m < |t| - 1 ==> t[m] == progress[m - k - 1];
    forall i | 0 <= i < |t| && t[i].Progress?
      ensures (exists j :: 0 <= j < i && t[j] == Phase(EncodePhase)) && t[i].totalSeconds == total
    {
      assert k < i < |t| - 1;
    }
  }

  lemma ProgressAfterEncodeShift(pre: seq<Payload>, t: seq<Payload>, total: real)
    requires NoProgress(pre) && ProgressAfterEncode(t, total)
    ensures ProgressAfterEncode(pre + t, total)
  {
    var u := pre + t;
    forall i | 0 <= i < |u| && u[i].Progress?
      ensures (exists j :: 0 <= j < i && u[j] == Phase(EncodePhase)) && u[i].totalSeconds == total
    {
      assert i >= |pre|;
      assert u[i] == t[i - |pre|];
      var j :| 0 <= j < i - |pre| && t[j] == Phase(EncodePhase);
      assert u[j + |pre|] == t[j];
    }
  }

  lemma NoProgressAppend(a: seq<Payload>, b: seq<Payload>)
    requires NoProgress(a) && NoProgress(b)
    ensures NoProgress(a + b)
  {
    assert forall i :: |a| <= i < |a + b| ==> (a + b)[i] == b[i - |a|];
  }

  /** A trace holds `Progress` only when the job reached the encoder; each one
      then follows the encode phase and carries the announced total. */
  lemma TraceProgress(plan: Plan, cat: string, s: Steps)
    ensures Reached(s) ==> ProgressAfterEncode(Trace(plan, cat, s), s.total.value)
    ensures !Reached(s) ==> NoProgress(Trace(plan, cat, s))
  {
    var head := [Start(plan.target.leaf)] + [Phase(PreparePhase)];
    var c := CatfileStage(plan, cat, s);
    assert Trace(plan, cat, s) == head + c;
    if s.catfile.CatfileWritten? {
      var mid := [Prepared(cat)] + [Phase(AudioPhase)];
      var a := AudioStage(plan, s);
      assert c == mid + a;
      if s.audio.Ok? {
        var verdicts := s.audio.value;
        var d := DurationStage(plan, s, verdicts);
        assert a == [Phase(DurationPhase)] + d;
        if s.total.Ok? {
          var total := s.total.value;
          WarningStageShape(plan, verdicts);
          EncodeTailProgress(InfoFor(plan, verdicts, total), WarningStage(plan, verdicts),
                             ProgressEvents(s.progressLines, total), Outcome(s.encode), total);
          assert d == EncodeStage(plan, s, verdicts, total);
          ProgressAfterEncodeShift([Phase(DurationPhase)], d, total);
          ProgressAfterEncodeShift(mid, a, total);
          ProgressAfterEncodeShift(head, c, total);
        } else {
          assert d == [Failed(s.total.error)];
          NoProgressAppend([Phase(DurationPhase)], d);
          NoProgressAppend(mid, a);
          NoProgressAppend(head, c);
        }
      } else {
        assert a == [Failed(s.audio.error)];
        NoProgressAppend(mid, a);
        NoProgressAppend(head, c);
      }
    } else {
      assert |c| == 1 && !c[0].Progress?;
      NoProgressAppend(head, c);
    }
  }

  /** Every `Progress` event comes after the encode phase, is for a job that
      got that far, and carries the expected total the summary announced. */
  lemma ProgressAfterEncodePhase(plan: Plan, w: World)
    ensures forall i :: 0 <= i < |JobPayloads(plan, w)| && JobPayloads(plan, w)[i].Progress? ==>
              && Probed(w)
              && AllDurations(w.durationProbes, w.parseFloat)
              && (exists j :: 0 <= j < i && JobPayloads(plan, w)[j] == Phase(EncodePhase))
              && JobPayloads(plan, w)[i].totalSeconds == Sum(Durations(w.durationProbes, w.parseFloat))
  {
    var s := StepsOf(w);
    var t := Trace(plan, CatfileOf(plan, w), s);
    assert JobPayloads(plan, w) == t;
    TotalSecondsSum(w.durationProbes, w.parseFloat);
    TraceProgress(plan, CatfileOf(plan, w), s);
  }

  // ---------------------------------------------------------------------
  // The encode command

  /** The encode command exists exactly when the job announces the encode
      phase; it then reads back as an ffmpeg invocation that writes the plan's
      target. */
  lemma EncodeCommandIffEncodePhase(plan: Plan, w: World)
    ensures EncodeCommand(plan, w).Some? <==> Phase(EncodePhase) in Select(JobPayloads(plan, w), IsPhase)
    ensures EncodeCommand(plan, w).Some? ==>
              && ReadArgv(EncodeCommand(plan, w).value).Some?
              && ReadArgv(EncodeCommand(plan, w).value).value.output == plan.target.path
  {
    var s, cat := StepsOf(w), CatfileOf(plan, w);
    assert JobPayloads(plan, w) == Trace(plan, cat, s);
    assert Phase(EncodePhase) in Select(Trace(plan, cat, s), IsPhase) <==> Reached(s) by {
      TracePhases(plan, cat, s);
      EncodePhaseLast();
    }
    if Probed(w) {
      EncodeArgvReads(plan, CollectAudio(w.audioProbes).value, cat);
    }
  }

  /** Only the whole phase list holds the encode phase. */
  lemma EncodePhaseLast()
    ensures Phase(EncodePhase) !in AllPhases[..1]
    ensures Phase(EncodePhase) !in AllPhases[..2]
    ensures Phase(EncodePhase) !in AllPhases[..3]
    ensures Phase(EncodePhase) in AllPhases
  {
    AllPhasesPrefixes();
  }


  /** The encode command is built from the same audio verdicts the summary
      reports: audio is encoded exactly when the strategy is the filter graph
      and the summary says every source has audio. */
  lemma EncodeCommandAgreesWithSummary(plan: Plan, w: World)
    requires Probed(w)
    ensures |Select(JobPayloads(plan, w), IsInfo)| == 1
    ensures EncodeCommand(plan, w).Some? && ReadArgv(EncodeCommand(plan, w).value).Some?
    ensures forall p :: p in Select(JobPayloads(plan, w), IsInfo) ==>
              && p.Info?
              && ((|ValuesOf(ReadArgv(EncodeCommand(plan, w).value).value.options, "-c:a")| > 0)
                  <==> UsesConcatFilter(plan.flags) && p.hasAudio)
  {
    var verdicts := CollectAudio(w.audioProbes).value;
    var info := InfoFor(plan, verdicts, TotalSeconds(w.durationProbes, w.parseFloat).value);
    assert Select(JobPayloads(plan, w), IsInfo) == [info] by {
      TraceSummary(plan, CatfileOf(plan, w), StepsOf(w));
    }
    assert EncodeCommand(plan, w) == Some(EncodeArgv(plan, verdicts, CatfileOf(plan, w)));
    EncodeArgvReads(plan, verdicts, CatfileOf(plan, w));
  }

  // ---------------------------------------------------------------------
  // A worked case

  /** Two sources, concatenated through the filter graph. */
  function ExamplePlan(): Plan
  {
    Plan(PlanPath("out/t.mp4", "t.mp4"), [PlanPath("in/s1.mp4", "s1.mp4"), PlanPath("in/s2.mp4", "s2.mp4")], [ConcatFilter])
  }

  lemma ExampleWarningText()
    ensures WarningMessage(1, 2) == "Only 1/2" + WarningTail
  {
    assert DigitChar(1) == '1' && DigitChar(2) == '2';
    assert NatToString(1) == "1" && NatToString(2) == "2";
  }

  /** With the first source having audio and the second not: the summary says
      not every source has audio and the warning reads "Only 1/2 ...". */
  lemma MixedAudioSummary(w: World, x1: ToolExit, x2: ToolExit)
    requires HasAudio(x1) && !HasAudio(x2)
    requires w.catfile == CatfileWritten
    requires w.audioProbes == [AudioProbe("s1.mp4", Ok(x1)), AudioProbe("s2.mp4", Ok(x2))]
    requires AllDurations(w.durationProbes, w.parseFloat)
    ensures Select(JobPayloads(ExamplePlan(), w), IsInfo)
            == [Info(2, Sum(Durations(w.durationProbes, w.parseFloat)), false, "filter_complex")]
    ensures Select(JobPayloads(ExamplePlan(), w), IsWarning)
            == [Warning("Only 1/2" + WarningTail)]
  {
    var plan := ExamplePlan();
    var verdicts := ExampleVerdicts();
    var total := Sum(Durations(w.durationProbes, w.parseFloat));
    MixedAudioVerdicts(w.audioProbes, x1, x2);
    TotalSecondsSum(w.durationProbes, w.parseFloat);
    ExampleStages(total);
    assert JobPayloads(plan, w) == Trace(plan, CatfileOf(plan, w), StepsOf(w));
    TraceSummary(plan, CatfileOf(plan, w), StepsOf(w));
  }

  function ExampleVerdicts(): map<string, bool>
  {
    map["s1.mp4" := true, "s2.mp4" := false]
  }

  /** The summary and the warning of the worked case. */
  lemma ExampleStages(total: real)
    ensures InfoFor(ExamplePlan(), ExampleVerdicts(), total) == Info(2, total, false, "filter_complex")
    ensures WarningStage(ExamplePlan(), ExampleVerdicts()) == [Warning("Only 1/2" + WarningTail)]
  {
    var plan := ExamplePlan();
    var verdicts := ExampleVerdicts();
    assert SourceLeavesOf(plan) == ["s1.mp4", "s2.mp4"];
    assert !AllHaveAudio(SourceLeavesOf(plan), verdicts);
    assert AudioCount(verdicts) == 1 by {
      assert (set l | l in verdicts && verdicts[l]) == {"s1.mp4"};
    }
    ExampleWarningText();
  }

  /** In the same case the encode command maps the video output only and sets
      no audio codec. */
  lemma MixedAudioCommand(w: World, x1: ToolExit, x2: ToolExit)
    requires HasAudio(x1) && !HasAudio(x2)
    requires w.catfile == CatfileWritten
    requires w.audioProbes == [AudioProbe("s1.mp4", Ok(x1)), AudioProbe("s2.mp4", Ok(x2))]
    requires AllDurations(w.durationProbes, w.parseFloat)
    ensures EncodeCommand(ExamplePlan(), w).Some?
    ensures ReadArgv(EncodeCommand(ExamplePlan(), w).value).Some?
    ensures ValuesOf(ReadArgv(EncodeCommand(ExamplePlan(), w).value).value.options, "-c:a") == []
    ensures ValuesOf(ReadArgv(EncodeCommand(ExamplePlan(), w).value).value.options, "-map") == ["[outv]"]
  {
    var plan := ExamplePlan();
    var verdicts := map["s1.mp4" := true, "s2.mp4" := false];
    MixedAudioVerdicts(w.audioProbes, x1, x2);
    TotalSecondsSum(w.durationProbes, w.parseFloat);
    assert SourceLeavesOf(plan) == ["s1.mp4", "s2.mp4"];
    assert !AllHaveAudio(SourceLeavesOf(plan), verdicts);
    assert EncodeCommand(plan, w) == Some(FilterArgv(SourcePathsOf(plan), false, plan.target.path));
    FilterArgvReads(SourcePathsOf(plan), false, plan.target.path);
    FilterOptsValues(SourcePathsOf(plan), false);
  }

  lemma MixedAudioVerdicts(probes: seq<AudioProbe>, x1: ToolExit, x2: ToolExit)
    requires HasAudio(x1) && !HasAudio(x2)
    requires probes == [AudioProbe("s1.mp4", Ok(x1)), AudioProbe("s2.mp4", Ok(x2))]
    ensures CollectAudio(probes) == Ok(map["s1.mp4" := true, "s2.mp4" := false])
  {
    ProbeErrorsEmpty(probes);
    var first := probes[..1];
    assert first == [AudioProbe("s1.mp4", Ok(x1))];
    assert first[..0] == [];
    assert AudioMap(first) == map["s1.mp4" := true];
    assert probes[..|probes| - 1] == first;
  }
}
