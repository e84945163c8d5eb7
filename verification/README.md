# stitch, modelled in Dafny

stitch concatenates video files. A spec file lists targets: a line `name:` opens
a target, and the tab-indented lines under it name its sources. stitch parses
the spec into plans and validates them. The validation rejects duplicate target
names, duplicate source names within a plan, and sources that do not exist.

For every plan, stitch first writes a concatenation file ("catfile"). It then
probes every source with ffprobe, once for an audio stream and once for the
duration. Finally it runs ffmpeg, either through the concat demuxer with stream
copy or through a `filter_complex` re-encode. While it works, it reports
numbered progress events on a channel. The ffmpeg and ffprobe binaries are
found through an explicit path or through `PATH`.

The project models three parts of stitch:

- **The spec parser and the validation pass** (`src/parse.rs`).
- **The pure parts of one job** (`src/execute.rs`):
  - the catfile's name and content;
  - the audio-probe and duration-probe reductions;
  - the progress reader;
  - the filter graph and ffmpeg argument list;
  - the event numbering;
  - the order of events a job sends.
- **Binary discovery** (`src/env.rs`).

It also models the results of the runners in `src/ffprobe.rs` and
`src/ffmpeg.rs`, because the job reads those results.

Modules, one per file:

| module | file | what it holds |
|---|---|---|
| `Wrappers` | wrappers.dfy | `Option`, `Result` |
| `Text` | text.dfy | Rust's `trim`, `replace`, `split`, `join` and decimal rendering |
| `PlanModel` | plan.dfy | `Plan`, `PlanPath`, `PathBuf::join` |
| `Parse` | parse.dfy | line classification and the line loop |
| `ParseProofs` | parse_proofs.dfy | error cases, file order, render/parse round trip |
| `Validate` | validate.dfy | the validation loop and `parse_spec` |
| `Tools` | tools.dfy | the ffprobe/ffmpeg runner results |
| `Events` | events.dfy | event payloads and sequence numbering |
| `Catfile` | catfile.dfy | the concatenation file |
| `Audio` | audio.dfy | the audio-probe phase |
| `Duration` | duration.dfy | the duration-probe phase |
| `Progress` | progress.dfy | the `out_time_us` reader |
| `FilterGraph` | filtergraph.dfy | the `filter_complex` text |
| `Argv` | argv.dfy | ffmpeg's argument list and a reader for it |
| `Job` | job.dfy | the whole event trace of one job |
| `Env` | env.dfy | binary discovery |

Some parts of the job depend on the outside world:

- what the filesystem says about paths;
- whether the catfile could be created and written;
- each probe's result, in completion order;
- the ffmpeg run's end;
- the stdout lines the reader consumed.

The model does not compute these. They arrive as one value of type `Job.World`,
and every property is stated for every such value.

In these places the model follows the code as written:

- The video-only warning reads `Only k/n sources have audio - output will be video-only`, with a plain hyphen.
- The audio probes run before the duration probes, one phase after the other.
- A completed ffmpeg run is `Finished`, whatever its exit code.
- The duration probe ignores the probe's exit status.
- `src/parse.rs` declares `Plan` without a `flags` field. `src/execute.rs` reads `plan.flags` to choose the filter graph. The model gives `Plan` a flag list, and the parser always leaves that list empty.

## Model

| member | source | states |
|---|---|---|
| Parse.TargetCapture | src/parse.rs:12 | The capture is the line without its final ':' and is non-empty. `None` means no capture of `^(.+):$` exists. |
| Parse.SourceCapture | src/parse.rs:13 | The capture is the line without its leading tab and is non-empty. `None` means no capture of `^\t(.+)$` exists. |
| Parse.Classify | src/parse.rs:146-235 | Each of the four arms is taken exactly when its two expression results hold (target only, source only, both, or blank neither). The names carried are the trimmed captures. |
| Parse.Run | src/parse.rs:141-236 | Every plan the loop produces has its target under the target directory and its sources under the sources directory. A loop failure is never a validation error. |
| ParseProofs.ErrorIsFinal | src/parse.rs:141-236 | If a prefix of the lines fails, the whole parse fails with that same error. |
| ParseProofs.FirstErrorAborts | src/parse.rs:141-236 | The first line whose step fails decides the parse's error. |
| ParseProofs.SourceAndTargetAborts | src/parse.rs:203-215 | A line matching both expressions aborts with `UnexpectedSourceAndTarget`, carrying the line and both trimmed names. |
| ParseProofs.InvalidLineAborts | src/parse.rs:216-223 | A line matching neither expression and not blank aborts with `InvalidLine`. |
| ParseProofs.SourceWithoutTargetAborts | src/parse.rs:179-190 | A source line on the first line or after a blank line aborts with `MissingTarget`. |
| ParseProofs.NothingOpenAfterBlank | src/parse.rs:225-233 | No plan is open at the start or after a blank line. |
| ParseProofs.TargetClosingEmptyPlanAborts | src/parse.rs:150-162 | A target line right after a target line aborts with `MissingSources`, naming the earlier target. |
| ParseProofs.BlankLineClosesEmptyPlan | src/parse.rs:225-233 | A blank line pushes the open plan even when it has no sources, and leaves nothing open. |
| ParseProofs.FinalTargetKeptWithoutSources | src/parse.rs:238-245 | A plan still open at the end is pushed without the source-count check. |
| ParseProofs.AdvanceKeepsOrder | src/parse.rs:150-202 | One step appends at most the new target's leaf and the new source's leaf to the leaves so far. |
| ParseProofs.ParseKeepsFileOrder | src/parse.rs:141-245 | Plans come out in the order of their target lines. All plans' sources, taken plan after plan, follow the order of the source lines. |
| ParseProofs.RunBlock | src/parse.rs:150-233 | A rendered block opens its plan, adds its sources in order, and closes the plan at the blank line. |
| ParseProofs.ParseRender | src/parse.rs:141-245 | Rendering blocks with clean names and parsing the lines gives one plan per block, with the names as written. |
| PlanModel.NewRelativeToInjective | src/parse.rs:28-39 | Under one directory, two names give the same path exactly when they are equal. The leaf is the text after the directory and separator. |
| PlanModel.JoinPathLastComponent | src/env.rs:46 | Joining a separator-free name onto any base ends the path in that name. |
| Validate.ValidatePlans | src/parse.rs:251-302 | The loop's error list equals the recursive reference definition: per plan, a duplicate-target report, then each source's duplicate and missing reports. |
| Validate.ValidateSources | src/parse.rs:269-301 | A plan's source loop, with a fresh set of leaves, matches the per-source reference definition. |
| Validate.ParseSpec | src/parse.rs:238-316 | A grammar error is returned unchanged. Otherwise the result is `Ok` exactly when the plans are valid, and is then those plans. A validation error carries every report, and there is at least one. |
| Validate.DuplicateTargetReported | src/parse.rs:255-267 | A `DuplicateTarget` for t is reported exactly when two plans have target leaf t. |
| Validate.DuplicateSourceReported | src/parse.rs:271-284 | A `DuplicateSource` is reported exactly when one plan lists a source leaf twice. |
| Validate.MissingSourceReported | src/parse.rs:286-300 | A `MissingSource` is reported exactly when a plan has a source whose path does not resolve. |
| Validate.NoErrorsIffValid | src/parse.rs:304-308 | The pass reports nothing exactly when the plans satisfy the validity predicate. |
| Validate.ErrorCountBound | src/parse.rs:255-302 | Each plan yields at most one target report and two reports per source. |
| Text.Trim | src/parse.rs:112 | The result has no whitespace at either end. It is empty exactly when the input is all whitespace. It is the input itself when the input is already trimmed. |
| Text.TrimIsInnerSubstring | src/parse.rs:112 | Trimming removes only whitespace, and only from the two ends. |
| Text.SplitOnJoin | src/env.rs:43 | Splitting on ':' recovers the parts, provided no part contains ':'. |
| Text.DigitsValueOfNatToString | src/execute.rs:356-360 | A rendered number reads back as itself. |
| Tools.RunResult | src/ffprobe.rs:46-89 | A run that waited to its exit is `Ok`, whatever its exit code, with the status and both streams' lines recorded. A failed spawn is `BadSpawn`, a failed wait is `BadExit`, and a cancelled run is `Cancelled`. |
| Tools.RunResultDeterminesEnd | src/ffprobe.rs:46-89 | Two runs with the same output give the same result exactly when they ended the same way, so the result tells how the run ended. |
| Tools.NonZeroExitIsOk | src/ffmpeg.rs:70-84 | A non-zero exit code is still an `Ok` run whose status is not a success. |
| Events.Send | src/execute.rs:130-145 | The event carries the counter's old value, and the counter advances by one modulo 2^64. |
| Events.SendAll | src/execute.rs:130-145 | The k-th event of a batch carries (start + k) mod 2^64, and earlier events are untouched. |
| Events.NumberEvents | src/execute.rs:135 | A fresh job's events are numbered 0, 1, 2, …, strictly increasing. |
| Events.CounterWraps | src/execute.rs:135 | After 2^64 events the counter is back at zero. |
| Catfile.CatfileName | src/execute.rs:163-166 | The name is the leaf with every '.' replaced by '_' and every other character kept, followed by `.catfile`. |
| Catfile.CatfileNameInjective | src/execute.rs:163-166 | For leaves without '_', distinct leaves give distinct catfile names. |
| Catfile.CatfileNamesCollide | src/execute.rs:163-176 | `out.mp4` and `out_mp4` share one catfile name, so the exclusive create of the second job fails. |
| Catfile.CatfilePathLastComponent | src/execute.rs:163-166 | The catfile sits directly in the temporary directory under its name. |
| Catfile.ReadCatfileContent | src/execute.rs:180-186 | When no path contains a line feed, reading the file back lists exactly the plan's source paths, in order. |
| Catfile.CatfileLineUnquoted | src/execute.rs:184 | For a path without a quote, the concat demuxer's unquoting gives the path back. |
| Catfile.QuoteInPathIsLost | src/execute.rs:184 | The path `a'b` is read back as `ab`, because nothing is escaped. |
| Audio.GetSourceHasAudio | src/execute.rs:294-316 | The phase fails exactly when some probe failed, and then carries every probe error. Otherwise the map covers exactly the probed leaves, and each leaf gets its last probe's verdict. |
| Audio.ProbeErrorsComplete | src/execute.rs:297-314 | An error is reported exactly when some probe ended with it. |
| Audio.AudioMapDomain | src/execute.rs:297-308 | The map has an entry exactly for the leaves with a successful probe. |
| Audio.AudioMapLastWins | src/execute.rs:301-303 | A leaf's verdict is that of its last successful probe. |
| Audio.AudioMapOrderFree | src/execute.rs:294-308 | With one probe per leaf, the verdicts do not depend on the completion order. |
| Audio.AllHaveAudio | src/execute.rs:330-333 | True exactly when every source leaf has an entry and that entry is true. A missing entry counts as false. |
| Audio.AudioCountMatchesTieBreak | src/execute.rs:353-354 | With one entry per distinct source, the audio count is at most the source count. It equals the source count exactly when every source has audio. |
| Duration.DurationIgnoresStatus | src/execute.rs:230-241 | A probe's exit status and stderr do not change its duration. |
| Duration.ExpectedOutputSeconds | src/execute.rs:206-246 | The loop succeeds exactly when every probe yields a duration, and the total is then their sum. Otherwise it fails with the error of the first failing probe in completion order. |
| Duration.TotalSecondsSum | src/execute.rs:229-245 | The fail-fast fold succeeds exactly when every probe has a duration, and the result is then the sum. |
| Duration.TotalSecondsFails | src/execute.rs:230-241 | Once a probe fails, later probes do not change the error. |
| Duration.SumPermutation | src/execute.rs:229-243 | With exact arithmetic, the total is the same for every completion order. |
| Progress.OutTimeMicros | src/execute.rs:463-468 | A value is returned exactly when the line matches `^out_time_us=(\d+)$`, and it is the value of the captured digits. |
| Progress.MarkerRoundTrip | src/execute.rs:28-29 | The marker line for n microseconds is read back as n. |
| Progress.ProgressEvents | src/execute.rs:457-487 | Every event is a `Progress` carrying the announced total, and there are no more events than lines. |
| Progress.ProgressEventsAppend | src/execute.rs:457-487 | Reading two stretches of output gives the events of each, in order. |
| Progress.ProgressOfMarkers | src/execute.rs:465-476 | Marker lines give one event per marker, in order, each at microseconds / 10^6. |
| Progress.NoiseIgnored | src/execute.rs:465 | A non-marker line adds no event wherever it appears. |
| FilterGraph.FilterGraphIsChains | src/execute.rs:391-434 | The generated graph text is exactly the structured chains, written in ffmpeg's filtergraph syntax. |
| FilterGraph.ConcatConsumesPrepOutputs | src/execute.rs:393-430 | The concat filter reads every pad the preparation chains write, each exactly once, and nothing else. |
| FilterGraph.PrepOutputsDistinct | src/execute.rs:393-426 | No pad is written twice. |
| FilterGraph.ConcatSegments | src/execute.rs:403-430 | The concat filter has n video inputs, plus n audio inputs exactly when audio is kept. |
| FilterGraph.PrepChainsReadInputs | src/execute.rs:393-426 | Every preparation chain reads a stream of an existing input 0 ≤ i < n. |
| FilterGraph.ConcatOutputs | src/execute.rs:408-433 | The concat filter writes `outv`, and writes `outa` exactly when audio is kept. |
| Argv.ReadArgvOf | src/execute.rs:370-449 | Reading back the tokens of an invocation gives the invocation. |
| Argv.ConcatArgvReads | src/execute.rs:440-448 | The stream-copy argument list reads back as the demuxer options and the target. |
| Argv.ConcatOptsValues | src/execute.rs:440-446 | Stream copy uses the catfile as its one input, has no filter graph and no audio codec, and sends progress to stdout. |
| Argv.FilterArgvReads | src/execute.rs:379-448 | The re-encode argument list reads back as its options and the target. |
| Argv.FilterOptsValues | src/execute.rs:379-439 | Re-encoding has one input per source, in order, and the graph for that many inputs. It maps and encodes audio exactly in the all-audio branch, and sends progress to stdout. |
| Argv.EncodeArgvReads | src/execute.rs:370-449 | The command writes the plan's target. Its inputs are the sources in filter mode and the catfile otherwise. It encodes audio exactly in filter mode with every source having audio. |
| Job.JobEndsOnce | src/execute.rs:516-535 | A job sends `Start`, then the catfile phase. It sends exactly one terminal event, as its last, and never sends `Spawned`. |
| Job.JobOutcome | src/execute.rs:516-535 | The terminal event names the first failing step: catfile create or write, then all audio-probe errors, then the first duration failure, then the ffmpeg outcome. |
| Job.JobFinishedIff | src/execute.rs:516-528 | `Finished` is sent exactly when every step before the encode succeeded and ffmpeg ran to an exit, and it carries that exit. |
| Job.JobPhases | src/execute.rs:156-368 | The announced phases are a prefix of the fixed order: catfile, audio, duration, encoding. Each later phase appears exactly when the steps before it succeeded. |
| Job.JobSummary | src/execute.rs:341-363 | `Info` is sent once exactly when both probe phases succeed, with the source count, summed durations, all-audio flag and mode. The warning is sent exactly in filter mode with a source lacking audio. |
| Job.WarningCountBelowSources | src/execute.rs:353-362 | When every probe succeeds and the verdicts cover only the plan's sources, the warning's audio count is below the source count, even when two sources share a leaf. |
| Audio.AudioCountBelowSources | src/execute.rs:353-362 | If some source lacks audio and every verdict belongs to a source, fewer verdicts say "audio" than there are sources. |
| Job.ReadWarningMessage | src/execute.rs:356-360 | Both counts can be read back from the warning text. |
| Job.WarningMessageInjective | src/execute.rs:356-360 | Different counts give different warning texts. |
| Job.TraceProgress | src/execute.rs:457-487 | A trace holds `Progress` only when ffmpeg was reached. Each one follows the encode phase and carries the total. |
| Job.ProgressAfterEncodePhase | src/execute.rs:365-487 | Every `Progress` comes after the encoding phase and carries the total the summary announced. |
| Job.EncodeCommandIffEncodePhase | src/execute.rs:365-449 | An ffmpeg command exists exactly when the encoding phase is announced, and it writes the plan's target. |
| Job.EncodeCommandAgreesWithSummary | src/execute.rs:330-416 | The command encodes audio exactly when the mode is the filter graph and the summary says every source has audio. |
| Job.MixedAudioSummary | src/execute.rs:341-363 | With sources s1 (with audio) and s2 (without) in filter mode, the summary says not every source has audio, and the warning reads `Only 1/2 …`. |
| Job.MixedAudioCommand | src/execute.rs:417-434 | In the same case, the command maps only `[outv]` and sets no audio codec. |
| Env.ValidateBinary | src/env.rs:10-24 | The result is `Ok` exactly when the path resolves to a regular file, and it is the resolved path. |
| Env.FindBinary | src/env.rs:26-69 | A valid override wins. Otherwise the result is the first `PATH` candidate that validates, or `NotFound`. |
| Env.FirstValidIsFirst | src/env.rs:45-56 | The search finds nothing exactly when no candidate validates. Otherwise it returns the resolution of the first one that does. |
| Env.FindBinaryFound | src/env.rs:26-69 | The search succeeds exactly when the override or some `PATH` candidate validates, and the result is a regular file. |
| Env.UnsetPathSearchesBareName | src/env.rs:42-46 | With `PATH` unset, the only candidate is the bare binary name. |
| Env.SearchOrder | src/env.rs:43-46 | `PATH` directories are tried in the order listed. |
| Env.GetOrInit | src/env.rs:78-79 | Once a cell holds a value it keeps it, and the result is always set. |
| Env.FindBinaries | src/env.rs:74-82 | If ffmpeg is not found, the call fails with `NotFound("ffmpeg")`. Otherwise it fails exactly when ffprobe is not found, and then with `NotFound("ffprobe")`. Cells already set keep their value. A newly filled cell holds exactly what the search found: the override's resolution if it validates, else the first valid `PATH` candidate. |
| Env.CellsKeepFirstValue | src/env.rs:74-79 | A later call changes neither cell once both are set. |

## Left out

- Spec file I/O is left out. `canonicalize` of the spec path, opening it and reading its lines, with the `SpecNotFound`, `Open` and `ReadLine` errors, are outside the model. `ParseSpec` starts from the lines already read.
- Filesystem queries and process spawning become parameters. These are the sources' existence (`resolves`), `canonicalize`/`metadata` (`Env.FileSystem`), the catfile's create/write outcome, the probe results and the ffmpeg run's end.
- Tokio concurrency is left out. The completion order of `JoinSet` tasks is an input: the probes arrive as a sequence in completion order.
- `f64` arithmetic is modelled as exact `real` arithmetic, without rounding. Parsing a duration line is a parameter (`parseFloat`).
- The `Send` error and its `todo!` panic are left out. The model assumes the channel accepts every event.
- The job's UUID and the `id` field of events are left out. They are random and play no part in the order.
- Cancellation tokens are reduced to a `CancelFired` run end. The token plumbing and the stderr-draining task are left out.
- The stdout reader may stop before the channel is drained, because the monitor token is cancelled after ffmpeg exits. The model takes the lines the reader consumed as an input.
- `main.rs`, `logging.rs` and `path.rs` are not part of this model. Nor are the CLI, the progress display and the ffmpeg/ffprobe accessor functions of `env.rs`.
- Windows path rules (`\`, `;` in `PATH`, drive prefixes) are left out, and the separator is `/`.
- `Display` text of the error enums is left out. Errors are compared by variant and fields.
- Events.NumberEvents: stated for at most 2^64 events. `Events.CounterWraps` covers the wrap that follows.
- Catfile.CatfileNamesCollide: stated for the concrete pair `out.mp4` / `out_mp4`, not for every pair of leaves that differ only in '.' versus '_'.
- Catfile.CatfileNameInjective: stated only for leaves without '_'. With '_', distinct leaves can collide, as `CatfileNamesCollide` shows.
- Duration.SumPermutation: stated for exact sums only. The program adds `f64` durations with `+=` in completion order (src/execute.rs:242), and floating-point addition is not associative, so its total (and the `Info` and `Progress` totals) can differ in the last bits between runs of the same plan; for example 0.1 + 0.2 + 0.3 gives 0.6000000000000001 while 0.3 + 0.2 + 0.1 gives 0.6.
- Progress.OutTimeMicros: the digits are ASCII. Rust's `\d` also matches other Unicode digits, but the `f64` parse then fails and no event is sent, so the events are the same.
