/** What a run of an external tool hands back to a job (src/ffprobe.rs:13-30,
    src/ffmpeg.rs:13-32) and the errors a job can fail with
    (src/execute.rs:32-64). Spawning, waiting, cancellation and the pipe
    readers are not modelled; only how the way a run ended becomes a result. */
module Tools {
  import opened Wrappers

  /** A Unix process status: a normal exit with a code, or death by a signal. */
  datatype ExitStatus = Exited(code: int) | Signalled(signal: int)

  /** `ExitStatus::success`: a normal exit with code zero. */
  predicate Success(s: ExitStatus) {
    s.Exited? && s.code == 0
  }

  /** `FfprobeExit` and `FfmpegExit`: the lines each stream produced and the
      exit status, if one was obtained. */
  datatype ToolExit = ToolExit(stdoutLines: seq<string>, stderrLines: seq<string>, exitCode: Option<ExitStatus>)

  /** `FfprobeError` and `FfmpegError`, which have the same three variants. The
      wrapped I/O error is kept as its message. */
  datatype ToolError = Cancelled | BadSpawn(detail: string) | BadExit(detail: string)

  /** How the race inside the runner ended. */
  datatype RunEnd =
    | SpawnFailed(detail: string)
    | WaitReturned(status: ExitStatus)
    | WaitFailed(detail: string)
    | CancelFired

  /** The runner's result: a completed wait is a success whatever the exit code,
      with both streams' lines and the status recorded for the caller to
      interpret; a failed spawn, a failed wait and cancellation are the three
      errors. */
  function RunResult(end: RunEnd, stdoutLines: seq<string>, stderrLines: seq<string>): (r: Result<ToolExit, ToolError>)
    ensures r.Ok? <==> end.WaitReturned?
    ensures r.Ok? ==> r.value.exitCode == Some(end.status) && r.value.stdoutLines == stdoutLines
    ensures r.Ok? ==> r.value.stderrLines == stderrLines
    ensures end.SpawnFailed? ==> r == Err(BadSpawn(end.detail))
    ensures end.WaitFailed? ==> r == Err(BadExit(end.detail))
    ensures end.CancelFired? ==> r == Err(Cancelled)
  {
    match end
    case SpawnFailed(d) => Err(BadSpawn(d))
    case WaitReturned(s) => Ok(ToolExit(stdoutLines, stderrLines, Some(s)))
    case WaitFailed(d) => Err(BadExit(d))
    case CancelFired => Err(Cancelled)
  }

  /** The result tells how the run ended: two different ends give two
      different results for the same output. */
  lemma RunResultDeterminesEnd(e1: RunEnd, e2: RunEnd, out: seq<string>, err: seq<string>)
    ensures RunResult(e1, out, err) == RunResult(e2, out, err) <==> e1 == e2
  {
  }

  /** A non-zero exit is not an error of the runner. */
  lemma NonZeroExitIsOk(code: int, out: seq<string>, err: seq<string>)
    requires code != 0
    ensures RunResult(WaitReturned(Exited(code)), out, err).Ok?
    ensures !Success(RunResult(WaitReturned(Exited(code)), out, err).value.exitCode.value)
  {
  }

  /** `ExecuteError`, without the `Send` variant (a failed send panics). */
  datatype ExecuteError =
    | Ffmpeg(ffmpegError: ToolError)
    | Ffprobe(ffprobeError: ToolError)
    | CreateCatFile(catfilePath: string, detail: string)
    | WriteToCatFile(catfilePath: string, detail: string)
    | NoDuration
    | InvalidDuration(line: string)
    | AudioFailures(innerErrors: seq<ToolError>)
}
