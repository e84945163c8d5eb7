/** The expected output length of a job (`get_expected_output_seconds`,
    src/execute.rs:205-246): one duration probe per source, the first line of
    each parsed as a float, the values summed, the first failure ending the
    phase. `str::parse::<f64>` is a parameter (`parseFloat`), and durations are
    real numbers, so rounding is not modelled. */
module Duration {
  import opened Wrappers
  import opened Tools

  /** One source's duration: a probe error, a probe without output or an
      unparsable first line each fail; the exit status and stderr play no part. */
  function SourceSeconds(probe: Result<ToolExit, ToolError>, parseFloat: string -> Option<real>)
    : Result<real, ExecuteError>
  {
    match probe
    case Err(e) => Err(Ffprobe(e))
    case Ok(x) =>
      if |x.stdoutLines| == 0 then Err(NoDuration)
      else
        match parseFloat(x.stdoutLines[0])
        case None => Err(InvalidDuration(x.stdoutLines[0]))
        case Some(v) => Ok(v)
  }

  /** The exit status and stderr of a duration probe do not matter. */
  lemma DurationIgnoresStatus(out: seq<string>, err1: seq<string>, err2: seq<string>,
                              s1: Option<ExitStatus>, s2: Option<ExitStatus>, parseFloat: string -> Option<real>)
    ensures SourceSeconds(Ok(ToolExit(out, err1, s1)), parseFloat) == SourceSeconds(Ok(ToolExit(out, err2, s2)), parseFloat)
  {
  }

  predicate AllDurations(probes: seq<Result<ToolExit, ToolError>>, parseFloat: string -> Option<real>) {
    forall i :: 0 <= i < |probes| ==> SourceSeconds(probes[i], parseFloat).Ok?
  }

  function Durations(probes: seq<Result<ToolExit, ToolError>>, parseFloat: string -> Option<real>): (ds: seq<real>)
    requires AllDurations(probes, parseFloat)
    ensures |ds| == |probes|
  {
    seq(|probes|, i requires 0 <= i < |probes| => SourceSeconds(probes[i], parseFloat).value)
  }

  function Sum(xs: seq<real>): real
  {
    if |xs| == 0 then 0.0 else Sum(xs[..|xs| - 1]) + xs[|xs| - 1]
  }

  /** The fail-fast sum over the probes in completion order. */
  function TotalSeconds(probes: seq<Result<ToolExit, ToolError>>, parseFloat: string -> Option<real>)
    : Result<real, ExecuteError>
  {
    if |probes| == 0 then Ok(0.0)
    else
      match TotalSeconds(probes[..|probes| - 1], parseFloat)
      case Err(e) => Err(e)
      case Ok(t) =>
        match SourceSeconds(probes[|probes| - 1], parseFloat)
        case Err(e) => Err(e)
        case Ok(v) => Ok(t + v)
  }

  /** The summing loop over finished probes, in completion order: the total
      when every probe gives a duration, otherwise the error of the first one
      that does not. */
  method ExpectedOutputSeconds(probes: seq<Result<ToolExit, ToolError>>, parseFloat: string -> Option<real>)
    returns (r: Result<real, ExecuteError>)
    ensures r.Ok? <==> AllDurations(probes, parseFloat)
    ensures r.Ok? ==> r.value == Sum(Durations(probes, parseFloat))
    ensures r.Err? ==> exists k :: 0 <= k < |probes| && AllDurations(probes[..k], parseFloat)
                                  && SourceSeconds(probes[k], parseFloat) == Err(r.error)
    ensures r == TotalSeconds(probes, parseFloat)
  {
    var total := 0.0;
    for i := 0 to |probes|
      invariant AllDurations(probes[..i], parseFloat)
      invariant total == Sum(Durations(probes[..i], parseFloat))
      invariant TotalSeconds(probes[..i], parseFloat) == Ok(total)
    {
      assert probes[..i + 1][..i] == probes[..i];
      match SourceSeconds(probes[i], parseFloat)
      case Err(e) =>
        TotalSecondsFails(probes, |probes|, i, parseFloat);
        assert probes[..|probes|] == probes;
        return Err(e);
      case Ok(v) =>
        var ds := Durations(probes[..i + 1], parseFloat);
        assert ds[..i] == Durations(probes[..i], parseFloat);
        total := total + v;
    }
    assert probes[..|probes|] == probes;
    return Ok(total);
  }

  /** The fail-fast total succeeds exactly when every probe gives a duration,
      and is then the sum of the durations. */
  lemma {:induction false} TotalSecondsSum(probes: seq<Result<ToolExit, ToolError>>, parseFloat: string -> Option<real>)
    ensures TotalSeconds(probes, parseFloat).Ok? <==> AllDurations(probes, parseFloat)
    ensures TotalSeconds(probes, parseFloat).Ok? ==> TotalSeconds(probes, parseFloat).value == Sum(Durations(probes, parseFloat))
  {
    if |probes| > 0 {
      var n := |probes|;
      var init := probes[..n - 1];
      TotalSecondsSum(init, parseFloat);
      assert forall i :: 0 <= i < n - 1 ==> init[i] == probes[i];
      if AllDurations(probes, parseFloat) {
        assert AllDurations(init, parseFloat);
        assert Durations(probes, parseFloat)[..n - 1] == Durations(init, parseFloat);
      }
    }
  }

  /** Once a prefix fails, longer prefixes fail with the same error. */
  lemma {:induction false} TotalSecondsFails(probes: seq<Result<ToolExit, ToolError>>, n: nat, k: nat,
                                             parseFloat: string -> Option<real>)
    requires k < n <= |probes|
    requires TotalSeconds(probes[..k], parseFloat).Ok? && SourceSeconds(probes[k], parseFloat).Err?
    ensures TotalSeconds(probes[..n], parseFloat) == Err(SourceSeconds(probes[k], parseFloat).error)
    decreases n
  {
    assert probes[..n][..n - 1] == probes[..n - 1];
    if n > k + 1 {
      TotalSecondsFails(probes, n - 1, k, parseFloat);
    } else {
      assert probes[..n][n - 1] == probes[k];
    }
  }

  /** The total does not depend on the order in which the probes finish. */
  lemma {:induction false} SumPermutation(a: seq<real>, b: seq<real>)
    requires multiset(a) == multiset(b)
    ensures Sum(a) == Sum(b)
    decreases |a|
  {
    if |a| > 0 {
      var n := |a|;
      var j := MatchingIndex(a, b, n - 1);
      var a' := a[..n - 1];
      var b' := b[..j] + b[j + 1..];
      DropMatching(a, b, n - 1, j);
      assert a[..n - 1] + a[n..] == a';
      SumPermutation(a', b');
      RemoveAtSum(a, n - 1);
      RemoveAtSum(b, j);
    }
  }

  /** A position of `b` holding what position `i` of its permutation `a` holds. */
  lemma MatchingIndex<T>(a: seq<T>, b: seq<T>, i: nat) returns (j: nat)
    requires multiset(a) == multiset(b) && i < |a|
    ensures j < |b| && b[j] == a[i]
  {
    assert a[i] in multiset(a);
    assert a[i] in b;
    j :| 0 <= j < |b| && b[j] == a[i];
  }

  /** Taking one equal element out of two permutations leaves permutations. */
  lemma DropMatching<T>(a: seq<T>, b: seq<T>, i: nat, j: nat)
    requires multiset(a) == multiset(b) && i < |a| && j < |b| && a[i] == b[j]
    ensures multiset(a[..i] + a[i + 1..]) == multiset(b[..j] + b[j + 1..])
  {
    RemoveAtMultiset(a, i);
    RemoveAtMultiset(b, j);
  }

  /** Taking one element out of a list: the multiset loses it. */
  lemma RemoveAtMultiset<T>(b: seq<T>, j: nat)
    requires j < |b|
    ensures multiset(b[..j] + b[j + 1..]) == multiset(b) - multiset{b[j]}
  {
    assert b == b[..j] + ([b[j]] + b[j + 1..]);
  }

  /** Taking one element out of a list: the sum loses it. */
  lemma RemoveAtSum(b: seq<real>, j: nat)
    requires j < |b|
    ensures Sum(b) == Sum(b[..j] + b[j + 1..]) + b[j]
  {
    var x := b[j];
    assert b == b[..j] + ([x] + b[j + 1..]);
    SumAppend(b[..j], [x] + b[j + 1..]);
    SumAppend([x], b[j + 1..]);
    SumAppend(b[..j], b[j + 1..]);
  }

  lemma {:induction false} SumAppend(xs: seq<real>, ys: seq<real>)
    ensures Sum(xs + ys) == Sum(xs) + Sum(ys)
    decreases |ys|
  {
    if |ys| == 0 {
      assert xs + ys == xs;
    } else {
      var m := |ys|;
      assert (xs + ys)[..|xs + ys| - 1] == xs + ys[..m - 1];
      SumAppend(xs, ys[..m - 1]);
    }
  }
}
