/** The validation pass of `parse_spec` (src/parse.rs:249-316) and the whole
    function put together. Whether a source path canonicalizes (the file
    exists) is a parameter `resolves`, since the model does no file I/O. */
module Validate {
  import opened Wrappers
  import opened PlanModel
  import opened Parse

  // ---------------------------------------------------------------------
  // What the pass reports, stated plan by plan and source by source

  /** Some earlier plan has the same target leaf as plan `i`. */
  predicate TargetSeen(plans: seq<Plan>, i: nat)
    requires i < |plans|
  {
    exists j :: 0 <= j < i && plans[j].target.leaf == plans[i].target.leaf
  }

  /** Some earlier source of the same plan has the same leaf as source `k`. */
  predicate SourceSeen(p: Plan, k: nat)
    requires k < |p.sources|
  {
    exists j :: 0 <= j < k && p.sources[j].leaf == p.sources[k].leaf
  }

  /** What source `k` of plan `p` contributes: a duplicate report first, then a
      missing-file report. */
  function SourceErrors(p: Plan, k: nat, resolves: string -> bool): seq<ValidationError>
    requires k < |p.sources|
  {
    var s := p.sources[k];
    (if SourceSeen(p, k) then [DuplicateSource(s.leaf, p.target.leaf)] else [])
    + (if resolves(s.path) then [] else [MissingSource(s.leaf, s.path, p.target.leaf)])
  }

  /** The reports of the first `n` sources of `p`, in source order. */
  function SourcesErrors(p: Plan, n: nat, resolves: string -> bool): seq<ValidationError>
    requires n <= |p.sources|
  {
    if n == 0 then [] else SourcesErrors(p, n - 1, resolves) + SourceErrors(p, n - 1, resolves)
  }

  /** What plan `i` contributes: a duplicate-target report, then its sources'. */
  function PlanErrors(plans: seq<Plan>, i: nat, resolves: string -> bool): seq<ValidationError>
    requires i < |plans|
  {
    (if TargetSeen(plans, i) then [DuplicateTarget(plans[i].target.leaf)] else [])
    + SourcesErrors(plans[i], |plans[i].sources|, resolves)
  }

  /** The reports of the first `n` plans, in plan order. */
  function ErrorsUpTo(plans: seq<Plan>, n: nat, resolves: string -> bool): seq<ValidationError>
    requires n <= |plans|
  {
    if n == 0 then [] else ErrorsUpTo(plans, n - 1, resolves) + PlanErrors(plans, n - 1, resolves)
  }

  function ValidationErrors(plans: seq<Plan>, resolves: string -> bool): seq<ValidationError>
  {
    ErrorsUpTo(plans, |plans|, resolves)
  }

  // ---------------------------------------------------------------------
  // The pass itself

  /** The validation loop: one set of target leaves for the whole run, one set
      of source leaves cleared for every plan; every problem is collected and
      none stops the loop. */
  method ValidatePlans(plans: seq<Plan>, resolves: string -> bool) returns (errors: seq<ValidationError>)
    ensures errors == ValidationErrors(plans, resolves)
  {
    errors := [];
    var targets: set<string> := {};
    for i := 0 to |plans|
      invariant errors == ErrorsUpTo(plans, i, resolves)
      invariant targets == set j | 0 <= j < i :: plans[j].target.leaf
    {
      var p := plans[i];
      var report: seq<ValidationError> := [];
      if p.target.leaf in targets {
        report := [DuplicateTarget(p.target.leaf)];
      } else {
        targets := targets + {p.target.leaf};
      }
      var sourceErrors := ValidateSources(p, resolves);
      errors := errors + (report + sourceErrors);
    }
  }

  /** The inner loop over one plan's sources, with a fresh set of leaves. */
  method ValidateSources(p: Plan, resolves: string -> bool) returns (errors: seq<ValidationError>)
    ensures errors == SourcesErrors(p, |p.sources|, resolves)
  {
    errors := [];
    var seen: set<string> := {};
    for k := 0 to |p.sources|
      invariant errors == SourcesErrors(p, k, resolves)
      invariant seen == set j | 0 <= j < k :: p.sources[j].leaf
    {
      var s := p.sources[k];
      var report: seq<ValidationError> := [];
      if s.leaf in seen {
        report := [DuplicateSource(s.leaf, p.target.leaf)];
      } else {
        seen := seen + {s.leaf};
      }
      if !resolves(s.path) {
        report := report + [MissingSource(s.leaf, s.path, p.target.leaf)];
      }
      errors := errors + report;
    }
  }

  // ---------------------------------------------------------------------
  // `parse_spec`

  /** The plans every later stage may rely on: target leaves unique across the
      spec, source leaves unique within each plan, every source file present. */
  predicate DistinctTargets(plans: seq<Plan>) {
    forall i, j :: 0 <= j < i < |plans| ==> plans[i].target.leaf != plans[j].target.leaf
  }

  predicate DistinctSources(p: Plan) {
    forall j, k :: 0 <= j < k < |p.sources| ==> p.sources[j].leaf != p.sources[k].leaf
  }

  predicate SourcesResolve(p: Plan, resolves: string -> bool) {
    forall k :: 0 <= k < |p.sources| ==> resolves(p.sources[k].path)
  }

  predicate ValidPlans(plans: seq<Plan>, resolves: string -> bool) {
    && DistinctTargets(plans)
    && forall i :: 0 <= i < |plans| ==> DistinctSources(plans[i]) && SourcesResolve(plans[i], resolves)
  }

  /** `parse_spec` after the spec file has been opened and read into lines: a
      grammar error is returned as is; otherwise the plans are validated and
      returned only when no problem was found. */
  method ParseSpec(lines: seq<string>, targetDir: string, sourcesDir: string, resolves: string -> bool)
    returns (r: Result<seq<Plan>, ParseError>)
    ensures ParseLines(lines, targetDir, sourcesDir).Err? ==> r == ParseLines(lines, targetDir, sourcesDir)
    ensures r.Ok? <==> ParseLines(lines, targetDir, sourcesDir).Ok?
                       && ValidPlans(ParseLines(lines, targetDir, sourcesDir).value, resolves)
    ensures r.Ok? ==> r.value == ParseLines(lines, targetDir, sourcesDir).value
    ensures r.Err? && r.error.Validation? ==>
              && ParseLines(lines, targetDir, sourcesDir).Ok?
              && r.error.errors == ValidationErrors(ParseLines(lines, targetDir, sourcesDir).value, resolves)
              && |r.error.errors| > 0
  {
    var parsed := ParseLines(lines, targetDir, sourcesDir);
    if parsed.Err? {
      return parsed;
    }
    var plans := parsed.value;
    var errors := ValidatePlans(plans, resolves);
    NoErrorsIffValid(plans, resolves);
    if |errors| > 0 {
      return Err(Validation(errors));
    }
    return Ok(plans);
  }

  // ---------------------------------------------------------------------
  // Properties of the reports

  lemma {:induction false} InSourcesErrors(p: Plan, n: nat, resolves: string -> bool, e: ValidationError)
    requires n <= |p.sources|
    ensures e in SourcesErrors(p, n, resolves) <==> exists k :: 0 <= k < n && e in SourceErrors(p, k, resolves)
  {
    if n > 0 {
      InSourcesErrors(p, n - 1, resolves, e);
      var prev := SourcesErrors(p, n - 1, resolves);
      var last := SourceErrors(p, n - 1, resolves);
      assert SourcesErrors(p, n, resolves) == prev + last;
      InAppend(prev, last, e);
      if exists k :: 0 <= k < n && e in SourceErrors(p, k, resolves) {
        var k :| 0 <= k < n && e in SourceErrors(p, k, resolves);
        if k < n - 1 {
          assert e in prev;
        }
      }
      if e in prev {
        var k :| 0 <= k < n - 1 && e in SourceErrors(p, k, resolves);
        assert 0 <= k < n;
      }
    }
  }

  lemma {:induction false} InErrorsUpTo(plans: seq<Plan>, n: nat, resolves: string -> bool, e: ValidationError)
    requires n <= |plans|
    ensures e in ErrorsUpTo(plans, n, resolves) <==> exists i :: 0 <= i < n && e in PlanErrors(plans, i, resolves)
  {
    if n > 0 {
      InErrorsUpTo(plans, n - 1, resolves, e);
      var prev := ErrorsUpTo(plans, n - 1, resolves);
      var last := PlanErrors(plans, n - 1, resolves);
      assert ErrorsUpTo(plans, n, resolves) == prev + last;
      InAppend(prev, last, e);
      if exists i :: 0 <= i < n && e in PlanErrors(plans, i, resolves) {
        var i :| 0 <= i < n && e in PlanErrors(plans, i, resolves);
        if i < n - 1 {
          assert e in prev;
        }
      }
      if e in prev {
        var i :| 0 <= i < n - 1 && e in PlanErrors(plans, i, resolves);
        assert 0 <= i < n;
      }
    }
  }

  lemma InAppend<T>(xs: seq<T>, ys: seq<T>, e: T)
    ensures e in xs + ys <==> e in xs || e in ys
  {
  }

  /** A `DuplicateTarget` report for `t` exists exactly when two plans have
      target leaf `t`. */
  lemma DuplicateTargetReported(plans: seq<Plan>, resolves: string -> bool, t: string)
    ensures DuplicateTarget(t) in ValidationErrors(plans, resolves)
        <==> exists i, j :: 0 <= j < i < |plans| && plans[j].target.leaf == t && plans[i].target.leaf == t
  {
    var e := DuplicateTarget(t);
    InErrorsUpTo(plans, |plans|, resolves, e);
    forall i | 0 <= i < |plans|
      ensures e in PlanErrors(plans, i, resolves) <==> TargetSeen(plans, i) && plans[i].target.leaf == t
    {
      var p := plans[i];
      InSourcesErrors(p, |p.sources|, resolves, e);
    }
  }

  /** A `DuplicateSource` report for source `n` of target `t` exists exactly
      when a plan with target leaf `t` lists source leaf `n` twice. */
  lemma DuplicateSourceReported(plans: seq<Plan>, resolves: string -> bool, n: string, t: string)
    ensures DuplicateSource(n, t) in ValidationErrors(plans, resolves)
        <==> exists i, j, k :: 0 <= i < |plans| && 0 <= j < k < |plans[i].sources|
                               && plans[i].target.leaf == t
                               && plans[i].sources[j].leaf == n && plans[i].sources[k].leaf == n
  {
    var e := DuplicateSource(n, t);
    InErrorsUpTo(plans, |plans|, resolves, e);
    forall i | 0 <= i < |plans|
      ensures e in PlanErrors(plans, i, resolves)
          <==> exists j, k :: 0 <= j < k < |plans[i].sources| && plans[i].target.leaf == t
                             && plans[i].sources[j].leaf == n && plans[i].sources[k].leaf == n
    {
      var p := plans[i];
      InSourcesErrors(p, |p.sources|, resolves, e);
      forall k | 0 <= k < |p.sources|
        ensures e in SourceErrors(p, k, resolves) <==> SourceSeen(p, k) && p.sources[k].leaf == n && p.target.leaf == t
      {
      }
    }
  }

  /** A `MissingSource` report exists exactly when some plan with target leaf
      `t` has a source with leaf `n` and path `path` that does not resolve. */
  lemma MissingSourceReported(plans: seq<Plan>, resolves: string -> bool, n: string, path: string, t: string)
    ensures MissingSource(n, path, t) in ValidationErrors(plans, resolves)
        <==> exists i, k :: 0 <= i < |plans| && 0 <= k < |plans[i].sources|
                            && plans[i].target.leaf == t && plans[i].sources[k] == PlanPath(path, n)
                            && !resolves(path)
  {
    var e := MissingSource(n, path, t);
    InErrorsUpTo(plans, |plans|, resolves, e);
    forall i | 0 <= i < |plans|
      ensures e in PlanErrors(plans, i, resolves)
          <==> exists k :: 0 <= k < |plans[i].sources| && plans[i].target.leaf == t
                          && plans[i].sources[k] == PlanPath(path, n) && !resolves(path)
    {
      var p := plans[i];
      InSourcesErrors(p, |p.sources|, resolves, e);
      forall k | 0 <= k < |p.sources|
        ensures e in SourceErrors(p, k, resolves)
            <==> p.sources[k] == PlanPath(path, n) && p.target.leaf == t && !resolves(path)
      {
      }
    }
  }

  /** The pass reports nothing exactly when the plans are valid. */
  lemma NoErrorsIffValid(plans: seq<Plan>, resolves: string -> bool)
    ensures ValidationErrors(plans, resolves) == [] <==> ValidPlans(plans, resolves)
  {
    var errs := ValidationErrors(plans, resolves);
    if ValidPlans(plans, resolves) {
      if errs != [] {
        var e := errs[0];
        match e
        case DuplicateTarget(t) =>
          DuplicateTargetReported(plans, resolves, t);
        case DuplicateSource(n, t) =>
          DuplicateSourceReported(plans, resolves, n, t);
        case MissingSource(n, path, t) =>
          MissingSourceReported(plans, resolves, n, path, t);
      }
    } else if !DistinctTargets(plans) {
      var i, j :| 0 <= j < i < |plans| && plans[i].target.leaf == plans[j].target.leaf;
      DuplicateTargetReported(plans, resolves, plans[i].target.leaf);
    } else {
      var i :| 0 <= i < |plans| && !(DistinctSources(plans[i]) && SourcesResolve(plans[i], resolves));
      var p := plans[i];
      if !DistinctSources(p) {
        var j, k :| 0 <= j < k < |p.sources| && p.sources[j].leaf == p.sources[k].leaf;
        DuplicateSourceReported(plans, resolves, p.sources[k].leaf, p.target.leaf);
      } else {
        var k :| 0 <= k < |p.sources| && !resolves(p.sources[k].path);
        MissingSourceReported(plans, resolves, p.sources[k].leaf, p.sources[k].path, p.target.leaf);
      }
    }
  }

  /** Each plan contributes at most one report for its target and at most two
      per source. */
  lemma {:induction false} ErrorCountBound(plans: seq<Plan>, n: nat, resolves: string -> bool)
    requires n <= |plans|
    ensures |ErrorsUpTo(plans, n, resolves)| <= n + 2 * SourceCount(plans[..n])
  {
    if n > 0 {
      ErrorCountBound(plans, n - 1, resolves);
      var p := plans[n - 1];
      SourcesErrorsBound(p, |p.sources|, resolves);
      assert |PlanErrors(plans, n - 1, resolves)| <= 1 + 2 * |p.sources|;
      assert plans[..n][..n - 1] == plans[..n - 1];
      assert SourceCount(plans[..n]) == SourceCount(plans[..n - 1]) + |p.sources|;
    }
  }

  lemma {:induction false} SourcesErrorsBound(p: Plan, n: nat, resolves: string -> bool)
    requires n <= |p.sources|
    ensures |SourcesErrors(p, n, resolves)| <= 2 * n
  {
    if n > 0 {
      SourcesErrorsBound(p, n - 1, resolves);
    }
  }

  function SourceCount(plans: seq<Plan>): nat
  {
    if |plans| == 0 then 0 else SourceCount(plans[..|plans| - 1]) + |plans[|plans| - 1].sources|
  }
}
