/** The audio decision of a job: the per-source verdict of the stream probe,
    the collect-all aggregation of `get_source_has_audio`
    (src/execute.rs:248-317), and the all-or-nothing tie-break with its count
    (src/execute.rs:330-363). Probe results arrive in completion order, which
    is an input of the model. */
module Audio {
  import opened Wrappers
  import opened Tools

  /** A source has audio when its probe exited successfully and printed a
      non-empty first line (the codec type of the first audio stream). */
  predicate HasAudio(x: ToolExit) {
    && x.exitCode.Some? && Success(x.exitCode.value)
    && |x.stdoutLines| > 0 && x.stdoutLines[0] != []
  }

  /** One finished probe task: the source leaf it was spawned for and what the
      runner returned. */
  datatype AudioProbe = AudioProbe(leaf: string, result: Result<ToolExit, ToolError>)

  /** The verdict map: every successful probe inserts its verdict, a later one
      for the same leaf overwriting an earlier one. */
  function AudioMap(probes: seq<AudioProbe>): map<string, bool>
  {
    if |probes| == 0 then map[]
    else
      var last := probes[|probes| - 1];
      var m := AudioMap(probes[..|probes| - 1]);
      if last.result.Ok? then m[last.leaf := HasAudio(last.result.value)] else m
  }

  /** The failed probes' errors, in completion order. */
  function ProbeErrors(probes: seq<AudioProbe>): seq<ToolError>
  {
    if |probes| == 0 then []
    else
      var last := probes[|probes| - 1];
      ProbeErrors(probes[..|probes| - 1]) + (if last.result.Err? then [last.result.error] else [])
  }

  /** The phase's result: every error if any probe failed, else the verdicts. */
  function CollectAudio(probes: seq<AudioProbe>): Result<map<string, bool>, ExecuteError>
  {
    if |ProbeErrors(probes)| > 0 then Err(AudioFailures(ProbeErrors(probes))) else Ok(AudioMap(probes))
  }

  /** The loop over finished probe tasks: successes go into the map, failures
      into a list; any failure fails the phase with all of them. */
  method GetSourceHasAudio(probes: seq<AudioProbe>) returns (r: Result<map<string, bool>, ExecuteError>)
    ensures r.Err? <==> exists i :: 0 <= i < |probes| && probes[i].result.Err?
    ensures r.Err? ==> r.error == AudioFailures(ProbeErrors(probes))
    ensures r.Ok? ==> forall l :: l in r.value <==> exists i :: 0 <= i < |probes| && probes[i].leaf == l
    ensures r.Ok? ==> forall i :: 0 <= i < |probes| && LastFor(probes, i) ==>
                        r.value[probes[i].leaf] == HasAudio(probes[i].result.value)
    ensures r == CollectAudio(probes)
  {
    var m: map<string, bool> := map[];
    var errors: seq<ToolError> := [];
    for i := 0 to |probes|
      invariant m == AudioMap(probes[..i])
      invariant errors == ProbeErrors(probes[..i])
    {
      assert probes[..i + 1][..i] == probes[..i];
      var p := probes[i];
      match p.result
      case Ok(x) =>
        m := m[p.leaf := HasAudio(x)];
      case Err(e) =>
        errors := errors + [e];
    }
    assert probes[..|probes|] == probes;
    ProbeErrorsEmpty(probes);
    if |errors| > 0 {
      return Err(AudioFailures(errors));
    }
    AudioMapDomain(probes);
    forall i | 0 <= i < |probes| && LastFor(probes, i)
      ensures m[probes[i].leaf] == HasAudio(probes[i].result.value)
    {
      AudioMapLastWins(probes, i);
    }
    return Ok(m);
  }

  /** No later probe is for the same leaf as probe `i`. */
  predicate LastFor(probes: seq<AudioProbe>, i: nat)
    requires i < |probes|
  {
    forall j :: i < j < |probes| ==> probes[j].leaf != probes[i].leaf
  }

  lemma {:induction false} ProbeErrorsEmpty(probes: seq<AudioProbe>)
    ensures ProbeErrors(probes) == [] <==> forall i :: 0 <= i < |probes| ==> probes[i].result.Ok?
  {
    if |probes| > 0 {
      var n := |probes|;
      ProbeErrorsEmpty(probes[..n - 1]);
      assert forall i :: 0 <= i < n - 1 ==> probes[..n - 1][i] == probes[i];
    }
  }

  /** Every probe's error is reported, and nothing else is. */
  lemma {:induction false} ProbeErrorsComplete(probes: seq<AudioProbe>, e: ToolError)
    ensures e in ProbeErrors(probes) <==> exists i :: 0 <= i < |probes| && probes[i].result == Err(e)
  {
    if |probes| > 0 {
      var n := |probes|;
      ProbeErrorsComplete(probes[..n - 1], e);
      assert forall i :: 0 <= i < n - 1 ==> probes[..n - 1][i] == probes[i];
    }
  }

  /** The map has an entry for exactly the leaves whose probe succeeded. */
  lemma {:induction false} AudioMapDomain(probes: seq<AudioProbe>)
    ensures forall l :: l in AudioMap(probes) <==>
              exists i :: 0 <= i < |probes| && probes[i].leaf == l && probes[i].result.Ok?
  {
    if |probes| > 0 {
      var n := |probes|;
      AudioMapDomain(probes[..n - 1]);
      assert forall i :: 0 <= i < n - 1 ==> probes[..n - 1][i] == probes[i];
    }
  }

  /** The verdict kept for a leaf is that of its last successful probe. */
  lemma {:induction false} AudioMapLastWins(probes: seq<AudioProbe>, i: nat)
    requires i < |probes| && probes[i].result.Ok? && LastFor(probes, i)
    ensures probes[i].leaf in AudioMap(probes)
    ensures AudioMap(probes)[probes[i].leaf] == HasAudio(probes[i].result.value)
  {
    var n := |probes|;
    if i < n - 1 {
      assert LastFor(probes[..n - 1], i);
      AudioMapLastWins(probes[..n - 1], i);
    }
  }

  /** With one probe per leaf the verdicts do not depend on the order in which
      the probes finished. */
  lemma AudioMapOrderFree(a: seq<AudioProbe>, b: seq<AudioProbe>)
    requires multiset(a) == multiset(b)
    requires forall i, j :: 0 <= i < j < |a| ==> a[i].leaf != a[j].leaf
    ensures AudioMap(a) == AudioMap(b)
  {
    PermutationKeepsDistinct(a, b);
    AudioMapAgrees(a, b);
    AudioMapCovers(a, b);
    MapsEqual(AudioMap(a), AudioMap(b));
  }

  lemma PermutationKeepsDistinct(a: seq<AudioProbe>, b: seq<AudioProbe>)
    requires multiset(a) == multiset(b)
    requires forall i, j :: 0 <= i < j < |a| ==> a[i].leaf != a[j].leaf
    ensures forall i, j :: 0 <= i < j < |b| ==> b[i].leaf != b[j].leaf
  {
    forall i, j | 0 <= i < j < |b|
      ensures b[i].leaf != b[j].leaf
    {
      DistinctInPermutation(a, b, i, j);
    }
  }

  /** Every verdict of `a` is a verdict of `b` for the same leaf. */
  lemma AudioMapAgrees(a: seq<AudioProbe>, b: seq<AudioProbe>)
    requires multiset(a) == multiset(b)
    requires forall i, j :: 0 <= i < j < |a| ==> a[i].leaf != a[j].leaf
    requires forall i, j :: 0 <= i < j < |b| ==> b[i].leaf != b[j].leaf
    ensures forall l :: l in AudioMap(a) ==> l in AudioMap(b) && AudioMap(a)[l] == AudioMap(b)[l]
  {
    AudioMapDomain(a);
    forall l | l in AudioMap(a)
      ensures l in AudioMap(b) && AudioMap(a)[l] == AudioMap(b)[l]
    {
      var i :| 0 <= i < |a| && a[i].leaf == l && a[i].result.Ok?;
      assert a[i] in multiset(b);
      var j :| 0 <= j < |b| && b[j] == a[i];
      assert LastFor(a, i);
      assert LastFor(b, j);
      AudioMapLastWins(a, i);
      AudioMapLastWins(b, j);
    }
  }

  /** Every leaf with a verdict in `b` has one in `a`. */
  lemma AudioMapCovers(a: seq<AudioProbe>, b: seq<AudioProbe>)
    requires multiset(a) == multiset(b)
    ensures forall l :: l in AudioMap(b) ==> l in AudioMap(a)
  {
    AudioMapDomain(a);
    AudioMapDomain(b);
    forall l | l in AudioMap(b)
      ensures l in AudioMap(a)
    {
      var j :| 0 <= j < |b| && b[j].leaf == l && b[j].result.Ok?;
      assert b[j] in multiset(a);
      var i :| 0 <= i < |a| && a[i] == b[j];
      assert a[i].leaf == l && a[i].result.Ok?;
    }
  }

  lemma MapsEqual<K, V>(m: map<K, V>, n: map<K, V>)
    requires forall k :: k in m ==> k in n && m[k] == n[k]
    requires forall k :: k in n ==> k in m
    ensures m == n
  {
  }

  lemma DistinctInPermutation(a: seq<AudioProbe>, b: seq<AudioProbe>, i: nat, j: nat)
    requires multiset(a) == multiset(b)
    requires forall x, y :: 0 <= x < y < |a| ==> a[x].leaf != a[y].leaf
    requires 0 <= i < j < |b|
    ensures b[i].leaf != b[j].leaf
  {
    if b[i].leaf == b[j].leaf {
      assert b[i] in multiset(a);
      assert b[j] in multiset(a);
      var x :| 0 <= x < |a| && a[x] == b[i];
      var y :| 0 <= y < |a| && a[y] == b[j];
      if x == y {
        // b[i] == b[j] occurs twice in b but once in a
        var v := b[i];
        assert b[j] == v;
        MultisetCountAtLeastTwo(b, i, j);
        MultisetCountAtMostOne(a, x);
        assert false;
      }
    }
  }

  lemma MultisetCountAtLeastTwo<T>(s: seq<T>, i: nat, j: nat)
    requires 0 <= i < j < |s| && s[i] == s[j]
    ensures multiset(s)[s[i]] >= 2
  {
    assert s == s[..i] + [s[i]] + s[i + 1..j] + [s[j]] + s[j + 1..];
  }

  lemma MultisetCountAtMostOne(a: seq<AudioProbe>, x: nat)
    requires 0 <= x < |a|
    requires forall p, q :: 0 <= p < q < |a| ==> a[p].leaf != a[q].leaf
    ensures multiset(a)[a[x]] == 1
  {
    var v := a[x];
    assert a == a[..x] + [v] + a[x + 1..];
    assert v !in a[..x] by {
      forall p | 0 <= p < x ensures a[..x][p] != v { assert a[p].leaf != a[x].leaf; }
    }
    var rest := a[x + 1..];
    assert v !in rest by {
      forall q | 0 <= q < |rest| ensures rest[q] != v { assert rest[q] == a[x + 1 + q]; }
    }
  }

  // ---------------------------------------------------------------------
  // The tie-break

  /** `sources.iter().all(...)` over the map: true when every leaf has a true
      verdict; a leaf without an entry counts as false. */
  function AllHaveAudio(leaves: seq<string>, verdicts: map<string, bool>): (r: bool)
    ensures r <==> forall i :: 0 <= i < |leaves| ==> leaves[i] in verdicts && verdicts[leaves[i]]
  {
    if |leaves| == 0 then true
    else (leaves[0] in verdicts && verdicts[leaves[0]]) && AllHaveAudio(leaves[1..], verdicts)
  }

  /** `values().filter(|v| v).count()`: the number of entries with a true verdict. */
  function AudioCount(verdicts: map<string, bool>): nat
  {
    |set l | l in verdicts && verdicts[l]|
  }

  /** When the map has one entry per source (distinct leaves, every probe
      succeeded), the count never exceeds the source count, and equals it
      exactly when every source has audio. So the warning's count is always
      below the source count. */
  lemma AudioCountMatchesTieBreak(leaves: seq<string>, verdicts: map<string, bool>)
    requires forall i, j :: 0 <= i < j < |leaves| ==> leaves[i] != leaves[j]
    requires forall l :: l in verdicts <==> l in leaves
    ensures AudioCount(verdicts) <= |leaves|
    ensures AudioCount(verdicts) == |leaves| <==> AllHaveAudio(leaves, verdicts)
  {
    var keys := set l | l in leaves;
    var trues := set l | l in verdicts && verdicts[l];
    assert |keys| == |leaves| by {
      DistinctCard(leaves);
    }
    assert trues <= keys;
    SubsetCard(trues, keys);
    assert trues == keys <==> AllHaveAudio(leaves, verdicts) by {
      if AllHaveAudio(leaves, verdicts) {
        forall l | l in keys ensures l in trues {
          var i :| 0 <= i < |leaves| && leaves[i] == l;
        }
      } else {
        var i :| 0 <= i < |leaves| && !(leaves[i] in verdicts && verdicts[leaves[i]]);
        assert leaves[i] in keys && leaves[i] !in trues;
      }
    }
  }

  /** When some source lacks a true verdict and the map has entries only for
      source leaves, fewer entries are true than there are sources, whether
      or not the leaves are distinct. */
  lemma AudioCountBelowSources(leaves: seq<string>, verdicts: map<string, bool>)
    requires forall l :: l in verdicts ==> l in leaves
    requires !AllHaveAudio(leaves, verdicts)
    ensures AudioCount(verdicts) < |leaves|
  {
    var keys := set l | l in leaves;
    var trues := set l | l in verdicts && verdicts[l];
    var i :| 0 <= i < |leaves| && !(leaves[i] in verdicts && verdicts[leaves[i]]);
    assert trues <= keys;
    assert leaves[i] in keys && leaves[i] !in trues;
    SubsetCard(trues, keys);
    SeqSetCard(leaves);
  }

  /** A list has at least as many elements as it has distinct ones. */
  lemma {:induction false} SeqSetCard(s: seq<string>)
    ensures |set l | l in s| <= |s|
  {
    if |s| > 0 {
      var n := |s|;
      var init := s[..n - 1];
      SeqSetCard(init);
      assert (set l | l in s) == (set l | l in init) + {s[n - 1]} by {
        assert s == init + [s[n - 1]];
      }
    }
  }

  /** A subset is no larger than its superset, and as large only when equal. */
  lemma SubsetCard<T>(a: set<T>, b: set<T>)
    requires a <= b
    ensures |a| <= |b|
    ensures |a| == |b| ==> a == b
  {
    assert b == a + (b - a);
    assert |b| == |a| + |b - a|;
    if a != b {
      var x :| x in b - a;
    }
  }

  lemma {:induction false} DistinctCard(s: seq<string>)
    requires forall i, j :: 0 <= i < j < |s| ==> s[i] != s[j]
    ensures |set l | l in s| == |s|
  {
    if |s| > 0 {
      var n := |s|;
      var init := s[..n - 1];
      DistinctCard(init);
      assert (set l | l in s) == (set l | l in init) + {s[n - 1]} by {
        assert s == init + [s[n - 1]];
      }
      assert s[n - 1] !in init by {
        forall p | 0 <= p < n - 1 ensures init[p] != s[n - 1] { assert s[p] != s[n - 1]; }
      }
    }
  }
}
