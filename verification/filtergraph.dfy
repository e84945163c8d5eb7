/** The `-filter_complex` text of the filter-graph encode (src/execute.rs:391-434)
    and a structured reading of it as ffmpeg filter chains: every input's
    video is brought to 30 fps and yuv420p, its audio passed through when all
    sources have audio, and one `concat` filter joins the segments. */
module FilterGraph {
  import opened Text

  const VideoFilter: string := "fps=30,format=yuv420p"
  const AudioFilter: string := "anull"

  // ---------------------------------------------------------------------
  // The text, built the way the executor builds it

  /** `[{i}:v]fps=30,format=yuv420p[v{i}];` */
  function VideoPrep(i: nat): string
  {
    "[" + NatToString(i) + ":v]" + VideoFilter + "[v" + NatToString(i) + "];"
  }

  /** `[{i}:a]anull[a{i}];` */
  function AudioPrep(i: nat): string
  {
    "[" + NatToString(i) + ":a]" + AudioFilter + "[a" + NatToString(i) + "];"
  }

  /** `[v{i}][a{i}]` with audio, `[v{i}]` without. */
  function SegmentPads(i: nat, audio: bool): string
  {
    if audio then "[v" + NatToString(i) + "][a" + NatToString(i) + "]" else "[v" + NatToString(i) + "]"
  }

  /** `(0..n).map(VideoPrep).collect().join("")` */
  function VideoPreps(n: nat): string
  {
    if n == 0 then [] else VideoPreps(n - 1) + VideoPrep(n - 1)
  }

  function AudioPreps(n: nat): string
  {
    if n == 0 then [] else AudioPreps(n - 1) + AudioPrep(n - 1)
  }

  function Pads(n: nat, audio: bool): string
  {
    if n == 0 then [] else Pads(n - 1, audio) + SegmentPads(n - 1, audio)
  }

  /** `concat=n={n}:v=1:a=1[outv][outa]` or `concat=n={n}:v=1:a=0[outv]`. */
  function ConcatOptions(n: nat, audio: bool): string
  {
    if audio then "concat=n=" + NatToString(n) + ":v=1:a=1[outv][outa]"
    else "concat=n=" + NatToString(n) + ":v=1:a=0[outv]"
  }

  /** The whole graph for `n` sources. */
  function GraphText(n: nat, audio: bool): string
  {
    if audio then VideoPreps(n) + AudioPreps(n) + Pads(n, true) + ConcatOptions(n, true)
    else VideoPreps(n) + Pads(n, false) + ConcatOptions(n, false)
  }

  // ---------------------------------------------------------------------
  // The same graph as filter chains

  /** One filter chain: the pads it reads, the filter, the pads it writes. */
  datatype Chain = Chain(inputs: seq<string>, filter: string, outputs: seq<string>)

  /** Pad labels written one after the other, each in brackets. */
  function Labels(ls: seq<string>): string
  {
    if |ls| == 0 then [] else Labels(ls[..|ls| - 1]) + "[" + ls[|ls| - 1] + "]"
  }

  function RenderChain(c: Chain): string
  {
    Labels(c.inputs) + c.filter + Labels(c.outputs)
  }

  function RenderedChains(cs: seq<Chain>): seq<string>
  {
    seq(|cs|, i requires 0 <= i < |cs| => RenderChain(cs[i]))
  }

  /** ffmpeg's filtergraph syntax: chains separated by ';'. */
  function RenderGraph(cs: seq<Chain>): string
  {
    JoinWith(RenderedChains(cs), ";")
  }

  function VideoChain(i: nat): Chain
  {
    Chain([NatToString(i) + ":v"], VideoFilter, ["v" + NatToString(i)])
  }

  function AudioChain(i: nat): Chain
  {
    Chain([NatToString(i) + ":a"], AudioFilter, ["a" + NatToString(i)])
  }

  function VideoChains(n: nat): seq<Chain>
  {
    if n == 0 then [] else VideoChains(n - 1) + [VideoChain(n - 1)]
  }

  function AudioChains(n: nat): seq<Chain>
  {
    if n == 0 then [] else AudioChains(n - 1) + [AudioChain(n - 1)]
  }

  /** One segment's pads: its video pad, then its audio pad when there is one. */
  function SegmentLabels(i: nat, audio: bool): seq<string>
  {
    if audio then ["v" + NatToString(i), "a" + NatToString(i)] else ["v" + NatToString(i)]
  }

  /** The concat filter's inputs, segment after segment. */
  function PadLabels(n: nat, audio: bool): seq<string>
  {
    if n == 0 then [] else PadLabels(n - 1, audio) + SegmentLabels(n - 1, audio)
  }

  function ConcatChain(n: nat, audio: bool): Chain
  {
    Chain(PadLabels(n, audio),
          "concat=n=" + NatToString(n) + (if audio then ":v=1:a=1" else ":v=1:a=0"),
          if audio then ["outv", "outa"] else ["outv"])
  }

  /** The preparation chains, video first, then audio when all sources have it. */
  function PrepChains(n: nat, audio: bool): seq<Chain>
  {
    if audio then VideoChains(n) + AudioChains(n) else VideoChains(n)
  }

  function GraphChains(n: nat, audio: bool): seq<Chain>
  {
    PrepChains(n, audio) + [ConcatChain(n, audio)]
  }

  // ---------------------------------------------------------------------
  // The text is the chains

  /** Every chain followed by ';'. */
  function Terminated(cs: seq<Chain>): string
  {
    if |cs| == 0 then [] else RenderChain(cs[0]) + ";" + Terminated(cs[1..])
  }

  lemma {:induction false} TerminatedAppend(xs: seq<Chain>, ys: seq<Chain>)
    ensures Terminated(xs + ys) == Terminated(xs) + Terminated(ys)
    decreases |xs|
  {
    if |xs| == 0 {
      assert xs + ys == ys;
    } else {
      assert (xs + ys)[1..] == xs[1..] + ys;
      TerminatedAppend(xs[1..], ys);
    }
  }

  /** Joining with ';' is writing all but the last chain terminated by ';'. */
  lemma {:induction false} RenderGraphSnoc(cs: seq<Chain>, c: Chain)
    ensures RenderGraph(cs + [c]) == Terminated(cs) + RenderChain(c)
    decreases |cs|
  {
    var all := cs + [c];
    if |cs| == 0 {
      assert all == [c];
      assert RenderedChains(all) == [RenderChain(c)];
    } else {
      var rest := cs[1..] + [c];
      assert all[1..] == rest && all[0] == cs[0];
      RenderedChainsCons(all);
      RenderGraphSnoc(cs[1..], c);
      var parts := RenderedChains(all);
      assert JoinWith(parts, ";") == parts[0] + ";" + JoinWith(parts[1..], ";");
    }
  }

  lemma RenderedChainsCons(cs: seq<Chain>)
    requires |cs| > 0
    ensures |RenderedChains(cs)| == |cs|
    ensures RenderedChains(cs)[0] == RenderChain(cs[0])
    ensures RenderedChains(cs)[1..] == RenderedChains(cs[1..])
  {
  }

  lemma JoinEqual<T>(whole: seq<T>, a: seq<T>, b: seq<T>, a': seq<T>, b': seq<T>, whole': seq<T>)
    requires whole == a + b && a == a' && b == b' && whole' == a' + b'
    ensures whole == whole'
  {
  }

  lemma LabelsOne(l: string)
    ensures Labels([l]) == "[" + l + "]"
  {
    assert [l][..0] == [];
  }

  lemma LabelsTwo(a: string, b: string)
    ensures Labels([a, b]) == "[" + a + "][" + b + "]"
  {
    assert [a, b][..1] == [a];
    LabelsOne(a);
  }

  lemma {:induction false} LabelsAppend(xs: seq<string>, ys: seq<string>)
    ensures Labels(xs + ys) == Labels(xs) + Labels(ys)
    decreases |ys|
  {
    if |ys| == 0 {
      assert xs + ys == xs;
    } else {
      var m := |ys|;
      assert (xs + ys)[..|xs + ys| - 1] == xs + ys[..m - 1];
      LabelsAppend(xs, ys[..m - 1]);
    }
  }

  lemma VideoPrepIsChain(i: nat)
    ensures VideoPrep(i) == Terminated([VideoChain(i)])
  {
    var s := NatToString(i);
    LabelsOne(s + ":v");
    LabelsOne("v" + s);
    assert [VideoChain(i)][1..] == [];
  }

  lemma AudioPrepIsChain(i: nat)
    ensures AudioPrep(i) == Terminated([AudioChain(i)])
  {
    var s := NatToString(i);
    LabelsOne(s + ":a");
    LabelsOne("a" + s);
    assert [AudioChain(i)][1..] == [];
  }

  lemma {:induction false} VideoPrepsAreChains(n: nat)
    ensures VideoPreps(n) == Terminated(VideoChains(n))
  {
    if n > 0 {
      var prev := VideoChains(n - 1);
      var c := VideoChain(n - 1);
      assert VideoChains(n) == prev + [c];
      VideoPrepsAreChains(n - 1);
      VideoPrepIsChain(n - 1);
      TerminatedAppend(prev, [c]);
      JoinEqual(VideoPreps(n), VideoPreps(n - 1), VideoPrep(n - 1), Terminated(prev), Terminated([c]), Terminated(VideoChains(n)));
    }
  }

  lemma {:induction false} AudioPrepsAreChains(n: nat)
    ensures AudioPreps(n) == Terminated(AudioChains(n))
  {
    if n > 0 {
      var prev := AudioChains(n - 1);
      var c := AudioChain(n - 1);
      assert AudioChains(n) == prev + [c];
      AudioPrepsAreChains(n - 1);
      AudioPrepIsChain(n - 1);
      TerminatedAppend(prev, [c]);
      JoinEqual(AudioPreps(n), AudioPreps(n - 1), AudioPrep(n - 1), Terminated(prev), Terminated([c]), Terminated(AudioChains(n)));
    }
  }

  lemma SegmentPadsAreLabels(i: nat, audio: bool)
    ensures SegmentPads(i, audio) == Labels(SegmentLabels(i, audio))
  {
    var s := NatToString(i);
    if audio {
      LabelsTwo("v" + s, "a" + s);
    } else {
      LabelsOne("v" + s);
    }
  }

  lemma {:induction false} PadsAreLabels(n: nat, audio: bool)
    ensures Pads(n, audio) == Labels(PadLabels(n, audio))
  {
    if n > 0 {
      var prev := PadLabels(n - 1, audio);
      var seg := SegmentLabels(n - 1, audio);
      calc {
        Pads(n, audio);
        Pads(n - 1, audio) + SegmentPads(n - 1, audio);
        { PadsAreLabels(n - 1, audio); SegmentPadsAreLabels(n - 1, audio); }
        Labels(prev) + Labels(seg);
        { LabelsAppend(prev, seg); }
        Labels(prev + seg);
      }
    }
  }

  lemma ConcatOptionsSplit(n: nat, audio: bool)
    ensures ConcatOptions(n, audio)
         == ConcatChain(n, audio).filter + (if audio then "[outv][outa]" else "[outv]")
  {
    var s := NatToString(n);
    if audio {
      assert ":v=1:a=1[outv][outa]" == ":v=1:a=1" + "[outv][outa]";
      assert "concat=n=" + s + ":v=1:a=1[outv][outa]" == ("concat=n=" + s + ":v=1:a=1") + "[outv][outa]";
    } else {
      assert ":v=1:a=0[outv]" == ":v=1:a=0" + "[outv]";
      assert "concat=n=" + s + ":v=1:a=0[outv]" == ("concat=n=" + s + ":v=1:a=0") + "[outv]";
    }
  }

  lemma ConcatChainRendering(n: nat, audio: bool)
    ensures RenderChain(ConcatChain(n, audio)) == Pads(n, audio) + ConcatOptions(n, audio)
  {
    var c := ConcatChain(n, audio);
    var outs := if audio then "[outv][outa]" else "[outv]";
    assert Labels(c.outputs) == outs by {
      if audio {
        LabelsTwo("outv", "outa");
      } else {
        LabelsOne("outv");
      }
    }
    PadsAreLabels(n, audio);
    ConcatOptionsSplit(n, audio);
    assert RenderChain(c) == Labels(c.inputs) + c.filter + Labels(c.outputs);
    RegroupThree(Pads(n, audio), c.filter, outs);
  }

  lemma RegroupThree<T>(a: seq<T>, b: seq<T>, c: seq<T>)
    ensures a + b + c == a + (b + c)
  {
  }

  /** The generated text is exactly the chains written in ffmpeg's filtergraph
      syntax. */
  lemma FilterGraphIsChains(n: nat, audio: bool)
    ensures GraphText(n, audio) == RenderGraph(GraphChains(n, audio))
  {
    if audio {
      GraphWithAudio(n);
    } else {
      GraphWithoutAudio(n);
    }
  }

  lemma GraphWithAudio(n: nat)
    ensures GraphText(n, true) == RenderGraph(GraphChains(n, true))
  {
    var vs := VideoChains(n);
    var as_ := AudioChains(n);
    var c := ConcatChain(n, true);
    assert GraphChains(n, true) == (vs + as_) + [c];
    RenderGraphSnoc(vs + as_, c);
    TerminatedAppend(vs, as_);
    VideoPrepsAreChains(n);
    AudioPrepsAreChains(n);
    ConcatChainRendering(n, true);
    RegroupFour(VideoPreps(n), AudioPreps(n), Pads(n, true), ConcatOptions(n, true));
  }

  lemma GraphWithoutAudio(n: nat)
    ensures GraphText(n, false) == RenderGraph(GraphChains(n, false))
  {
    var c := ConcatChain(n, false);
    assert GraphChains(n, false) == VideoChains(n) + [c];
    RenderGraphSnoc(VideoChains(n), c);
    VideoPrepsAreChains(n);
    ConcatChainRendering(n, false);
    assert VideoPreps(n) + Pads(n, false) + ConcatOptions(n, false)
        == VideoPreps(n) + (Pads(n, false) + ConcatOptions(n, false));
  }

  lemma RegroupFour<T>(a: seq<T>, b: seq<T>, c: seq<T>, d: seq<T>)
    ensures a + b + c + d == (a + b) + (c + d)
  {
  }

  // ---------------------------------------------------------------------
  // The chains form a valid graph

  function OutputsOf(cs: seq<Chain>): seq<string>
  {
    if |cs| == 0 then [] else OutputsOf(cs[..|cs| - 1]) + cs[|cs| - 1].outputs
  }

  lemma {:induction false} OutputsOfAppend(xs: seq<Chain>, ys: seq<Chain>)
    ensures OutputsOf(xs + ys) == OutputsOf(xs) + OutputsOf(ys)
    decreases |ys|
  {
    if |ys| == 0 {
      assert xs + ys == xs;
    } else {
      var m := |ys|;
      assert (xs + ys)[..|xs + ys| - 1] == xs + ys[..m - 1];
      OutputsOfAppend(xs, ys[..m - 1]);
    }
  }

  function VideoNames(n: nat): seq<string>
  {
    seq(n, i requires 0 <= i < n => "v" + NatToString(i))
  }

  function AudioNames(n: nat): seq<string>
  {
    seq(n, i requires 0 <= i < n => "a" + NatToString(i))
  }

  lemma {:induction false} VideoOutputs(n: nat)
    ensures OutputsOf(VideoChains(n)) == VideoNames(n)
  {
    if n > 0 {
      VideoOutputs(n - 1);
      OutputsOfAppend(VideoChains(n - 1), [VideoChain(n - 1)]);
      OutputsOfOne(VideoChain(n - 1));
      VideoNamesSeqSnoc(n - 1);
    }
  }

  lemma {:induction false} AudioOutputs(n: nat)
    ensures OutputsOf(AudioChains(n)) == AudioNames(n)
  {
    if n > 0 {
      AudioOutputs(n - 1);
      OutputsOfAppend(AudioChains(n - 1), [AudioChain(n - 1)]);
      OutputsOfOne(AudioChain(n - 1));
      AudioNamesSeqSnoc(n - 1);
    }
  }

  lemma OutputsOfOne(c: Chain)
    ensures OutputsOf([c]) == c.outputs
  {
    assert [c][..0] == [];
  }

  lemma VideoNamesSeqSnoc(m: nat)
    ensures VideoNames(m + 1) == VideoNames(m) + ["v" + NatToString(m)]
  {
  }

  lemma AudioNamesSeqSnoc(m: nat)
    ensures AudioNames(m + 1) == AudioNames(m) + ["a" + NatToString(m)]
  {
  }

  lemma PadLabelsMultiset(n: nat, audio: bool)
    ensures multiset(PadLabels(n, audio))
         == multiset(VideoNames(n)) + (if audio then multiset(AudioNames(n)) else multiset{})
  {
    if audio {
      PadLabelsWithAudio(n);
    } else {
      PadLabelsWithoutAudio(n);
    }
  }

  lemma VideoNamesSnoc(m: nat)
    ensures multiset(VideoNames(m + 1)) == multiset(VideoNames(m)) + multiset{"v" + NatToString(m)}
  {
    assert VideoNames(m + 1) == VideoNames(m) + ["v" + NatToString(m)];
  }

  lemma AudioNamesSnoc(m: nat)
    ensures multiset(AudioNames(m + 1)) == multiset(AudioNames(m)) + multiset{"a" + NatToString(m)}
  {
    assert AudioNames(m + 1) == AudioNames(m) + ["a" + NatToString(m)];
  }

  lemma {:induction false} PadLabelsWithoutAudio(n: nat)
    ensures multiset(PadLabels(n, false)) == multiset(VideoNames(n))
  {
    if n > 0 {
      var m := n - 1;
      PadLabelsWithoutAudio(m);
      VideoNamesSnoc(m);
      assert PadLabels(n, false) == PadLabels(m, false) + ["v" + NatToString(m)];
    } else {
      assert VideoNames(0) == [];
    }
  }

  lemma {:induction false} PadLabelsWithAudio(n: nat)
    ensures multiset(PadLabels(n, true)) == multiset(VideoNames(n)) + multiset(AudioNames(n))
  {
    if n > 0 {
      var m := n - 1;
      PadLabelsWithAudio(m);
      VideoNamesSnoc(m);
      AudioNamesSnoc(m);
      PadLabelsSnoc(m);
      MultisetRegroup(multiset(PadLabels(m, true)), multiset(VideoNames(m)), multiset(AudioNames(m)),
                      multiset{"v" + NatToString(m)}, multiset{"a" + NatToString(m)});
    } else {
      assert VideoNames(0) == [] && AudioNames(0) == [];
    }
  }

  lemma PadLabelsSnoc(m: nat)
    ensures multiset(PadLabels(m + 1, true))
         == multiset(PadLabels(m, true)) + multiset{"v" + NatToString(m)} + multiset{"a" + NatToString(m)}
  {
    assert PadLabels(m + 1, true) == PadLabels(m, true) + ["v" + NatToString(m)] + ["a" + NatToString(m)];
  }

  lemma MultisetRegroup<T>(p: multiset<T>, x: multiset<T>, y: multiset<T>, u: multiset<T>, w: multiset<T>)
    requires p == x + y
    ensures p + u + w == (x + u) + (y + w)
  {
  }

  /** The concat filter reads every pad the preparation chains write, each
      exactly once, and nothing else. */
  lemma ConcatConsumesPrepOutputs(n: nat, audio: bool)
    ensures multiset(ConcatChain(n, audio).inputs) == multiset(OutputsOf(PrepChains(n, audio)))
  {
    PadLabelsMultiset(n, audio);
    VideoOutputs(n);
    AudioOutputs(n);
    if audio {
      OutputsOfAppend(VideoChains(n), AudioChains(n));
    }
  }

  /** One concat segment per source: `n` video pads, and `n` audio pads exactly
      when the filter is asked for an audio stream. */
  lemma {:induction false} ConcatSegments(n: nat, audio: bool)
    ensures |ConcatChain(n, audio).inputs| == (if audio then 2 * n else n)
  {
    if n > 0 {
      ConcatSegments(n - 1, audio);
    }
  }

  /** Every preparation chain reads one stream of an input that exists
      (`0 <= i < n`), video for the video chains and audio for the audio ones. */
  lemma {:induction false} PrepChainsReadInputs(n: nat, audio: bool)
    ensures forall c :: c in PrepChains(n, audio) ==>
              exists i: nat :: i < n && (c == VideoChain(i) || (audio && c == AudioChain(i)))
  {
    if n > 0 {
      PrepChainsReadInputs(n - 1, audio);
      forall c | c in PrepChains(n, audio)
        ensures exists i: nat :: i < n && (c == VideoChain(i) || (audio && c == AudioChain(i)))
      {
        if c == VideoChain(n - 1) || (audio && c == AudioChain(n - 1)) {
        } else {
          assert c in PrepChains(n - 1, audio);
        }
      }
    }
  }

  predicate Distinct<T(==)>(s: seq<T>) {
    forall i, j :: 0 <= i < j < |s| ==> s[i] != s[j]
  }

  /** No pad is written twice. */
  lemma PrepOutputsDistinct(n: nat, audio: bool)
    ensures var outs := OutputsOf(PrepChains(n, audio));
            forall i, j :: 0 <= i < j < |outs| ==> outs[i] != outs[j]
  {
    VideoOutputs(n);
    AudioOutputs(n);
    VideoNamesDistinct(n);
    if audio {
      OutputsOfAppend(VideoChains(n), AudioChains(n));
      AudioNamesDistinct(n);
      NamesDisjoint(n);
      DistinctAppend(VideoNames(n), AudioNames(n));
    }
  }

  lemma PrefixedNamesDiffer(c: char, i: nat, j: nat)
    requires i != j
    ensures [c] + NatToString(i) != [c] + NatToString(j)
  {
    NatToStringInjective(i, j);
    assert ([c] + NatToString(i))[1..] == NatToString(i);
    assert ([c] + NatToString(j))[1..] == NatToString(j);
  }

  lemma VideoNamesDistinct(n: nat)
    ensures Distinct(VideoNames(n))
  {
    forall i, j | 0 <= i < j < n ensures VideoNames(n)[i] != VideoNames(n)[j] {
      PrefixedNamesDiffer('v', i, j);
    }
  }

  lemma AudioNamesDistinct(n: nat)
    ensures Distinct(AudioNames(n))
  {
    forall i, j | 0 <= i < j < n ensures AudioNames(n)[i] != AudioNames(n)[j] {
      PrefixedNamesDiffer('a', i, j);
    }
  }

  lemma NamesDisjoint(n: nat)
    ensures forall i, j :: 0 <= i < n && 0 <= j < n ==> VideoNames(n)[i] != AudioNames(n)[j]
  {
    forall i, j | 0 <= i < n && 0 <= j < n ensures VideoNames(n)[i] != AudioNames(n)[j] {
      assert VideoNames(n)[i][0] == 'v' && AudioNames(n)[j][0] == 'a';
    }
  }

  lemma DistinctAppend<T>(xs: seq<T>, ys: seq<T>)
    requires Distinct(xs) && Distinct(ys)
    requires forall i, j :: 0 <= i < |xs| && 0 <= j < |ys| ==> xs[i] != ys[j]
    ensures Distinct(xs + ys)
  {
    var s := xs + ys;
    forall i, j | 0 <= i < j < |s| ensures s[i] != s[j] {
      if j < |xs| {
        assert s[i] == xs[i] && s[j] == xs[j];
      } else if i < |xs| {
        assert s[i] == xs[i] && s[j] == ys[j - |xs|];
      } else {
        assert s[i] == ys[i - |xs|] && s[j] == ys[j - |xs|];
      }
    }
  }

  /** The output pads the command maps: `outa` exists exactly when audio is
      concatenated. */
  lemma ConcatOutputs(n: nat, audio: bool)
    ensures ConcatChain(n, audio).outputs[0] == "outv"
    ensures "outa" in ConcatChain(n, audio).outputs <==> audio
  {
  }
}
