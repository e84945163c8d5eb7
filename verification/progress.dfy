/** The stdout reader of the encode step (src/execute.rs:457-487): each line
    matching `^out_time_us=(\d+)$` whose digits parse becomes a `Progress`
    event. `\d` also matches non-ASCII decimal digits, but `parse::<f64>`
    accepts only ASCII ones, so exactly the ASCII-digit markers give events.
    The parsed number is taken exactly; `f64` rounding is not modelled. */
module Progress {
  import opened Wrappers
  import opened Text
  import opened Events

  const OutTimePrefix: string := "out_time_us="

  /** `line` is the marker with the digit string `digits`. */
  predicate IsMarker(line: string, digits: string) {
    |digits| >= 1 && AllDigits(digits) && line == OutTimePrefix + digits
  }

  /** The microsecond count of a marker line, or nothing for any other line. */
  function OutTimeMicros(line: string): (r: Option<nat>)
    ensures r.Some? ==> exists d :: IsMarker(line, d) && r.value == DigitsValue(d)
    ensures r.None? ==> forall d :: !IsMarker(line, d)
  {
    var n := |OutTimePrefix|;
    if |line| > n && line[..n] == OutTimePrefix && AllDigits(line[n..]) then
      assert IsMarker(line, line[n..]);
      Some(DigitsValue(line[n..]))
    else
      MarkerShape(line);
      None
  }

  lemma MarkerShape(line: string)
    ensures forall d :: IsMarker(line, d) ==>
              |line| > |OutTimePrefix| && line[..|OutTimePrefix|] == OutTimePrefix && line[|OutTimePrefix|..] == d
  {
  }

  /** The marker ffmpeg writes for `n` microseconds is read back as `n`. */
  lemma MarkerRoundTrip(n: nat)
    ensures OutTimeMicros(OutTimePrefix + NatToString(n)) == Some(n)
  {
    var line := OutTimePrefix + NatToString(n);
    assert IsMarker(line, NatToString(n));
    MarkerShape(line);
    DigitsValueOfNatToString(n);
  }

  /** The event for one line, if any: the expected total and the marker's
      position in seconds. */
  function ProgressFor(line: string, totalSeconds: real): Option<Payload>
  {
    match OutTimeMicros(line)
    case None => None
    case Some(us) => Some(Progress(totalSeconds, us as real / 1000000.0))
  }

  /** The events for the lines the reader took, in order. */
  function ProgressEvents(lines: seq<string>, totalSeconds: real): (r: seq<Payload>)
    ensures |r| <= |lines|
    ensures forall i :: 0 <= i < |r| ==> r[i].Progress? && r[i].totalSeconds == totalSeconds
  {
    if |lines| == 0 then []
    else
      ProgressEvents(lines[..|lines| - 1], totalSeconds)
      + match ProgressFor(lines[|lines| - 1], totalSeconds)
        case None => []
        case Some(p) => [p]
  }

  /** Reading two stretches of output one after the other gives the events of
      each, one after the other. */
  lemma {:induction false} ProgressEventsAppend(a: seq<string>, b: seq<string>, totalSeconds: real)
    ensures ProgressEvents(a + b, totalSeconds) == ProgressEvents(a, totalSeconds) + ProgressEvents(b, totalSeconds)
    decreases |b|
  {
    if |b| == 0 {
      assert a + b == a;
    } else {
      var m := |b|;
      assert (a + b)[..|a + b| - 1] == a + b[..m - 1];
      assert (a + b)[|a + b| - 1] == b[m - 1];
      ProgressEventsAppend(a, b[..m - 1], totalSeconds);
    }
  }

  function MarkerLines(micros: seq<nat>): seq<string>
  {
    seq(|micros|, i requires 0 <= i < |micros| => OutTimePrefix + NatToString(micros[i]))
  }

  /** Output made of markers gives one event per marker, in order, each at the
      marker's microseconds divided by a million. */
  lemma {:induction false} ProgressOfMarkers(micros: seq<nat>, totalSeconds: real)
    ensures var r := ProgressEvents(MarkerLines(micros), totalSeconds);
            |r| == |micros|
            && forall i :: 0 <= i < |micros| ==> r[i] == Progress(totalSeconds, micros[i] as real / 1000000.0)
  {
    if |micros| > 0 {
      var n := |micros|;
      var init := micros[..n - 1];
      ProgressOfMarkers(init, totalSeconds);
      MarkerEventsSnoc(micros, totalSeconds);
      var prev := ProgressEvents(MarkerLines(init), totalSeconds);
      var r := ProgressEvents(MarkerLines(micros), totalSeconds);
      assert r == prev + [Progress(totalSeconds, micros[n - 1] as real / 1000000.0)];
      forall i | 0 <= i < n
        ensures r[i] == Progress(totalSeconds, micros[i] as real / 1000000.0)
      {
        if i < n - 1 {
          assert r[i] == prev[i] && init[i] == micros[i];
        }
      }
    }
  }

  /** One more marker adds its one event at the end. */
  lemma MarkerEventsSnoc(micros: seq<nat>, totalSeconds: real)
    requires |micros| > 0
    ensures var n := |micros|;
            ProgressEvents(MarkerLines(micros), totalSeconds)
            == ProgressEvents(MarkerLines(micros[..n - 1]), totalSeconds)
               + [Progress(totalSeconds, micros[n - 1] as real / 1000000.0)]
  {
    var n := |micros|;
    var lines := MarkerLines(micros);
    assert lines[..n - 1] == MarkerLines(micros[..n - 1]);
    assert lines[n - 1] == OutTimePrefix + NatToString(micros[n - 1]);
    MarkerRoundTrip(micros[n - 1]);
  }

  /** A line that is not a marker adds no event wherever it appears. */
  lemma NoiseIgnored(a: seq<string>, line: string, b: seq<string>, totalSeconds: real)
    requires forall d :: !IsMarker(line, d)
    ensures ProgressEvents(a + [line] + b, totalSeconds) == ProgressEvents(a + b, totalSeconds)
  {
    ProgressEventsAppend(a + [line], b, totalSeconds);
    ProgressEventsAppend(a, [line], totalSeconds);
    ProgressEventsAppend(a, b, totalSeconds);
    assert [line][..0] == [];
  }
}
