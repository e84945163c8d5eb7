/** The progress events a job sends (`ExecuteProgressPayload`, `ExecuteProgress`,
    src/execute.rs:68-102) and the per-job sequence counter of `Process::send`
    (src/execute.rs:121, 130-145). The job id is a random UUID and is left out;
    the channel is replaced by the list of events sent so far. */
module Events {
  import opened Tools

  datatype Payload =
    | Start(targetName: string)
    | Prepared(catPath: string)
    | Info(sourceCount: nat, totalDurationSeconds: real, hasAudio: bool, mode: string)
    | Phase(phase: string)
    | Warning(message: string)
    | Finished(exit: ToolExit)
    | Failed(error: ExecuteError)
    | Progress(totalSeconds: real, currentSeconds: real)
    | Spawned

  predicate IsTerminal(p: Payload) {
    p.Finished? || p.Failed?
  }

  datatype Event = Event(seqNo: nat, payload: Payload)

  /** `AtomicUsize::fetch_add` wraps around at 2^64. */
  const UsizeModulus: nat := 0x1_0000_0000_0000_0000

  /** The counter and everything sent so far. */
  datatype Sender = Sender(counter: nat, sent: seq<Event>)

  const FreshSender := Sender(0, [])

  /** One `send`: the event carries the counter's old value, and the counter
      moves on by one, wrapping around. */
  function Send(s: Sender, p: Payload): (r: Sender)
    requires s.counter < UsizeModulus
    ensures r.counter < UsizeModulus
    ensures r.counter == (s.counter + 1) % UsizeModulus
    ensures r.sent == s.sent + [Event(s.counter, p)]
  {
    Sender((s.counter + 1) % UsizeModulus, s.sent + [Event(s.counter, p)])
  }

  /** Sends every payload in turn. */
  method SendAll(s: Sender, ps: seq<Payload>) returns (r: Sender)
    requires s.counter < UsizeModulus
    ensures r.counter == (s.counter + |ps|) % UsizeModulus
    ensures |r.sent| == |s.sent| + |ps| && r.sent[..|s.sent|] == s.sent
    ensures forall i :: 0 <= i < |ps| ==>
              r.sent[|s.sent| + i] == Event((s.counter + i) % UsizeModulus, ps[i])
  {
    r := s;
    for k := 0 to |ps|
      invariant r.counter == (s.counter + k) % UsizeModulus
      invariant |r.sent| == |s.sent| + k && r.sent[..|s.sent|] == s.sent
      invariant forall i :: 0 <= i < k ==> r.sent[|s.sent| + i] == Event((s.counter + i) % UsizeModulus, ps[i])
    {
      WrapStep(s.counter, k);
      r := Send(r, ps[k]);
    }
  }

  lemma WrapStep(c: nat, k: nat)
    ensures ((c + k) % UsizeModulus + 1) % UsizeModulus == (c + k + 1) % UsizeModulus
  {
  }

  /** A job's events, as a fresh sender numbers them: the first is 0 and each
      later one is one greater, as long as fewer than 2^64 events are sent. */
  method NumberEvents(ps: seq<Payload>) returns (events: seq<Event>)
    requires |ps| <= UsizeModulus
    ensures |events| == |ps|
    ensures forall i :: 0 <= i < |ps| ==> events[i] == Event(i, ps[i])
    ensures forall i, j :: 0 <= i < j < |events| ==> events[i].seqNo < events[j].seqNo
  {
    var r := SendAll(FreshSender, ps);
    events := r.sent;
    assert forall i :: 0 <= i < |ps| ==> events[0 + i] == events[i];
  }

  /** After 2^64 events the counter is back at zero, so the next event
      repeats the first sequence number. */
  lemma CounterWraps(s: Sender, p: Payload)
    requires s.counter == UsizeModulus - 1
    ensures Send(s, p).counter == 0
  {
  }
}
