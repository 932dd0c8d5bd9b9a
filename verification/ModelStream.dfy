/** Streaming a reply: which call's text is delivered, and the pump between producer and consumer. */
module ModelStream {
  import opened Wrappers

  datatype StreamEnd = Finished | Declined | Broken(retryable: bool) | CallerAbort

  /** One provider call: the deltas it sends, how it ends, and whether the caller aborts in a backoff after it. */
  datatype StreamCall = StreamCall(deltas: seq<string>, end: StreamEnd, abortedAfter: bool)

  type StreamScript = nat -> StreamCall

  /** Empty deltas are not emitted. */
  function Texts(deltas: seq<string>): seq<string> {
    if deltas == [] then [] else (if deltas[0] != "" then [deltas[0]] else []) + Texts(deltas[1..])
  }

  function Concat(texts: seq<string>): string { if texts == [] then "" else texts[0] + Concat(texts[1..]) }

  /** Together the texts are all that was sent, and none is empty. */
  lemma {:induction false} TextsAreAll(deltas: seq<string>)
    ensures Concat(Texts(deltas)) == Concat(deltas) && forall t <- Texts(deltas) :: t != ""
  {
    if deltas != [] {
      TextsAreAll(deltas[1..]);
      if deltas[0] != "" { assert ([deltas[0]] + Texts(deltas[1..]))[1..] == Texts(deltas[1..]); }
      assert [] + Texts(deltas[1..]) == Texts(deltas[1..]);
    }
  }

  datatype StreamEnding = ServedBy(call: nat) | Interrupted | NotServed | StreamAborted

  datatype Streamed = Streamed(emitted: seq<string>, ending: StreamEnding)

  /** One model's stream, from call `k` on; a call that has sent text is the last. */
  function StreamFrom(script: StreamScript, retries: nat, k: nat, failures: nat): Streamed
    requires failures <= retries
    decreases retries - failures
  {
    var c := script(k);
    var texts := Texts(c.deltas);
    match c.end
    case Finished => Streamed(texts, ServedBy(k))
    case Declined => Streamed(texts, if texts != [] then Interrupted else NotServed)
    case CallerAbort => Streamed(texts, StreamAborted)
    case Broken(retryable) =>
      if texts != [] then Streamed(texts, Interrupted)
      else if retryable && failures + 1 < 1 + retries then
        if c.abortedAfter then Streamed([], StreamAborted) else StreamFrom(script, retries, k + 1, failures + 1)
      else Streamed([], NotServed)
  }

  datatype Gate = Open | Skipped | CallerGone

  datatype StreamEntry = StreamEntry(gate: Gate, retries: nat, script: StreamScript)

  /** The chain's stream: the next model is tried only when this one was not served. */
  function StreamChain(chain: seq<StreamEntry>, i: nat): (Streamed, nat)
    requires i <= |chain|
    decreases |chain| - i
  {
    if i == |chain| then (Streamed([], NotServed), i)
    else
      var e := chain[i];
      match e.gate
      case CallerGone => (Streamed([], StreamAborted), i)
      case Skipped => StreamChain(chain, i + 1)
      case Open =>
        var s := StreamFrom(e.script, e.retries, 0, 0);
        if s.ending.NotServed? then StreamChain(chain, i + 1) else (s, i)
  }

  /** The calls before the last had nothing to emit, and all of the last one's text is emitted; a model
      that did not serve has emitted nothing. */
  lemma {:induction false} OneCall(script: StreamScript, retries: nat, k: nat, failures: nat) returns (last: nat)
    requires failures <= retries
    ensures var s := StreamFrom(script, retries, k, failures);
            && k <= last <= k + retries - failures
            && (forall call :: k <= call < last ==> Texts(script(call).deltas) == [])
            && s.emitted == Texts(script(last).deltas)
            && (s.ending.ServedBy? <==> script(last).end.Finished?)
            && (s.ending.ServedBy? ==> s.ending.call == last)
            && (s.ending.NotServed? ==> s.emitted == [])
    decreases retries - failures
  {
    var c := script(k);
    if c.end.Broken? && Texts(c.deltas) == [] && c.end.retryable && failures + 1 <= retries && !c.abortedAfter {
      last := OneCall(script, retries, k + 1, failures + 1);
    } else {
      last := k;
    }
  }

  /** Everything a stream emits comes from a single provider call of a single model. */
  lemma {:induction false} SingleProviderCall(chain: seq<StreamEntry>, i: nat)
    requires i <= |chain|
    ensures var (s, j) := StreamChain(chain, i);
            && i <= j <= |chain|
            && (s.emitted == [] ||
                (j < |chain| && exists call: nat :: s.emitted == Texts(chain[j].script(call).deltas)))
            && (s.ending.ServedBy? ==> j < |chain| && s.emitted == Texts(chain[j].script(s.ending.call).deltas))
    decreases |chain| - i
  {
    if i < |chain| && !chain[i].gate.CallerGone? {
      SingleProviderCall(chain, i + 1);
      if chain[i].gate.Open? { var _ := OneCall(chain[i].script, chain[i].retries, 0, 0); }
    }
  }

  // ---- The pump ----------------------------------------------------------------------------------

  datatype Outcome = Value | Error

  /** The queue between producer and consumer, whether the consumer is parked, what it has been given,
      and what it ended with; `emitted` remembers all that the producer sent. */
  datatype Pump = Pump(
    queue: seq<string>, settled: Option<Outcome>, parked: bool, delivered: seq<string>, finished: Option<Outcome>, emitted: seq<string>)

  const IDLE := Pump([], None, false, [], None, [])

  datatype Step = Emit(text: string) | Settle(outcome: Outcome) | Consume

  /** Emitting and settling wake the consumer; the consumer takes an item, ends, or parks. Nothing
      happens between its last look at the queue and its parking. */
  function Next(p: Pump, step: Step): Pump {
    match step
    case Emit(text) =>
      if p.settled.Some? then p else p.(queue := p.queue + [text], emitted := p.emitted + [text], parked := false)
    case Settle(o) => if p.settled.Some? then p else p.(settled := Some(o), parked := false)
    case Consume =>
      if p.parked || p.finished.Some? then p
      else if p.queue != [] then p.(queue := p.queue[1..], delivered := p.delivered + [p.queue[0]])
      else if p.settled.Some? then p.(finished := p.settled)
      else p.(parked := true)
  }

  function Run(p: Pump, steps: seq<Step>): Pump
    decreases |steps|
  {
    if steps == [] then p else Run(Next(p, steps[0]), steps[1..])
  }

  predicate PumpOk(p: Pump) {
    && p.delivered + p.queue == p.emitted
    && (p.parked ==> p.queue == [] && p.settled.None? && p.finished.None?)
    && (p.finished.Some? ==> p.queue == [] && p.finished == p.settled)
  }

  lemma StepKeepsOk(p: Pump, step: Step)
    requires PumpOk(p)
    ensures PumpOk(Next(p, step))
  {
    if step.Emit? {
      assert p.delivered + (p.queue + [step.text]) == (p.delivered + p.queue) + [step.text];
    } else if step.Consume? && p.queue != [] {
      assert p.queue == [p.queue[0]] + p.queue[1..];
      assert (p.delivered + [p.queue[0]]) + p.queue[1..] == p.delivered + p.queue;
    }
  }

  lemma {:induction false} RunKeepsOk(p: Pump, steps: seq<Step>)
    requires PumpOk(p)
    ensures PumpOk(Run(p, steps))
    decreases |steps|
  {
    if steps != [] {
      StepKeepsOk(p, steps[0]);
      RunKeepsOk(Next(p, steps[0]), steps[1..]);
    }
  }

  /** However producer and consumer interleave: what is delivered is what was emitted, in order; the
      end comes after everything, and is the producer's; and the consumer is never parked while an
      item or the outcome waits. */
  lemma PumpDelivers(steps: seq<Step>)
    ensures var p := Run(IDLE, steps);
            && p.delivered <= p.emitted
            && (p.finished.Some? ==> p.delivered == p.emitted && p.finished == p.settled)
            && (p.parked ==> p.delivered == p.emitted && p.settled.None?)
  {
    RunKeepsOk(IDLE, steps);
    var p := Run(IDLE, steps);
    if p.finished.Some? || p.parked { assert p.delivered + [] == p.delivered; }
  }

  /** What the producer sends before it settles. */
  function Sent(steps: seq<Step>): seq<string> {
    if steps == [] || steps[0].Settle? then []
    else (if steps[0].Emit? then [steps[0].text] else []) + Sent(steps[1..])
  }

  /** How it settles, if it does: the first outcome stands. */
  function SettledAs(steps: seq<Step>): Option<Outcome> {
    if steps == [] then None else if steps[0].Settle? then Some(steps[0].outcome) else SettledAs(steps[1..])
  }

  lemma StepTakes(p: Pump, step: Step)
    ensures var p' := Next(p, step);
            && p'.settled == (if p.settled.None? && step.Settle? then Some(step.outcome) else p.settled)
            && p'.emitted == p.emitted + (if p.settled.None? && step.Emit? then [step.text] else [])
  {
    assert p.emitted + [] == p.emitted;
  }

  lemma Reassociated(a: seq<string>, b: seq<string>, c: seq<string>)
    ensures a + b + c == a + (b + c)
  {
  }

  lemma {:induction false} RunTakesAll(p: Pump, steps: seq<Step>)
    ensures var r := Run(p, steps);
            && r.settled == (if p.settled.Some? then p.settled else SettledAs(steps))
            && r.emitted == p.emitted + (if p.settled.Some? then [] else Sent(steps))
    decreases |steps|
  {
    hide Next;
    assert p.emitted + [] == p.emitted;
    if steps != [] {
      var p', first := Next(p, steps[0]), if steps[0].Emit? then [steps[0].text] else [];
      StepTakes(p, steps[0]);
      RunTakesAll(p', steps[1..]);
      Reassociated(p.emitted, first, Sent(steps[1..]));
      assert p'.emitted + [] == p'.emitted;
    }
  }

  /** The pump takes all that the producer sends until it settles, and the first outcome; a consumer that
      turns to it with nothing waiting parks. */
  lemma PumpTakesAll(steps: seq<Step>)
    ensures var p := Run(IDLE, steps);
            && p.emitted == Sent(steps) && p.settled == SettledAs(steps)
            && (Next(p, Consume).parked <==> p.queue == [] && p.settled.None?)
  {
    RunTakesAll(IDLE, steps);
    RunKeepsOk(IDLE, steps);
    assert [] + Sent(steps) == Sent(steps);
  }

  function Waiting(p: Pump): nat { |p.queue| + if p.finished.None? then 1 else 0 }

  /** With something waiting, each turn of the consumer gets on: it cannot miss its wake-up. */
  lemma ConsumerGetsOn(steps: seq<Step>)
    requires var p := Run(IDLE, steps); p.finished.None? && (p.queue != [] || p.settled.Some?)
    ensures Waiting(Next(Run(IDLE, steps), Consume)) < Waiting(Run(IDLE, steps))
  {
    RunKeepsOk(IDLE, steps);
  }
}
