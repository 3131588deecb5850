/**
 * The incremental sentence-dispatch loop of AudioSynthesiser.process_text
 * (azure_synthesiser.py), as a state machine over the events the loop can
 * observe, together with the FIFO queue that add_text feeds.
 *
 * One run of the loop body is one `Tick`:
 *  - `Put(chunk)`: the producer's add_text appends `chunk` to the queue;
 *  - `Get(now, ok)`: asyncio.wait_for returned the oldest queued fragment;
 *  - `Expire(now, ok)`: asyncio.wait_for ran out of time.
 * `now` is the clock reading (time.time()) taken if the step synthesises and
 * `ok` is the outcome the speech service reports for that synthesis, which
 * the loop never looks at.
 */
module Dispatch {
  import opened Options
  import opened Strings

  /**
   * What the sentence segmenter returns: blingfire's text_to_sentences
   * followed by split("\n"), a list that always has a first element.
   */
  datatype Sentences = Sentences(first: string, rest: seq<string>)
  {
    /** The list as the source sees it. */
    function List(): (l: seq<string>)
      ensures |l| >= 1 && l[0] == first
    {
      [first] + rest
    }
  }

  /** The segmentation policy is foreign; it is a parameter of the model. */
  type Segmenter = string -> Sentences

  /**
   * The timing constants the source imports from its parameters module.
   * textReceiveTimeout is carried for completeness only: no step reads it,
   * because the `Wait` class stands in for the length of the wait.
   */
  datatype Config = Config(initialTimeout: real, textReceiveTimeout: real, synthesisTimeout: real)

  /** Which idle timeout the next wait_for uses. */
  datatype Wait = Initial | TextReceive

  /**
   * One synthesis request: the sequence number that names its output file,
   * the text handed to the speech service, whether it was the timeout flush,
   * the clock reading time.time() taken with it, and whether the service
   * reported success.
   */
  datatype Unit = Unit(number: nat, text: string, final: bool, at: real, synthesised: bool)

  datatype Tick = Put(chunk: string) | Get(now: real, ok: bool) | Expire(now: real, ok: bool)

  /**
   * The loop's variables (accumulated_text, num_of_sentences, timeout_length,
   * sentences), the queue and the deadline field self.timeout. Before the
   * first fragment `sentences` is unbound in the source; it is [] here.
   */
  datatype State = State(
    queue: seq<string>,
    accumulated: string,
    count: nat,
    wait: Wait,
    sentences: seq<string>,
    deadline: real)

  /** The flush reads sentences[0]; that is only reached once it is bound. */
  predicate Inv(s: State)
  {
    s.sentences == [] ==> s.accumulated == ""
  }

  /** The state on entry to process_text. */
  function Start(queue: seq<string>, deadline: real): (s: State)
    ensures Inv(s)
  {
    State(queue, "", 0, Initial, [], deadline)
  }

  /** A Get can only complete when a fragment is queued. */
  predicate Ready(queued: nat, t: Tick)
  {
    t.Get? ==> queued > 0
  }

  /** The queue length after tick `t`. */
  function QueueLengthAfter(queued: nat, t: Tick): (n: nat)
    requires Ready(queued, t)
  {
    match t
    case Put(_) => queued + 1
    case Get(_, _) => queued - 1
    case Expire(_, _) => queued
  }

  /** Every Get of the script finds a fragment in the queue. */
  predicate Feasible(queued: nat, ticks: seq<Tick>)
    decreases |ticks|
  {
    ticks == [] || (Ready(queued, ticks[0]) && Feasible(QueueLengthAfter(queued, ticks[0]), ticks[1..]))
  }

  datatype Outcome = Outcome(next: State, unit: Option<Unit>)

  /** One iteration of the loop body (or one add_text). */
  function Step(seg: Segmenter, cfg: Config, s: State, t: Tick): (r: Outcome)
    requires Inv(s) && Ready(|s.queue|, t)
    ensures Inv(r.next)
    ensures |r.next.queue| == QueueLengthAfter(|s.queue|, t)
  {
    match t
    case Put(chunk) =>
      Outcome(s.(queue := s.queue + [chunk]), None)
    case Get(now, ok) =>
      var text := s.accumulated + s.queue[0];
      var pieces := seg(text).List();
      if |pieces| > 1 then
        Outcome(State(s.queue[1..], pieces[1], s.count + 1, TextReceive, pieces, now + cfg.synthesisTimeout),
                Some(Unit(s.count, pieces[0], false, now, ok)))
      else
        Outcome(State(s.queue[1..], text, s.count, TextReceive, pieces, s.deadline), None)
    case Expire(now, ok) =>
      if s.accumulated != "" then
        Outcome(s.(accumulated := "", count := 0, wait := Initial, deadline := now + cfg.synthesisTimeout),
                Some(Unit(s.count, s.sentences[0], true, now, ok)))
      else
        Outcome(s, None)
  }

  /** The fragment a tick takes off the queue, if any. */
  function Dequeued(s: State, t: Tick): (taken: seq<string>)
    requires Ready(|s.queue|, t)
  {
    if t.Get? then [s.queue[0]] else []
  }

  /** The chunk a tick enqueues, if any. */
  function Enqueued(t: Tick): (added: seq<string>)
  {
    if t.Put? then [t.chunk] else []
  }

  /** The final state, the synthesis requests in order, and the fragments taken. */
  datatype Trace = Trace(final: State, units: seq<Unit>, consumed: seq<string>)

  /** The loop run over a script of ticks. */
  function Run(seg: Segmenter, cfg: Config, s: State, ticks: seq<Tick>): (r: Trace)
    requires Inv(s) && Feasible(|s.queue|, ticks)
    ensures Inv(r.final)
    decreases |ticks|
  {
    if ticks == [] then Trace(s, [], [])
    else
      var o := Step(seg, cfg, s, ticks[0]);
      var rest := Run(seg, cfg, o.next, ticks[1..]);
      Trace(rest.final, ToSeq(o.unit) + rest.units, Dequeued(s, ticks[0]) + rest.consumed)
  }

  /** Running from tick i is one step followed by the run from tick i + 1. */
  lemma RunStep(seg: Segmenter, cfg: Config, s: State, ticks: seq<Tick>, i: nat)
    requires Inv(s) && i < |ticks| && Feasible(|s.queue|, ticks[i..])
    ensures Ready(|s.queue|, ticks[i])
    ensures var o := Step(seg, cfg, s, ticks[i]);
      Feasible(|o.next.queue|, ticks[i + 1..]) &&
      Run(seg, cfg, s, ticks[i..]).units == ToSeq(o.unit) + Run(seg, cfg, o.next, ticks[i + 1..]).units &&
      Run(seg, cfg, s, ticks[i..]).final == Run(seg, cfg, o.next, ticks[i + 1..]).final
  {
    assert ticks[i..][0] == ticks[i] && ticks[i..][1..] == ticks[i + 1..];
  }

  /** The chunks the producer enqueues during a script. */
  function Puts(ticks: seq<Tick>): (chunks: seq<string>)
    decreases |ticks|
  {
    if ticks == [] then []
    else Enqueued(ticks[0]) + Puts(ticks[1..])
  }

  /** The texts of a sequence of synthesis requests. */
  function Texts(units: seq<Unit>): (texts: seq<string>)
    decreases |units|
  {
    if units == [] then [] else [units[0].text] + Texts(units[1..])
  }

  // ---------------------------------------------------------------------
  // One step
  // ---------------------------------------------------------------------

  /**
   * A fragment is the head of the queue; it is appended to the buffer before
   * segmenting, and from then on the loop waits with the shorter timeout.
   */
  lemma FragmentStep(seg: Segmenter, cfg: Config, s: State, now: real, ok: bool)
    requires Inv(s) && |s.queue| > 0
    ensures var o := Step(seg, cfg, s, Get(now, ok));
      o.next.queue == s.queue[1..] &&
      o.next.wait == TextReceive &&
      o.next.sentences == seg(s.accumulated + s.queue[0]).List()
  {
  }

  /**
   * When the segmenter finds a boundary, exactly one request carrying the
   * current counter and the first piece is made; the counter rises by one
   * whatever the outcome; the buffer becomes the second piece alone.
   */
  lemma DispatchStep(seg: Segmenter, cfg: Config, s: State, now: real, ok: bool)
    requires Inv(s) && |s.queue| > 0
    requires |seg(s.accumulated + s.queue[0]).List()| > 1
    ensures var pieces := seg(s.accumulated + s.queue[0]).List();
      var o := Step(seg, cfg, s, Get(now, ok));
      o.unit == Some(Unit(s.count, pieces[0], false, now, ok)) &&
      o.next.count == s.count + 1 &&
      o.next.accumulated == pieces[1] &&
      o.next.deadline == now + cfg.synthesisTimeout
  {
  }

  /** Without a boundary nothing is synthesised and the buffer keeps all the text. */
  lemma HoldStep(seg: Segmenter, cfg: Config, s: State, now: real, ok: bool)
    requires Inv(s) && |s.queue| > 0
    requires |seg(s.accumulated + s.queue[0]).List()| == 1
    ensures var o := Step(seg, cfg, s, Get(now, ok));
      o.unit == None &&
      o.next.count == s.count &&
      o.next.accumulated == s.accumulated + s.queue[0] &&
      o.next.deadline == s.deadline
  {
  }

  /**
   * A timeout with a non-empty buffer makes one request for the last
   * segmentation's first piece under the current counter and starts a new
   * batch; with an empty buffer it changes nothing.
   */
  lemma TimeoutStep(seg: Segmenter, cfg: Config, s: State, now: real, ok: bool)
    requires Inv(s)
    ensures var o := Step(seg, cfg, s, Expire(now, ok));
      if s.accumulated != "" then
        o.unit == Some(Unit(s.count, s.sentences[0], true, now, ok)) &&
        o.next == s.(accumulated := "", count := 0, wait := Initial, deadline := now + cfg.synthesisTimeout)
      else
        o == Outcome(s, None)
  {
  }

  /** add_text only appends to the queue. */
  lemma PutStep(seg: Segmenter, cfg: Config, s: State, chunk: string)
    requires Inv(s)
    ensures Step(seg, cfg, s, Put(chunk)) == Outcome(s.(queue := s.queue + [chunk]), None)
  {
  }

  /** The next state does not depend on whether the speech service succeeded. */
  lemma OutcomeIgnored(seg: Segmenter, cfg: Config, s: State, t: Tick)
    requires Inv(s) && Ready(|s.queue|, t) && !t.Put?
    ensures Step(seg, cfg, s, t.(ok := true)).next == Step(seg, cfg, s, t.(ok := false)).next
  {
  }

  /**
   * The deadline moves to now + SYNTHESIS_TIMEOUT_LENGTH exactly on the
   * steps that synthesise, `now` being the clock reading the request
   * carries, and stays put otherwise; in particular a fragment
   * arrival alone does not move it.
   */
  lemma DeadlineRule(seg: Segmenter, cfg: Config, s: State, t: Tick)
    requires Inv(s) && Ready(|s.queue|, t)
    ensures var o := Step(seg, cfg, s, t);
      (o.unit.Some? ==> !t.Put? && o.unit.value.at == t.now && o.next.deadline == t.now + cfg.synthesisTimeout) &&
      (o.unit.None? ==> o.next.deadline == s.deadline)
  {
  }

  /**
   * The deadline after a run: where it started when no request was made,
   * and otherwise SYNTHESIS_TIMEOUT_LENGTH after the clock reading of the
   * last request made.
   */
  lemma {:induction false} RunDeadline(seg: Segmenter, cfg: Config, s: State, ticks: seq<Tick>)
    requires Inv(s) && Feasible(|s.queue|, ticks)
    ensures var tr := Run(seg, cfg, s, ticks);
      (tr.units == [] ==> tr.final.deadline == s.deadline) &&
      (tr.units != [] ==> tr.final.deadline == tr.units[|tr.units| - 1].at + cfg.synthesisTimeout)
    decreases |ticks|
  {
    if ticks != [] {
      var o := Step(seg, cfg, s, ticks[0]);
      RunDeadline(seg, cfg, o.next, ticks[1..]);
      DeadlineRule(seg, cfg, s, ticks[0]);
      var rest := Run(seg, cfg, o.next, ticks[1..]);
      var us := ToSeq(o.unit) + rest.units;
      assert Run(seg, cfg, s, ticks).units == us;
      if rest.units != [] {
        assert us[|us| - 1] == rest.units[|rest.units| - 1];
      } else if o.unit.Some? {
        assert us == [o.unit.value];
      }
    }
  }
}
