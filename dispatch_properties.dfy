/**
 * What the dispatch loop guarantees over whole scripts of ticks: FIFO
 * consumption, gapless per-batch numbering, the counter as the size of the
 * current batch, idle sessions that never synthesise, and what the buffer
 * keeps of the text between flushes.
 */
module DispatchProperties {
  import opened Options
  import opened Strings
  import opened Dispatch

  // ---------------------------------------------------------------------
  // The queue
  // ---------------------------------------------------------------------

  /** A step takes from the head of the queue and add_text appends at its tail. */
  lemma StepQueue(seg: Segmenter, cfg: Config, s: State, t: Tick)
    requires Inv(s) && Ready(|s.queue|, t)
    ensures Dequeued(s, t) + Step(seg, cfg, s, t).next.queue == s.queue + Enqueued(t)
  {
    if t.Get? {
      assert [s.queue[0]] + s.queue[1..] == s.queue;
    }
  }

  /**
   * Fragments are taken in the order they were enqueued, none is lost and
   * none is taken twice: what was taken, followed by what is still queued,
   * is exactly what was queued at the start followed by everything add_text
   * enqueued during the run.
   */
  lemma {:induction false} RunFifo(seg: Segmenter, cfg: Config, s: State, ticks: seq<Tick>)
    requires Inv(s) && Feasible(|s.queue|, ticks)
    ensures var tr := Run(seg, cfg, s, ticks);
      tr.consumed + tr.final.queue == s.queue + Puts(ticks)
    decreases |ticks|
  {
    if ticks != [] {
      var t := ticks[0];
      var o := Step(seg, cfg, s, t);
      RunFifo(seg, cfg, o.next, ticks[1..]);
      var rest := Run(seg, cfg, o.next, ticks[1..]);
      StepQueue(seg, cfg, s, t);
      Assoc(Dequeued(s, t), rest.consumed, rest.final.queue);
      Assoc(Dequeued(s, t), o.next.queue, Puts(ticks[1..]));
      Assoc(s.queue, Enqueued(t), Puts(ticks[1..]));
    }
  }

  // ---------------------------------------------------------------------
  // Sequence numbers
  // ---------------------------------------------------------------------

  /** The counter after a request: reset by the flush, one more otherwise. */
  function NextAfter(c: nat, u: Unit): (next: nat)
  {
    if u.final then 0 else c + 1
  }

  /** Requests numbered from `c`, each batch ending in a flush that resets the count. */
  predicate Numbered(c: nat, us: seq<Unit>)
    decreases |us|
  {
    us == [] || (us[0].number == c && Numbered(NextAfter(c, us[0]), us[1..]))
  }

  /** The counter value after the requests `us`, starting from `c`. */
  function NextNumber(c: nat, us: seq<Unit>): (next: nat)
    decreases |us|
  {
    if us == [] then c else NextNumber(NextAfter(c, us[0]), us[1..])
  }

  /** A request carries the counter in force; without a request the counter stays. */
  lemma StepCounter(seg: Segmenter, cfg: Config, s: State, t: Tick)
    requires Inv(s) && Ready(|s.queue|, t)
    ensures var o := Step(seg, cfg, s, t);
      (o.unit.Some? ==> o.unit.value.number == s.count && o.next.count == NextAfter(s.count, o.unit.value)) &&
      (o.unit.None? ==> o.next.count == s.count)
  {
  }

  /**
   * Every request of a run carries the counter value in force when it was
   * made, and the final counter is what the requests leave behind.
   */
  lemma {:induction false} RunNumbering(seg: Segmenter, cfg: Config, s: State, ticks: seq<Tick>)
    requires Inv(s) && Feasible(|s.queue|, ticks)
    ensures var tr := Run(seg, cfg, s, ticks);
      Numbered(s.count, tr.units) && tr.final.count == NextNumber(s.count, tr.units)
    decreases |ticks|
  {
    if ticks != [] {
      var o := Step(seg, cfg, s, ticks[0]);
      StepCounter(seg, cfg, s, ticks[0]);
      RunNumbering(seg, cfg, o.next, ticks[1..]);
      var rest := Run(seg, cfg, o.next, ticks[1..]);
      var us := ToSeq(o.unit) + rest.units;
      assert Run(seg, cfg, s, ticks).units == us;
      if o.unit.Some? {
        assert us[0] == o.unit.value && us[1..] == rest.units;
      } else {
        assert us == rest.units;
      }
    }
  }

  /** Inside a batch requests are numbered consecutively. */
  lemma {:induction false} BatchNumbers(c: nat, us: seq<Unit>, i: nat)
    requires Numbered(c, us) && i < |us|
    requires forall j :: 0 <= j < i ==> !us[j].final
    ensures us[i].number == c + i
    decreases i
  {
    if i > 0 {
      assert forall j :: 0 <= j < i - 1 ==> us[1..][j] == us[j + 1];
      BatchNumbers(c + 1, us[1..], i - 1);
    }
  }

  /** After a flush the numbering starts again at 0. */
  lemma {:induction false} NumberedAfterFlush(c: nat, us: seq<Unit>, k: nat)
    requires Numbered(c, us) && k < |us| && us[k].final
    ensures Numbered(0, us[k + 1..])
    decreases k
  {
    if k > 0 {
      assert us[1..][k - 1] == us[k];
      NumberedAfterFlush(NextAfter(c, us[0]), us[1..], k - 1);
      assert us[1..][k..] == us[k + 1..];
    }
  }

  /** Where the last batch begins: just after the last flush request, or at 0. */
  function LastBatchStart(us: seq<Unit>): (b: nat)
    ensures b <= |us|
    ensures b == 0 || us[b - 1].final
    ensures forall j :: b <= j < |us| ==> !us[j].final
    decreases |us|
  {
    if us == [] then 0
    else if us[|us| - 1].final then |us|
    else LastBatchStart(us[..|us| - 1])
  }

  lemma {:induction false} NextNumberSnoc(c: nat, us: seq<Unit>, u: Unit)
    ensures NextNumber(c, us + [u]) == NextAfter(NextNumber(c, us), u)
    decreases |us|
  {
    if us == [] {
      assert us + [u] == [u];
    } else {
      assert (us + [u])[1..] == us[1..] + [u];
      NextNumberSnoc(NextAfter(c, us[0]), us[1..], u);
    }
  }

  /** Starting from 0, the counter is the number of requests in the current batch. */
  lemma {:induction false} CounterIsBatchSize(us: seq<Unit>)
    ensures NextNumber(0, us) == |us| - LastBatchStart(us)
    decreases |us|
  {
    if us != [] {
      var init := us[..|us| - 1];
      assert us == init + [us[|us| - 1]];
      CounterIsBatchSize(init);
      NextNumberSnoc(0, init, us[|us| - 1]);
    }
  }

  /** Numbering from 0: batch members are numbered by their place in the batch. */
  lemma NumberedBatch(us: seq<Unit>, b: nat, i: nat)
    requires Numbered(0, us)
    requires b <= i < |us| && (b == 0 || us[b - 1].final) && forall j :: b <= j < i ==> !us[j].final
    ensures us[i].number == i - b
  {
    if b == 0 {
      BatchNumbers(0, us, i);
    } else {
      NumberedAfterFlush(0, us, b - 1);
      var batch := us[b..];
      assert forall j :: 0 <= j < i - b ==> batch[j] == us[b + j];
      BatchNumbers(0, batch, i - b);
    }
  }

  /**
   * Gapless numbering: in a session started by process_text, the requests of
   * one batch (from the start or from just after a flush, up to and
   * including the next flush) are numbered 0, 1, 2, ... with no gap or
   * repeat, and the counter at the end equals the number of requests made
   * in the current batch.
   */
  lemma GaplessBatches(seg: Segmenter, cfg: Config, queue: seq<string>, deadline: real, ticks: seq<Tick>, b: nat, i: nat)
    requires Feasible(|queue|, ticks)
    requires var us := Run(seg, cfg, Start(queue, deadline), ticks).units;
      b <= i < |us| && (b == 0 || us[b - 1].final) && forall j :: b <= j < i ==> !us[j].final
    ensures var tr := Run(seg, cfg, Start(queue, deadline), ticks);
      tr.units[i].number == i - b &&
      tr.final.count == |tr.units| - LastBatchStart(tr.units)
  {
    var tr := Run(seg, cfg, Start(queue, deadline), ticks);
    RunNumbering(seg, cfg, Start(queue, deadline), ticks);
    CounterIsBatchSize(tr.units);
    NumberedBatch(tr.units, b, i);
  }

  // ---------------------------------------------------------------------
  // Idle sessions
  // ---------------------------------------------------------------------

  /**
   * With an empty buffer and no fragment taken, timeouts change nothing:
   * no request is made, the counter, the timeout class and the deadline stay
   * as they were, and only the producer's chunks pile up in the queue.
   */
  lemma {:induction false} QuietSession(seg: Segmenter, cfg: Config, s: State, ticks: seq<Tick>)
    requires Inv(s) && Feasible(|s.queue|, ticks) && s.accumulated == ""
    requires forall i :: 0 <= i < |ticks| ==> !ticks[i].Get?
    ensures var tr := Run(seg, cfg, s, ticks);
      tr.units == [] && tr.consumed == [] && tr.final == s.(queue := s.queue + Puts(ticks))
    decreases |ticks|
  {
    if ticks != [] {
      var t := ticks[0];
      assert !t.Get?;
      var next := s.(queue := s.queue + Enqueued(t));
      assert Step(seg, cfg, s, t) == Outcome(next, None);
      assert forall i :: 0 <= i < |ticks| - 1 ==> ticks[1..][i] == ticks[i + 1];
      QuietSession(seg, cfg, next, ticks[1..]);
      Assoc(s.queue, Enqueued(t), Puts(ticks[1..]));
    }
  }

  // ---------------------------------------------------------------------
  // What the buffer keeps
  // ---------------------------------------------------------------------

  /** The segmenter returns the text cut into pieces, dropping nothing. */
  ghost predicate Lossless(seg: Segmenter)
  {
    forall x :: Concat(seg(x).List()) == x
  }

  /** The segmenter never returns more than two pieces. */
  ghost predicate AtMostTwoPieces(seg: Segmenter)
  {
    forall x :: |seg(x).rest| <= 1
  }

  lemma {:induction false} TextsAppend(a: seq<Unit>, b: seq<Unit>)
    ensures Texts(a + b) == Texts(a) + Texts(b)
    decreases |a|
  {
    if a == [] {
      assert a + b == b;
    } else {
      assert (a + b)[1..] == a[1..] + b;
      TextsAppend(a[1..], b);
    }
  }

  /** None of the requests is a timeout flush. */
  predicate NoFlush(us: seq<Unit>)
  {
    forall j :: 0 <= j < |us| ==> !us[j].final
  }

  /**
   * One step that is not a flush moves text from the fragment to the request
   * or the buffer; an idle timeout on an empty buffer moves nothing.
   */
  lemma StepKeepsText(seg: Segmenter, cfg: Config, s: State, t: Tick)
    requires Inv(s) && Ready(|s.queue|, t)
    requires Lossless(seg) && AtMostTwoPieces(seg)
    ensures var o := Step(seg, cfg, s, t);
      NoFlush(ToSeq(o.unit)) ==>
        Concat(Texts(ToSeq(o.unit))) + o.next.accumulated == s.accumulated + Concat(Dequeued(s, t))
  {
    var o := Step(seg, cfg, s, t);
    if t.Get? {
      var text := s.accumulated + s.queue[0];
      var pieces := seg(text).List();
      assert Concat(seg(text).List()) == text;
      assert Concat(Dequeued(s, t)) == s.queue[0] + Concat([]);
      if |pieces| > 1 {
        assert |seg(text).rest| <= 1;
        assert pieces == [pieces[0], pieces[1]];
        assert pieces[1..] == [pieces[1]] && pieces[1..][1..] == [];
        assert Concat(pieces[1..]) == pieces[1] + Concat([]);
        assert Concat(pieces) == pieces[0] + Concat(pieces[1..]);
        assert Texts(ToSeq(o.unit)) == [pieces[0]];
        assert Concat([pieces[0]]) == pieces[0] + Concat([]);
        assert o.next.accumulated == pieces[1];
        assert Concat(Texts(ToSeq(o.unit))) == pieces[0];
        assert pieces[0] + pieces[1] == text;
        assert Concat(Dequeued(s, t)) == s.queue[0];
      } else {
        assert o.unit == None;
      }
    } else if t.Expire? && s.accumulated == "" {
      assert o == Outcome(s, None);
    }
  }

  /**
   * Between flushes, with a segmenter that drops no text and never returns
   * more than two pieces, no text is lost: over any script whose requests
   * include no timeout flush (idle timeouts on an empty buffer allowed), the
   * requested texts followed by the buffer are the starting buffer followed
   * by every fragment taken.
   */
  lemma {:induction false} NoLossBetweenFlushes(seg: Segmenter, cfg: Config, s: State, ticks: seq<Tick>)
    requires Inv(s) && Feasible(|s.queue|, ticks)
    requires Lossless(seg) && AtMostTwoPieces(seg)
    ensures var tr := Run(seg, cfg, s, ticks);
      NoFlush(tr.units) ==>
        Concat(Texts(tr.units)) + tr.final.accumulated == s.accumulated + Concat(tr.consumed)
    decreases |ticks|
  {
    if ticks != [] && NoFlush(Run(seg, cfg, s, ticks).units) {
      var t := ticks[0];
      var o := Step(seg, cfg, s, t);
      var rest := Run(seg, cfg, o.next, ticks[1..]);
      var us := ToSeq(o.unit) + rest.units;
      assert Run(seg, cfg, s, ticks).units == us;
      assert NoFlush(ToSeq(o.unit)) by {
        assert forall j :: 0 <= j < |ToSeq(o.unit)| ==> ToSeq(o.unit)[j] == us[j];
      }
      assert NoFlush(rest.units) by {
        assert forall j :: 0 <= j < |rest.units| ==> rest.units[j] == us[|ToSeq(o.unit)| + j];
      }
      NoLossBetweenFlushes(seg, cfg, o.next, ticks[1..]);
      StepKeepsText(seg, cfg, s, t);
      var first := Concat(Texts(ToSeq(o.unit)));
      TextsAppend(ToSeq(o.unit), rest.units);
      ConcatAppend(Texts(ToSeq(o.unit)), Texts(rest.units));
      ConcatAppend(Dequeued(s, t), rest.consumed);
      calc {
        Concat(Texts(ToSeq(o.unit) + rest.units)) + rest.final.accumulated;
        (first + Concat(Texts(rest.units))) + rest.final.accumulated;
        { Assoc(first, Concat(Texts(rest.units)), rest.final.accumulated); }
        first + (Concat(Texts(rest.units)) + rest.final.accumulated);
        first + (o.next.accumulated + Concat(rest.consumed));
        { Assoc(first, o.next.accumulated, Concat(rest.consumed)); }
        (first + o.next.accumulated) + Concat(rest.consumed);
        (s.accumulated + Concat(Dequeued(s, t))) + Concat(rest.consumed);
        { Assoc(s.accumulated, Concat(Dequeued(s, t)), Concat(rest.consumed)); }
        s.accumulated + Concat(Dequeued(s, t) + rest.consumed);
      }
    }
  }

  /**
   * The flush after a fragment that completed no sentence: when the
   * accumulated text is non-empty and the segmenter drops no text, so that
   * it returns that text unchanged as one piece, the timeout requests
   * exactly the buffered text, the whole of what was accumulated, under the
   * current counter, and starts a new batch.
   */
  lemma FlushAfterHold(seg: Segmenter, cfg: Config, s: State, now1: real, ok1: bool, now2: real, ok2: bool)
    requires Inv(s) && |s.queue| > 0 && Lossless(seg)
    requires var text := s.accumulated + s.queue[0]; text != "" && |seg(text).List()| == 1
    ensures var o1 := Step(seg, cfg, s, Get(now1, ok1));
      var o2 := Step(seg, cfg, o1.next, Expire(now2, ok2));
      o1.unit == None &&
      o2.unit == Some(Unit(s.count, s.accumulated + s.queue[0], true, now2, ok2)) &&
      o2.next.accumulated == "" && o2.next.count == 0 && o2.next.wait == Initial
  {
    var text := s.accumulated + s.queue[0];
    var pieces := seg(text).List();
    assert Concat(seg(text).List()) == text;
    assert pieces[1..] == [];
    assert Concat(pieces) == pieces[0] + Concat(pieces[1..]);
    assert pieces[0] == text;
  }

  /**
   * A single non-empty fragment that the segmenter returns unchanged as one
   * piece, followed by silence: exactly one request, for the full fragment,
   * numbered 0 and made at the timeout;
   * the counter is back at 0 and the deadline is SYNTHESIS_TIMEOUT_LENGTH
   * after that request.
   */
  lemma SingleFragmentFlush(seg: Segmenter, cfg: Config, f: string, d: real, now1: real, ok1: bool, now2: real, ok2: bool)
    requires Lossless(seg) && f != "" && |seg(f).List()| == 1
    ensures Feasible(1, [Get(now1, ok1), Expire(now2, ok2)])
    ensures var tr := Run(seg, cfg, Start([f], d), [Get(now1, ok1), Expire(now2, ok2)]);
      tr.units == [Unit(0, f, true, now2, ok2)] && tr.consumed == [f] &&
      tr.final.queue == [] && tr.final.accumulated == "" && tr.final.count == 0 &&
      tr.final.wait == Initial && tr.final.deadline == now2 + cfg.synthesisTimeout
  {
    var s := Start([f], d);
    var ticks := [Get(now1, ok1), Expire(now2, ok2)];
    assert "" + f == f;
    FlushAfterHold(seg, cfg, s, now1, ok1, now2, ok2);
    var o1 := Step(seg, cfg, s, ticks[0]);
    var o2 := Step(seg, cfg, o1.next, ticks[1]);
    assert ticks[1..] == [Expire(now2, ok2)] && ticks[1..][1..] == [];
    assert Run(seg, cfg, o1.next, ticks[1..]) == Trace(o2.next, [o2.unit.value], []);
  }

  /**
   * The dispatch keeps only the second piece: when the segmenter drops no
   * text and returns a third piece with text in it (or more), the request
   * followed by the buffer falls short of the segmented text, so the third
   * and later pieces are lost.
   */
  lemma DispatchDropsLaterPieces(seg: Segmenter, cfg: Config, s: State, now: real, ok: bool)
    requires Inv(s) && |s.queue| > 0 && Lossless(seg)
    requires var pieces := seg(s.accumulated + s.queue[0]).List(); |pieces| > 2 && Concat(pieces[2..]) != ""
    ensures var o := Step(seg, cfg, s, Get(now, ok));
      o.unit.Some? && o.unit.value.text + o.next.accumulated != s.accumulated + s.queue[0]
  {
    var text := s.accumulated + s.queue[0];
    var pieces := seg(text).List();
    DispatchStep(seg, cfg, s, now, ok);
    var tail := Concat(pieces[2..]);
    assert Concat(pieces[1..]) == pieces[1] + Concat(pieces[1..][1..]);
    assert pieces[1..][1..] == pieces[2..];
    assert Concat(seg(text).List()) == text;
    assert Concat(pieces) == pieces[0] + Concat(pieces[1..]);
    assert text == pieces[0] + (pieces[1] + tail);
    assert |text| == |pieces[0]| + |pieces[1]| + |tail|;
  }

  /**
   * The flush re-requests the stale first piece: after a dispatch that left
   * a non-empty second piece in the buffer, a timeout makes a second request
   * for the text already requested, under the next number, and empties the
   * buffer, so the second piece is dropped from the buffer without being
   * requested.
   */
  lemma FlushRepeatsDispatchedText(seg: Segmenter, cfg: Config, s: State, now1: real, ok1: bool, now2: real, ok2: bool)
    requires Inv(s) && |s.queue| > 0
    requires var pieces := seg(s.accumulated + s.queue[0]).List(); |pieces| > 1 && pieces[1] != ""
    ensures var pieces := seg(s.accumulated + s.queue[0]).List();
      var o1 := Step(seg, cfg, s, Get(now1, ok1));
      var o2 := Step(seg, cfg, o1.next, Expire(now2, ok2));
      o1.unit == Some(Unit(s.count, pieces[0], false, now1, ok1)) &&
      o2.unit == Some(Unit(s.count + 1, pieces[0], true, now2, ok2)) &&
      o2.next.accumulated == "" && o2.next.count == 0
  {
  }

  // ---------------------------------------------------------------------
  // The three-fragment story
  // ---------------------------------------------------------------------

  const StoryHead: string := "有一天，"
  const StoryMiddle: string := "小花在公园里玩耍。"
  const StoryTail: string := "发现了蝴蝶。"

  /** A segmenter that recognises the full stop between the first two sentences of the story. */
  function StorySegmenter(x: string): (r: Sentences)
  {
    if x == StoryHead + StoryMiddle + StoryTail then Sentences(StoryHead + StoryMiddle, [StoryTail])
    else Sentences(x, [])
  }

  /** The three fragments sent one after another, then silence. */
  function StoryTicks(): (ticks: seq<Tick>)
  {
    [Put(StoryHead), Get(1.0, true)] + StoryMiddleTicks()
  }

  function StoryMiddleTicks(): (ticks: seq<Tick>)
  {
    [Put(StoryMiddle), Get(2.0, true)] + StoryLastTicks()
  }

  function StoryLastTicks(): (ticks: seq<Tick>)
  {
    [Put(StoryTail), Get(3.0, true), Expire(9.0, true)]
  }

  /** The state once the three fragments are processed and the flush is done. */
  function StoryEnd(cfg: Config): (s: State)
  {
    State([], "", 0, Initial, [StoryHead + StoryMiddle, StoryTail], 9.0 + cfg.synthesisTimeout)
  }

  /** The two requests of the story. */
  function StoryUnits(): (units: seq<Unit>)
  {
    [Unit(0, StoryHead + StoryMiddle, false, 3.0, true), Unit(1, StoryHead + StoryMiddle, true, 9.0, true)]
  }

  /** The third fragment completes the first sentence, then the timeout flushes. */
  lemma StoryLastRun(cfg: Config)
    ensures var s := State([], StoryHead + StoryMiddle, 0, TextReceive, [StoryHead + StoryMiddle], 0.0);
      Feasible(0, StoryLastTicks()) &&
      Run(StorySegmenter, cfg, s, StoryLastTicks()) == Trace(StoryEnd(cfg), StoryUnits(), [StoryTail])
  {
    var seg: Segmenter := StorySegmenter;
    var ticks := StoryLastTicks();
    var first := StoryHead + StoryMiddle;
    assert ticks[1..] == [Get(3.0, true), Expire(9.0, true)] && ticks[1..][1..] == [Expire(9.0, true)];
    assert ticks[1..][1..][1..] == [];
    var s4 := State([], first, 0, TextReceive, [first], 0.0);
    var s5 := s4.(queue := [StoryTail]);
    var s6 := State([], StoryTail, 1, TextReceive, [first, StoryTail], 3.0 + cfg.synthesisTimeout);
    var u0, u1 := StoryUnits()[0], StoryUnits()[1];
    assert Step(seg, cfg, s5, ticks[1]) == Outcome(s6, Some(u0));
    assert Step(seg, cfg, s6, Expire(9.0, true)) == Outcome(StoryEnd(cfg), Some(u1));
    assert Run(seg, cfg, s6, ticks[1..][1..]) == Trace(StoryEnd(cfg), [u1], []);
  }

  /** The second fragment ends with a full stop but is not yet followed by text. */
  lemma StoryMiddleRun(cfg: Config)
    ensures var s := State([], StoryHead, 0, TextReceive, [StoryHead], 0.0);
      Feasible(0, StoryMiddleTicks()) &&
      Run(StorySegmenter, cfg, s, StoryMiddleTicks()) == Trace(StoryEnd(cfg), StoryUnits(), [StoryMiddle, StoryTail])
  {
    var seg: Segmenter := StorySegmenter;
    var ticks := StoryMiddleTicks();
    var first := StoryHead + StoryMiddle;
    StoryLastRun(cfg);
    assert ticks[1..][1..] == StoryLastTicks();
    assert first != first + StoryTail by { assert |first| < |first + StoryTail|; }
    var s2 := State([], StoryHead, 0, TextReceive, [StoryHead], 0.0);
    var s3 := s2.(queue := [StoryMiddle]);
    var s4 := State([], first, 0, TextReceive, [first], 0.0);
    assert Step(seg, cfg, s3, ticks[1]) == Outcome(s4, None);
  }

  /**
   * The three fragments "有一天，", "小花在公园里玩耍。" and "发现了蝴蝶。"
   * followed by a timeout give two requests, and both are for the first
   * sentence: file 0 when the boundary is found, and file 1 again at the
   * flush, which reads the stale sentences[0]; "发现了蝴蝶。" is never
   * requested. The batch then ends with the counter back at 0.
   */
  lemma StoryExample(cfg: Config)
    ensures Feasible(0, StoryTicks())
    ensures var tr := Run(StorySegmenter, cfg, Start([], 0.0), StoryTicks());
      var first := StoryHead + StoryMiddle;
      tr.units == [Unit(0, first, false, 3.0, true), Unit(1, first, true, 9.0, true)] &&
      tr.consumed == [StoryHead, StoryMiddle, StoryTail] &&
      tr.final.accumulated == "" && tr.final.count == 0 && tr.final.wait == Initial
  {
    var seg: Segmenter := StorySegmenter;
    var ticks := StoryTicks();
    var first := StoryHead + StoryMiddle;
    StoryMiddleRun(cfg);
    assert ticks[1..][1..] == StoryMiddleTicks();
    assert "" + StoryHead == StoryHead;
    assert StoryHead != first + StoryTail by { assert |StoryHead| < |first + StoryTail|; }
    var s1 := Start([StoryHead], 0.0);
    var s2 := State([], StoryHead, 0, TextReceive, [StoryHead], 0.0);
    assert Step(seg, cfg, s1, ticks[1]) == Outcome(s2, None);
  }
}
