/**
 * The AudioSynthesiser object of azure_synthesiser.py and the push-stream
 * callback it creates: the deadline field and its rules, the text queue,
 * the process_text loop, the dummy receiver and the callback's byte buffer.
 * Clock readings and the speech service's outcomes are parameters.
 */
module Synthesiser {
  import opened Options
  import opened Strings
  import opened Dispatch
  import Voice
  import Chunking

  newtype byte = b: int | 0 <= b < 256

  /** The bytes of successive writes, in order. */
  function Flatten(chunks: seq<seq<byte>>): (bytes: seq<byte>)
    decreases |chunks|
  {
    if chunks == [] then [] else Flatten(chunks[..|chunks| - 1]) + chunks[|chunks| - 1]
  }

  /** The number of bytes in successive writes. */
  function TotalLength(chunks: seq<seq<byte>>): (n: nat)
    decreases |chunks|
  {
    if chunks == [] then 0 else |chunks[0]| + TotalLength(chunks[1..])
  }

  lemma {:induction false} TotalLengthSnoc(chunks: seq<seq<byte>>, c: seq<byte>)
    ensures TotalLength(chunks + [c]) == TotalLength(chunks) + |c|
    decreases |chunks|
  {
    if chunks == [] {
      assert [] + [c] == [c];
      assert [c][1..] == [];
    } else {
      assert (chunks + [c])[1..] == chunks[1..] + [c];
      TotalLengthSnoc(chunks[1..], c);
    }
  }

  /** The buffered bytes are as many as the writes delivered. */
  lemma {:induction false} FlattenLength(chunks: seq<seq<byte>>)
    ensures |Flatten(chunks)| == TotalLength(chunks)
    decreases |chunks|
  {
    if chunks != [] {
      var init := chunks[..|chunks| - 1];
      FlattenLength(init);
      assert chunks == init + [chunks[|chunks| - 1]];
      TotalLengthSnoc(init, chunks[|chunks| - 1]);
    }
  }

  /** The text dummy_text_receiver sends. */
  const DummyStory: string := "有一天，小花在公园里玩耍，发现了一个漂亮的蝴蝶。小花兴奋地追赶着蝴蝶，但是它不小心跑到了一个陌生的地方。小花感到害怕和孤独，不知道该怎么回家。"

  /**
   * A session as its caller sees it: a synthesiser created at clock reading
   * `t0` runs process_text over `ticks`, and synthesis_complete is read at
   * `now`. It holds exactly when `now` is past INITIAL_TIMEOUT_LENGTH after
   * `t0` if no request was made, and past SYNTHESIS_TIMEOUT_LENGTH after
   * the last request otherwise.
   */
  method SessionCompletion(cfg: Config, voiceMap: map<string, string>, t0: real, session: string,
                           seg: Segmenter, ticks: seq<Tick>, now: real) returns (units: seq<Unit>, done: bool)
    requires Feasible(0, ticks)
    ensures units == Run(seg, cfg, Start([], t0 + cfg.initialTimeout), ticks).units
    ensures units == [] ==> (done <==> now > t0 + cfg.initialTimeout)
    ensures units != [] ==> (done <==> now > units[|units| - 1].at + cfg.synthesisTimeout)
  {
    var synth := new AudioSynthesiser(cfg, voiceMap, t0);
    synth.sessionId := Some(session);
    units := synth.ProcessText(seg, ticks);
    RunDeadline(seg, cfg, Start([], t0 + cfg.initialTimeout), ticks);
    done := synth.SynthesisComplete(now);
  }

  class AudioSynthesiser {
    /** The timing constants of the parameters module. */
    const cfg: Config
    /** LANGUAGE_VOICE_MAP of the parameters module. */
    const voiceMap: map<string, string>
    /** The deadline self.timeout. */
    var timeout: real
    /** The asyncio queue text_queue. */
    var queue: seq<string>
    var outputFilename: string
    var sessionId: Option<string>
    /** self.stream_callback, once the push stream is set up. */
    var streamCallback: PushStreamCallback?
    /** The voice setting of self.speech_synthesizer, once it is set up. */
    var streamVoice: Option<Voice.Setting>

    /** __init__: the deadline starts INITIAL_TIMEOUT_LENGTH after `now`. */
    constructor (cfg: Config, voiceMap: map<string, string>, now: real)
      ensures this.cfg == cfg && this.voiceMap == voiceMap
      ensures timeout == now + cfg.initialTimeout
      ensures queue == [] && outputFilename == "" && sessionId == None
      ensures streamCallback == null && streamVoice == None
    {
      this.cfg := cfg;
      this.voiceMap := voiceMap;
      timeout := now + cfg.initialTimeout;
      queue := [];
      outputFilename := "";
      sessionId := None;
      streamCallback := null;
      streamVoice := None;
    }

    /** reset_timeout. */
    method ResetTimeout(now: real)
      modifies this`timeout
      ensures timeout == now + cfg.initialTimeout
    {
      timeout := now + cfg.initialTimeout;
    }

    /** synthesis_complete: the deadline has passed. */
    function SynthesisComplete(now: real): (done: bool)
      reads this
      ensures done <==> now > timeout
    {
      now > timeout
    }

    /** add_text: the chunk joins the back of the queue. */
    method AddText(chunk: string)
      modifies this`queue
      ensures queue == old(queue) + [chunk]
    {
      queue := queue + [chunk];
    }

    /** text_queue.get() once a fragment is queued: the front of the queue. */
    method TakeText() returns (text: string)
      requires |queue| > 0
      modifies this`queue
      ensures text == old(queue)[0] && queue == old(queue)[1..]
      ensures [text] + queue == old(queue)
    {
      text := queue[0];
      queue := queue[1..];
    }

    /**
     * speech_synthesis_to_push_audio_output_stream: a fresh callback with an
     * empty buffer, tied to this object, and the voice setting for `language`
     * ("zh-CN" when the caller names none).
     */
    method SpeechSynthesisToPushAudioOutputStream(language: string := Voice.DefaultLanguage)
      modifies this`streamCallback, this`streamVoice
      ensures streamCallback != null && fresh(streamCallback)
      ensures streamCallback.parent == this && streamCallback.Valid()
      ensures streamCallback.audioData == [] && streamCallback.chunks == [] && !streamCallback.closed
      ensures streamVoice == Some(Voice.Select(voiceMap, language))
    {
      streamVoice := Some(Voice.Select(voiceMap, language));
      streamCallback := new PushStreamCallback(this);
    }

    /**
     * dummy_text_receiver: the text, by default the story the source hard-codes,
     * goes to the queue three characters at a time.
     */
    method DummyTextReceiver(texts: string := DummyStory)
      modifies this`queue
      ensures queue == old(queue) + Chunking.Chunks(texts)
    {
      var i := 0;
      while i < |texts|
        invariant 0 <= i <= |texts|
        invariant queue + Chunking.Chunks(texts[i..]) == old(queue) + Chunking.Chunks(texts)
        decreases |texts| - i
      {
        var j := if i + Chunking.Width <= |texts| then i + Chunking.Width else |texts|;
        assert Chunking.Chunks(texts[i..]) == [texts[i..j]] + Chunking.Chunks(texts[j..]) by {
          if |texts[i..]| > Chunking.Width {
            assert texts[i..][..Chunking.Width] == texts[i..j];
            assert texts[i..][Chunking.Width..] == texts[j..];
          } else {
            assert texts[i..] != [] && texts[i..j] == texts[i..];
            assert texts[j..] == [];
          }
        }
        AddText(texts[i..j]);
        i := j;
      }
      assert texts[0..] == texts;
    }

    /**
     * process_text over a script of ticks: the requests made, in order, and
     * the queue and deadline afterwards are those of the dispatch model run
     * from the loop's initial variables.
     */
    method ProcessText(seg: Segmenter, ticks: seq<Tick>) returns (units: seq<Unit>)
      requires sessionId.Some?
      requires Feasible(|queue|, ticks)
      modifies this`queue, this`timeout
      ensures var tr := Run(seg, cfg, Start(old(queue), old(timeout)), ticks);
        units == tr.units && queue == tr.final.queue && timeout == tr.final.deadline
    {
      var accumulatedText: string := "";
      var numOfSentences: nat := 0;
      var timeoutLength := Initial;
      var sentences: seq<string> := [];
      ghost var whole := Run(seg, cfg, Start(queue, timeout), ticks);
      ghost var st := Start(queue, timeout);
      assert ticks[0..] == ticks;
      units := [];
      var i := 0;
      while i < |ticks|
        invariant 0 <= i <= |ticks|
        invariant st == State(queue, accumulatedText, numOfSentences, timeoutLength, sentences, timeout)
        invariant Inv(st) && Feasible(|st.queue|, ticks[i..])
        invariant units + Run(seg, cfg, st, ticks[i..]).units == whole.units
        invariant Run(seg, cfg, st, ticks[i..]).final == whole.final
        decreases |ticks| - i
      {
        ghost var step := Step(seg, cfg, st, ticks[i]);
        ghost var units0 := units;
        RunStep(seg, cfg, st, ticks, i);
        match ticks[i] {
          case Put(chunk) =>
            AddText(chunk);
          case Get(now, ok) =>
            var text := TakeText();
            timeoutLength := TextReceive;
            accumulatedText := accumulatedText + text;
            sentences := seg(accumulatedText).List();
            if |sentences| > 1 {
              timeout := now + cfg.synthesisTimeout;
              units := units + [Unit(numOfSentences, sentences[0], false, now, ok)];
              accumulatedText := sentences[1];
              numOfSentences := numOfSentences + 1;
            }
          case Expire(now, ok) =>
            if accumulatedText != "" {
              units := units + [Unit(numOfSentences, sentences[0], true, now, ok)];
              timeout := now + cfg.synthesisTimeout;
              accumulatedText := "";
              numOfSentences := 0;
              timeoutLength := Initial;
            }
        }
        assert State(queue, accumulatedText, numOfSentences, timeoutLength, sentences, timeout) == step.next;
        assert units == units0 + ToSeq(step.unit);
        Assoc(units0, ToSeq(step.unit), Run(seg, cfg, step.next, ticks[i + 1..]).units);
        st := step.next;
        i := i + 1;
      }
    }
  }

  /** The PushAudioOutputStreamSampleCallback of the push-stream path. */
  class PushStreamCallback {
    const parent: AudioSynthesiser
    /** _audio_data. */
    var audioData: seq<byte>
    /** _closed. */
    var closed: bool
    /** The writes received since the buffer was last cleared. */
    ghost var chunks: seq<seq<byte>>

    ghost predicate Valid()
      reads this
    {
      audioData == Flatten(chunks)
    }

    constructor (parent: AudioSynthesiser)
      ensures Valid() && this.parent == parent
      ensures audioData == [] && chunks == [] && !closed
    {
      this.parent := parent;
      audioData := [];
      closed := false;
      chunks := [];
    }

    /**
     * write: the chunk is appended to the buffer, the parent's deadline moves
     * to SYNTHESIS_TIMEOUT_LENGTH after `now`, and the chunk's size is returned.
     */
    method Write(buffer: seq<byte>, now: real) returns (n: nat)
      requires Valid()
      modifies this`audioData, this`chunks, parent`timeout
      ensures Valid()
      ensures audioData == old(audioData) + buffer && chunks == old(chunks) + [buffer]
      ensures parent.timeout == now + parent.cfg.synthesisTimeout
      ensures n == |buffer|
    {
      audioData := audioData + buffer;
      chunks := chunks + [buffer];
      assert chunks[..|chunks| - 1] == old(chunks);
      parent.timeout := now + parent.cfg.synthesisTimeout;
      n := |buffer|;
    }

    /** close: the stream is marked closed; the buffer is kept. */
    method Close()
      modifies this`closed
      ensures closed
    {
      closed := true;
    }

    /** get_audio_data: the bytes of the writes since the buffer was last cleared, in order. */
    method GetAudioData() returns (data: seq<byte>)
      requires Valid()
      ensures data == Flatten(chunks)
    {
      data := audioData;
    }

    /** get_audio_size: the number of bytes written since the buffer was last cleared. */
    method GetAudioSize() returns (size: nat)
      requires Valid()
      ensures size == |audioData| && size == TotalLength(chunks)
    {
      size := |audioData|;
      FlattenLength(chunks);
    }

    /**
     * save_to_file: the parent records the name of the file written, built
     * from the formatted clock reading `stamp`; the buffer is kept.
     */
    method SaveToFile(stamp: string)
      modifies parent`outputFilename
      ensures parent.outputFilename == "output/synthesized/audio_" + stamp + ".mp3"
    {
      parent.outputFilename := "output/synthesized/audio_" + stamp + ".mp3";
    }

    /** save_to_file_session: after the append to the session file, the buffer is emptied. */
    method SaveToFileSession(sessionId: string)
      requires Valid()
      modifies this`audioData, this`chunks
      ensures Valid() && audioData == [] && chunks == []
    {
      audioData := [];
      chunks := [];
    }
  }
}
