# Incremental sentence-dispatch pipeline of the voice-assistant backend, in Dafny

This project models the core of `azure_synthesiser.py`: the `AudioSynthesiser`
object that turns a stream of text fragments into speech-synthesis requests.

- Producers call `add_text`, which appends a fragment to a FIFO queue.
- A single consumer loop, `process_text`, takes fragments one at a time and
  appends each to an accumulation buffer.
- After each fragment the loop runs the sentence segmenter. When the
  segmenter returns more than one piece, the loop asks the speech service to
  synthesise the first piece into file `{num_of_sentences}.mp3`, keeps only
  the second piece in the buffer and increments the counter.
- When `asyncio.wait_for` times out with a non-empty buffer, the loop
  flushes: it makes one last request, then resets the buffer, the counter and
  the idle-timeout class for a fresh batch.
- A deadline field, `self.timeout`, tells outside observers when synthesis
  counts as complete (`synthesis_complete`).
- The push-stream path has a callback whose byte buffer collects the audio
  the service writes.

## Structure

- `options.dfy` (`Options`): the optional value used for Python's `None`.
- `strings.dfy` (`Strings`): concatenation of a list of strings.
- `voice.dfy` (`Voice`): the choice between a voice name from the
  language-to-voice table and a plain language hint.
- `chunking.dfy` (`Chunking`): the three-character chunks that
  `dummy_text_receiver` sends.
- `dispatch.dfy` (`Dispatch`): `process_text` as a pure state machine.
  - One `Tick` is one run of the loop body. `Get` means `wait_for` returned a
    fragment, and `Expire` means it timed out.
  - `Put` is an `add_text` of the producer interleaved at an `await`.
  - `Step` models one tick and `Run` models a whole script of ticks.
  - The state holds the loop variables (`accumulated_text`,
    `num_of_sentences`, `timeout_length`, `sentences`), the queue and the
    deadline.
- `dispatch_properties.dfy` (`DispatchProperties`): properties of whole runs
  (listed in the table below).
- `synthesiser.dfy` (`Synthesiser`): the classes.
  - `AudioSynthesiser` has the deadline, the queue, `add_text`,
    `reset_timeout`, `synthesis_complete`, `dummy_text_receiver`, the
    push-stream setup and `process_text`. Its `ProcessText` method holds
    the loop, with the same local variables and branches as the source, and
    is proved equal to `Dispatch.Run`.
  - `PushStreamCallback` is the callback with its byte buffer.
  - `SessionCompletion` runs a fresh synthesiser through `process_text` and
    reads `synthesis_complete`, tying completion to the requests made.

The environment the loop depends on is modelled as parameters:
- The segmenter (blingfire's `text_to_sentences` followed by `split("\n")`)
  is a parameter of type `Segmenter`. Its result type `Sentences` always has
  a first element, as a `split` result does.
- The constants of the `parameters` module (`INITIAL_TIMEOUT_LENGTH`,
  `TEXT_RECEIVE_TIMEOUT_LENGTH`, `SYNTHESIS_TIMEOUT_LENGTH`,
  `LANGUAGE_VOICE_MAP`) are parameters: a `Config` value and a map.
- Each clock reading `time.time()` is the `now` a tick or method receives.
- The speech service's success or failure is the `ok` a tick carries. It is
  recorded in the request, and the loop never looks at it.

The model follows the code where it departs from what its own comments and
messages say it does (line 221: "synthesise the rest of the text"; line 225
prints `accumulated_text`, but line 227 synthesises `sentences[0]`):
- The deadline moves on each dispatch, each flush and each callback write.
  It does not move when a fragment arrives.
- After a dispatch only `sentences[1]` stays in the buffer, and
  `sentences[2:]` are dropped (`DispatchDropsLaterPieces`).
- The flush requests the stale `sentences[0]`, not the buffer. After a
  dispatch, that is the text already requested: the three-fragment example
  (`StoryExample`, with a segmenter that splits at the full stop only when
  more text follows) gets two requests for "有一天，小花在公园里玩耍。" and
  none for "发现了蝴蝶。". When the last fragment completed no sentence and
  the segmenter returns that text unchanged, the two agree and the flush
  requests exactly the buffer (`FlushAfterHold`).
- The counter resets to 0 at every flush, so numbers (and file names) start
  again in each batch.

## Model

| member | source | states |
|---|---|---|
| Voice.Select | azure_synthesiser.py:57-61 | a voice name is set iff the language is a key of the table, and it is the table's entry; a language hint is set iff the language is not a key, and it is the language itself |
| Voice.ExactlyOneSetting | azure_synthesiser.py:168-172 | the push-stream path makes the same choice: exactly one of voice name and language hint is set |
| Chunking.Chunks | azure_synthesiser.py:242-243 | the slices `texts[i : i + 3]` for i in `range(0, len(texts), 3)`: none for the empty text, and otherwise the first chunk is a prefix of 1 to 3 characters (their order, number and positions: `ChunksConcat`, `ChunksCount`, `ChunkAt`) |
| Chunking.ChunksConcat | azure_synthesiser.py:242-243 | concatenating the chunks sent, in order, gives back the whole text |
| Chunking.ChunksCount | azure_synthesiser.py:242 | there are ceil(len / 3) chunks, one per value of `range(0, len(texts), 3)` |
| Chunking.ChunkAt | azure_synthesiser.py:243 | chunk k is the slice `texts[3k : 3k + 3]`, clipped at the end; every chunk has 1 to 3 characters |
| Dispatch.Start | azure_synthesiser.py:194-197 | the loop starts with an empty buffer, counter 0, the INITIAL_TIMEOUT_LENGTH wait and no segmentation, a state that satisfies the loop invariant (the run from it: `ProcessText`, `GaplessBatches`, `SingleFragmentFlush`) |
| Dispatch.Step | azure_synthesiser.py:198-232 | a loop iteration never reaches the flush's `sentences[0]` while `sentences` is unbound; a Get removes one fragment, a Put adds one, a timeout leaves the queue alone |
| Dispatch.Run | azure_synthesiser.py:198-232 | the loop keeps that invariant over any script of ticks |
| Dispatch.FragmentStep | azure_synthesiser.py:202-209 | a fragment is the head of the queue; the segmenter sees the old buffer followed by the fragment; afterwards the wait uses TEXT_RECEIVE_TIMEOUT_LENGTH (the queue part over whole runs is `RunFifo`) |
| Dispatch.DispatchStep | azure_synthesiser.py:210-216 | with more than one piece: exactly one request (counter, first piece); the counter rises by one whatever the outcome; the buffer becomes the second piece; the deadline is now + SYNTHESIS_TIMEOUT_LENGTH (over whole runs: `RunNumbering`, `NoLossBetweenFlushes`) |
| Dispatch.HoldStep | azure_synthesiser.py:218-219 | with one piece: no request, the counter and the deadline are unchanged, and the buffer keeps all the appended text (what the next flush requests: `FlushAfterHold`) |
| Dispatch.TimeoutStep | azure_synthesiser.py:222-232 | a timeout with a non-empty buffer makes one request (counter, sentences[0]), empties the buffer, resets the counter to 0 and the wait to INITIAL_TIMEOUT_LENGTH, and moves the deadline; with an empty buffer nothing changes (over whole runs: `RunNumbering`, `QuietSession`) |
| Dispatch.PutStep | azure_synthesiser.py:188-190 | add_text appends the chunk at the back of the queue and changes nothing else (over whole runs: `RunFifo`) |
| Dispatch.OutcomeIgnored | azure_synthesiser.py:77-82 | the loop's next state is the same whether synthesis succeeded or failed |
| Dispatch.DeadlineRule | azure_synthesiser.py:210-228 | the deadline becomes now + SYNTHESIS_TIMEOUT_LENGTH exactly on steps that make a request, `now` being the request's clock reading, and is unchanged on every other step, fragment arrivals included (over whole runs: `RunDeadline`) |
| Dispatch.RunDeadline | azure_synthesiser.py:205-228 | after a run the deadline is where it started if no request was made, and otherwise SYNTHESIS_TIMEOUT_LENGTH after the clock reading of the last request |
| DispatchProperties.RunFifo | azure_synthesiser.py:188-204 | the fragments consumed, followed by those still queued, are the initial queue followed by every chunk enqueued: FIFO order, nothing lost or taken twice |
| DispatchProperties.RunNumbering | azure_synthesiser.py:213-231 | every request carries the counter value in force, and the final counter is what the requests leave behind (one more per dispatch, 0 after a flush) |
| DispatchProperties.GaplessBatches | azure_synthesiser.py:194-231 | from the loop's start, the requests of each batch are numbered 0, 1, 2, ... with no gap or repeat, and the counter equals the number of requests in the current batch |
| DispatchProperties.CounterIsBatchSize | azure_synthesiser.py:216-231 | starting from 0, the counter is the number of requests since the last flush |
| DispatchProperties.QuietSession | azure_synthesiser.py:222-224 | with an empty buffer and no fragment taken, timeouts make no request and leave the counter, the wait class and the deadline unchanged |
| DispatchProperties.NoLossBetweenFlushes | azure_synthesiser.py:205-216 | between flushes (over any script whose requests include no timeout flush; idle timeouts on an empty buffer are allowed), when the segmenter drops no text and returns at most two pieces, the requested texts followed by the buffer equal the starting buffer followed by every fragment taken |
| DispatchProperties.DispatchDropsLaterPieces | azure_synthesiser.py:215 | when the segmenter drops no text and returns a non-empty third piece or more, the request followed by the buffer falls short of the segmented text: the third and later pieces are lost |
| DispatchProperties.FlushAfterHold | azure_synthesiser.py:205-232 | when the last fragment completed no sentence and the segmenter drops no text, the timeout requests exactly the non-empty accumulated text under the current counter, empties the buffer and resets the counter to 0 and the wait to INITIAL_TIMEOUT_LENGTH |
| DispatchProperties.SingleFragmentFlush | azure_synthesiser.py:194-232 | from the loop's start, a single non-empty fragment that the segmenter returns unchanged as one piece, followed by a timeout, gives exactly one request, for the full fragment, numbered 0; afterwards the queue and buffer are empty, the counter is 0 and the deadline is SYNTHESIS_TIMEOUT_LENGTH after the flush |
| DispatchProperties.FlushRepeatsDispatchedText | azure_synthesiser.py:224-227 | after a dispatch that left a non-empty second piece, a timeout requests the already requested first piece again under the next number, and the second piece is dropped from the buffer without being requested |
| DispatchProperties.StoryExample | azure_synthesiser.py:202-232 | with a segmenter that splits at the full stop only when more text follows (`StorySegmenter`), the fragments "有一天，", "小花在公园里玩耍。", "发现了蝴蝶。" and a timeout give exactly two requests, both for "有一天，小花在公园里玩耍。", numbered 0 and 1; the counter ends at 0 |
| Synthesiser.AudioSynthesiser.constructor | azure_synthesiser.py:25-39 | the deadline is now + INITIAL_TIMEOUT_LENGTH; the queue and the output file name are empty; there is no session id |
| Synthesiser.AudioSynthesiser.ResetTimeout | azure_synthesiser.py:246-248 | the deadline becomes now + INITIAL_TIMEOUT_LENGTH |
| Synthesiser.AudioSynthesiser.SynthesisComplete | azure_synthesiser.py:250-252 | complete exactly when the clock reading is past the deadline field (what the deadline is after a session: `SessionCompletion`) |
| Synthesiser.SessionCompletion | azure_synthesiser.py:246-252 | for a synthesiser created at t0 that runs process_text, synthesis_complete at `now` holds iff `now` is past t0 + INITIAL_TIMEOUT_LENGTH when no request was made, and past the last request's clock reading + SYNTHESIS_TIMEOUT_LENGTH otherwise |
| Synthesiser.AudioSynthesiser.AddText | azure_synthesiser.py:188-190 | the chunk is appended at the back of the queue |
| Synthesiser.AudioSynthesiser.TakeText | azure_synthesiser.py:202-204 | the fragment returned is the front of the queue and is removed from it |
| Synthesiser.AudioSynthesiser.SpeechSynthesisToPushAudioOutputStream | azure_synthesiser.py:84-182 | a fresh callback tied to this object with an empty open buffer, and the voice setting `Voice.Select` gives for the language ("zh-CN" when none is given) |
| Synthesiser.AudioSynthesiser.DummyTextReceiver | azure_synthesiser.py:234-244 | the queue gains exactly the three-character chunks of the text, in order; the text defaults to the story of line 237 |
| Synthesiser.AudioSynthesiser.ProcessText | azure_synthesiser.py:192-232 | the requests made, and the queue and deadline afterwards, are those of `Dispatch.Run` from the loop's initial variables |
| Synthesiser.PushStreamCallback.constructor | azure_synthesiser.py:95-103 | empty buffer, not closed, tied to its parent |
| Synthesiser.PushStreamCallback.Write | azure_synthesiser.py:105-119 | the chunk is appended to the buffer, the parent's deadline becomes now + SYNTHESIS_TIMEOUT_LENGTH, and the chunk's size is returned |
| Synthesiser.PushStreamCallback.Close | azure_synthesiser.py:121-127 | the stream is marked closed |
| Synthesiser.PushStreamCallback.GetAudioData | azure_synthesiser.py:129-130 | returns the bytes of the writes since the buffer was last cleared, in the order they were written |
| Synthesiser.PushStreamCallback.GetAudioSize | azure_synthesiser.py:132-133 | the buffer's length, which is the total size of the writes since the buffer was last cleared |
| Synthesiser.PushStreamCallback.SaveToFile | azure_synthesiser.py:135-142 | the parent's output file name becomes `output/synthesized/audio_<clock>.mp3`; the buffer is kept |
| Synthesiser.PushStreamCallback.SaveToFileSession | azure_synthesiser.py:144-154 | the buffer is emptied |

## Left out

- Azure Speech SDK calls (`SpeechConfig`, `SpeechSynthesizer`, `speak_text_async`, `PushAudioOutputStream`, output formats): foreign code. A synthesis is a recorded request with an arbitrary outcome; of `speech_synthesis_to_mp3` only the voice choice (`Voice.Select`) is modelled. `process_text` passes no language, so its requests use the default "zh-CN"; a request (`Dispatch.Unit`) does not record the voice setting.
- blingfire `text_to_sentences`: a foreign segmentation policy, kept as the `Segmenter` parameter.
- File system and environment effects: `mkdir`, the mp3 files, the appends in `write` and the save methods, dotenv loading and `print`. These are I/O.
- asyncio timing: the real waits of `wait_for`, `asyncio.sleep`, `create_task` and the `run_dummy` polling loop. A timeout is the discrete `Expire` tick; the state records which idle timeout (`Dispatch.Wait`) the next wait uses, not its length in seconds.
- Synthesiser.AudioSynthesiser.ProcessText: `process_text` never returns; the model runs a finite script of ticks. The script may contain a timeout while fragments are queued, which real scheduling would not normally produce.
- Synthesiser.AudioSynthesiser.ProcessText: requires a session id, because the loop builds its output folder from `self.session_id`.
- `AudioSynthesiser.close`: it deletes `self.result`, which is never assigned, so a call always raises. This is resource plumbing with no state to model.
- Floating point: `time.time()` and the sums `time.time() + ..._TIMEOUT_LENGTH` are `real`, so float rounding in the deadline and in the `synthesis_complete` comparison is not modelled.
- Synthesiser.PushStreamCallback.SaveToFile: the formatting of the float `time.time()` into the file name is the `stamp` parameter.
- `main.py` (HTTP and WebSocket endpoints, the chat relay, transcription) and `mongo_access.py` (database, password hashing, tokens) are not part of this model: they are wrappers around services and libraries the source does not include.
