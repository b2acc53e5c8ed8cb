# vrconduct score and channel streams, in Dafny

vrconduct plays a MIDI file as one audio stream per MIDI channel. A `score` loads
the file as a single linked list of timed messages. It then walks that list once
and splits it by channel number: the first message on a channel number opens a
`channel` stream on it, and every later message on that number is appended to the
stream by relinking the stream's previous tail to it. A `channel` is a seekable byte
stream of 16-bit mono PCM at 44100 Hz. It keeps a cursor into the shared list
(`m_start`, `m_current`, `m_end`), a byte offset and a millisecond clock, and it
drives its own synthesizer.

`read` serves a request of `count` bytes as `count / 2` samples in four sub-chunks.
For each sub-chunk it:

- applies to the synthesizer, in link order, every message timed before the
  sub-chunk's end;
- moves the cursor past them;
- adds the whole `count` to the offset;
- advances the clock by a quarter of the request's duration;
- renders a quarter of the samples into its slice of a zeroed buffer.

`skip` and `seek` move the clock and the cursor without applying messages.

The model is organised as follows:

- **`Types`**: the constants (512, 44100, 2-byte samples), `size_t` arithmetic
  modulo 2^64, and the error kinds.
- **`Midi`**: messages, and the message list as an arena with `-1` for null. It
  defines `Chain` (the walk along the links), `Run` (the stretch of the walk timed
  before a bound) and `Past` (where that stretch stops).
- **`Synthesis`**: the synthesizer as a history of calls, the per-kind dispatch of
  a message, and the drum-kit rule for program changes.
- **`Reading`**: one `read` request as values. It covers what each sub-chunk sees,
  applies and renders, and what the whole request amounts to.
- **`Streaming`**: the list as a `Timeline` object (messages plus a mutable
  `next: array<int>`) and `Channel` as a class whose methods update its fields in
  place.
- **`Partition`**: the links that the score's partitioning walk leaves behind, as
  values. It also defines the messages on a channel in file order, and the links as
  intended, where each channel ends at its own last message.
- **`Placement`**: one step of that walk over the objects, and the state it keeps.
- **`Scoring`**: the walk itself, and the `Score` class with `Load`, `GetChannel`,
  `GetChannels`, and `Seal`, the corrected link-up.

The model keeps some behaviour of the code exactly as written:

- `read` adds the full `count` to the offset once per sub-chunk, so four times per
  call, while the clock advances by the true duration only.
- `skip`'s rewind branch cannot run, because `count` is unsigned. The model's
  `Skip` only moves forward.
- A backward `seek` returns before its rewind line, so it changes only the offset.
- A channel's last message keeps the link the parser gave it. See "Findings".

The contracts of `Skip`, `Seek`, `SubChunk` and `Read` state every change to the
offset that `tell` reports. A Dafny class has reference semantics and cannot be copied, which matches
the deleted copy operations (include/score.hpp:27-31). The channel's state is the
fields of `Streaming.Channel` (include/score.hpp:86-94); the synthesizer stands in
for `m_renderer`.

## Model

| member | source | states |
|---|---|---|
| Types.AdvancedMod | src/score.cpp:98 | adding the byte count once per sub-chunk, k times with 64-bit wrap-around, is one addition of k·count modulo 2^64 |
| Midi.RunThenPast | src/score.cpp:116-117 | walking the cursor while messages are timed before a bound splits the chain ahead into the stretch passed and the chain from where the walk stops |
| Midi.RunConcat | src/score.cpp:131-132 | advancing to one bound and then to a later one passes the same messages, and stops at the same place, as advancing to the later bound at once |
| Midi.PastAtStop | src/score.cpp:73 | a cursor that is null or at a message not before the bound does not move, and passes nothing |
| Synthesis.Dispatch | src/score.cpp:74-92 | exactly the five handled kinds dispatch; each call addresses the message's channel; a program change, and only one, sets the preset, with the drum-kit flag exactly when the channel is 9 |
| Synthesis.HandledPrefixMaximal | src/score.cpp:73-95 | the messages applied before an exception are a prefix of the due ones, all of them handled, and they stop only at an unhandled message |
| Synthesis.OpsDispatch | src/score.cpp:74-92 | one synthesizer call per applied message, each the dispatch of that message, in order |
| Synthesis.HandledAppend | src/score.cpp:73-95 | after a stretch of handled messages, dispatching goes on with the next stretch unchanged |
| Synthesis.OpsKeepConfigured | src/score.cpp:17 | once the synthesizer is set to mono output at 44100 Hz, dispatching messages keeps that setup, and every program change after it follows the drum-kit rule |
| Reading.LoIsProduct | src/score.cpp:101 | sub-chunk i writes from sample (i·n)/4 |
| Reading.SliceFits | src/score.cpp:101 | each slice of n/4 samples ends before the next slice starts, and inside the n samples |
| Reading.SlicesDisjoint | src/score.cpp:101 | the four slices lie inside the buffer, in order, without overlapping |
| Reading.RequestDuration | src/score.cpp:99 | after four sub-chunks the clock has advanced by exactly the duration of the request's samples |
| Reading.StartMonotone | src/score.cpp:99 | the clock never goes back from one sub-chunk to a later one |
| Reading.Step | src/score.cpp:73-97 | one sub-chunk ends where the next begins: its bound is the next start, the cursor moves past the messages before it, and those are added to the drained ones |
| Reading.SubChunkAdvances | src/score.cpp:72-102 | a sub-chunk taken from the state at its start leads to the state at the next one when all its due messages are handled, and otherwise to the request's stopped state |
| Reading.FailingFirst | src/score.cpp:90-91 | the request stops at the first sub-chunk holding a message it cannot dispatch, and every earlier one is fully handled |
| Reading.DrainedHandled | src/score.cpp:73-95 | every message drained before the failing sub-chunk was dispatched |
| Reading.RequestSplit | src/score.cpp:72-97 | the messages due before the request's end are those drained before sub-chunk j, then the ones due from its cursor on |
| Reading.HandledPrefixStops | src/score.cpp:90-91 | once an unhandled message is met, later messages add nothing to what is applied |
| Reading.AllHandledSplit | src/score.cpp:73-95 | a stretch is all handled exactly when both of its parts are |
| Reading.ReadAppliesAll | src/score.cpp:72-97 | a read that completes applies exactly the messages due before its end, each once, in link order |
| Reading.ReadStopsAtUnhandled | src/score.cpp:90-91 | a read that throws has applied exactly the handled messages before the first unhandled one |
| Reading.ReadAppliesDueEvents | src/score.cpp:72-97 | a read completes exactly when every due message is handled, and in both cases applies the handled prefix of the due messages |
| Reading.ReadTotals | src/score.cpp:98-99 | a completed read adds 4·count to the offset modulo 2^64 and advances the clock by the samples' duration |
| Reading.SuccessiveReads | src/score.cpp:68-97 | two completed reads in a row, the second from where the first left off, apply between them the due messages without repeats or gaps |
| Reading.RetryRepeats | src/score.cpp:90-97 | a retry of the same size, from the cursor and clock a thrown read leaves, throws again in its first sub-chunk after applying once more exactly the messages the failing sub-chunk had applied |
| Reading.AssembledInside | src/score.cpp:101 | a sample inside a slice already rendered holds that slice's sample, whatever later slices write |
| Reading.AssembledOutside | src/score.cpp:66 | a sample that no slice covers stays zero |
| Reading.AssembledContents | src/score.cpp:104 | the returned samples are the four rendered slices at (i·n)/4, and zero wherever no slice writes |
| Streaming.Timeline.constructor | src/score.cpp:166 | the list as loaded links every message to the following one and the last to null |
| Streaming.CopyOut | src/score.cpp:104 | the samples are copied to the front of the caller's buffer, and the rest of it is left alone |
| Streaming.Channel.constructor | src/score.cpp:12-18 | a new stream starts, is at, and ends at its first message, with offset 0, clock 0 and the synthesizer set to mono at 44100 Hz |
| Streaming.Channel.Open | src/score.cpp:13-15 | opening a stream fails with a load error exactly when its SoundFont does not load |
| Streaming.Channel.PushEvent | src/score.cpp:42-45 | the old tail is linked to the new message, which becomes the tail; every other link, and the start and cursor, are unchanged |
| Streaming.Channel.PeekEvent | src/score.cpp:47-49 | the cursor is the first message ahead, or null when none is left |
| Streaming.Channel.PopEvent | src/score.cpp:51-57 | returns the cursor, and moves it along its link only when it is not null; the messages ahead lose exactly the returned one |
| Streaming.Channel.Tell | src/score.cpp:139-141 | the reported position is the channel's byte offset, an unsigned 64-bit value |
| Streaming.Channel.Eof | src/score.cpp:143-145 | the end is reached exactly when no message is left ahead of the cursor |
| Streaming.Channel.Clone | src/score.cpp:147-148 | cloning always fails |
| Streaming.Channel.AdvanceTo | src/score.cpp:116-117 | the cursor moves past exactly the messages timed before the bound, and applies none |
| Streaming.Channel.Skip | src/score.cpp:109-118 | the offset grows by count modulo 2^64, the clock is the time of the new offset, and the cursor only moves forward, past the messages before that time |
| Streaming.Channel.Seek | src/score.cpp:120-137 | the offset becomes pos; when the stream has ended, or the new time is earlier, nothing else changes; otherwise the clock moves to the new time, the cursor passes the messages before it, and one discarded 512-sample render follows |
| Streaming.Channel.Walk | src/score.cpp:73-95 | the due messages from the cursor are dispatched in link order onto a copy of the history, up to the first one that cannot be dispatched; it succeeds exactly when all are handled, and then stops past them |
| Streaming.Channel.Drain | src/score.cpp:73-95 | the messages due before the bound are applied in link order, up to the first one that cannot be dispatched; the walk stops past them when all are handled |
| Streaming.Channel.RenderInto | src/score.cpp:101 | the rendered quarter lands in its slice and the synthesizer records the render |
| Streaming.Channel.SubChunk | src/score.cpp:72-102 | one sub-chunk moves the stream as described by `SubChunkStep` and writes its rendered slice |
| Streaming.Channel.SubChunks | src/score.cpp:72-102 | the four sub-chunks stop at the first failing one, in the state the request schedule gives, and build the assembled buffer when all complete |
| Streaming.Channel.Read | src/score.cpp:64-107 | a read completes exactly when no due message is unhandled; it then returns 2·(count/2) bytes and fills the buffer with the assembled samples; otherwise it fails with the buffer untouched; either way the stream ends in the schedule's stopped state |
| Partition.NextOnFirst | src/score.cpp:172-174 | no message on the channel comes before the first one found |
| Partition.NextOnGrow | src/score.cpp:171-177 | looking one message further finds the same first message on a channel, or the new one if there was none |
| Partition.LastOnNext | src/score.cpp:176 | a message is the last on its channel exactly when no later one shares the channel |
| Partition.SeenFirstLast | src/score.cpp:172-174 | a channel number has been met exactly when it has a first message, and exactly when it has a last one |
| Partition.SeenExactly | src/score.cpp:171-174 | the channel numbers met are exactly those of the messages walked |
| Partition.LinksAt | src/score.cpp:42-45 | once the first i messages are placed, each of them links to the next placed message on its channel; the last placed one of a channel, and every message not yet placed, keeps the link the parser gave it |
| Partition.LinksWf | src/score.cpp:176 | every link the walk leaves is null or points forward |
| Partition.MembersSkip | src/score.cpp:171-177 | skipping messages of other channels drops none of a channel's messages |
| Partition.MembersExactly | src/score.cpp:171-177 | the members of a channel are exactly the messages on it, in file order |
| Partition.LoadedChain | src/score.cpp:171-179 | as written, the walk from a channel's first message visits that channel's messages in file order and then runs on past its last one |
| Partition.LeakExample | src/score.cpp:42-45 | for a note on channel 0 followed by a note on channel 1, channel 0's walk reaches channel 1's note |
| Partition.SealedChain | src/score.cpp:171-179 | with each channel ending at its own last message, the walk from a channel's first message visits exactly its messages, in file order |
| Partition.SealedForStep | src/score.cpp:43 | ending one more channel changes only the link of its last message |
| Partition.SealedForAll | src/score.cpp:171-179 | ending every channel met gives the intended links |
| Placement.WalkedDistinct | src/score.cpp:173-174 | streams placed on different channel numbers are different streams |
| Placement.OpenOn | src/score.cpp:173-174 | a channel number met for the first time gets a new stream on that message, or the load fails when the SoundFont does not load |
| Placement.AppendOn | src/score.cpp:175-176 | a channel number met before has the message appended to its stream, and the walk's state carries over to one more message |
| Placement.Place | src/score.cpp:171-177 | one step of the walk places message i, fails only on a new channel whose SoundFont does not load, and links message i to the following one |
| Placement.WalkedValid | src/score.cpp:171-179 | once every message is placed, the list is well linked and every stream is valid |
| Scoring.Partitioned | src/score.cpp:171-179 | the walk places every message, following the links from the first, and fails exactly when the SoundFont does not load |
| Scoring.Score.Load | src/score.cpp:166-180 | loading fails with a load error exactly when the MIDI list is empty or the SoundFont does not load; otherwise there is a stream for exactly the channel numbers in the list, each starting at its first message |
| Scoring.Score.GetChannel | src/score.cpp:187-189 | a channel number that occurs gives the score's own stream for it, which starts at the channel's first message; any other fails with not found |
| Scoring.Score.GetChannels | include/score.hpp:103-108 | the score's map itself, by value: a key for exactly each channel number that occurs, each the stream `GetChannel` gives, no two the same |
| Scoring.Score.Seal | src/score.cpp:42-45 | after loading, ending each stream at its own last message gives the intended links, where each channel's walk visits exactly its own messages |

## Left out

- MIDI parsing and SoundFont loading are foreign calls. The parsed messages are an
  input to `Score.Load`, and an empty list stands for a file that does not load.
  Whether the SoundFont loads is one boolean input shared by every channel: the
  source loads the file once per new channel, so the model cannot fail on a later
  channel's load after an earlier one succeeded. Either way the result is a load
  error and no score.
- The synthesizer is a foreign library. Its calls are recorded as a history, and
  rendering is a function parameter from that history to samples.
- Floating point is not modelled. The clock and sub-chunk durations are exact
  reals, with no `double` rounding.
- Velocity is recorded raw (0..127). The `/ 127` normalisation is not modelled.
- The move constructor and move assignment are not modelled, including renderer
  ownership and the fields the move constructor leaves uninitialised. The
  destructors, `isFile` and `close` are not modelled either.
- The copy into the caller's untyped buffer is modelled as a copy into an array of
  samples.
- `skip`'s `count < 0` branch can never run on an unsigned count, so it is not
  modelled.
- Reading.SuccessiveReads: covers completed reads only. After a read that throws,
  a retry of the same size repeats the failing sub-chunk's handled messages, as
  `Reading.RetryRepeats` shows. A shorter retry may instead stop before the
  unhandled message and complete.
- The streams are held in an unordered map. The key order in which the source's
  `std::map` is iterated is not modelled.
- src/main.cpp, src/eye.cpp and include/eye.hpp are not part of this model.

## Findings

| source | as written | input that shows it | evidently intended | confidence | as-written member | corrected member |
|---|---|---|---|---|---|---|
| src/score.cpp:42-45 | `push_event` relinks a stream's old tail, but nothing relinks a stream's last message, so it keeps the parser's link to the next message in the file, whatever its channel | a note on channel 0 followed by a note on channel 1: channel 0's walk from its only message reaches channel 1's note, which a read of channel 0 then applies to channel 0's synthesizer | each channel's walk ends at its own last message | not executed | Partition.LoadedChain | Scoring.Score.Seal |
