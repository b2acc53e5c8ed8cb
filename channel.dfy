/**
 * One MIDI channel as a seekable byte stream of synthesized 16-bit mono PCM.
 *
 * A channel keeps a cursor into the shared message list (`start`, `current`,
 * `end`, each an index or -1 for null), the byte offset it reports and the
 * millisecond clock that goes with it, and the synthesizer it drives.
 */
module Streaming {
  import opened Types
  import opened Midi
  import opened Synthesis
  import opened Reading

  /**
   * The parsed message list: the messages in file order and one mutable link
   * per message. It is shared by every channel of a score.
   */
  class Timeline {
    const events: seq<Message>
    const next: array<int>

    /** The list as the parser hands it over: each message linked to the following one. */
    constructor (messages: seq<Message>)
      ensures events == messages && fresh(next)
      ensures next.Length == |messages|
      ensures forall i :: 0 <= i < |messages| ==> next[i] == Successor(|messages|, i)
    {
      events := messages;
      next := new int[|messages|](i => Successor(|messages|, i));
    }

    ghost function Snapshot(): Arena
      reads next
    {
      Arena(events, next[..])
    }

    ghost predicate Wf()
      reads next
    {
      Snapshot().Wf()
    }
  }

  /** Copies the rendered samples to the front of the caller's buffer, leaving the rest alone. */
  method CopyOut(buf: array<Sample>, d: seq<Sample>)
    requires |d| <= buf.Length
    modifies buf
    ensures buf[..|d|] == d && buf[|d|..] == old(buf[|d|..])
  {
    forall k | 0 <= k < |d| {
      buf[k] := d[k];
    }
  }

  class Channel {
    const timeline: Timeline
    var start: int
    var current: int
    var end: int
    var offset: U64
    var time: real
    /** Everything the channel's synthesizer has been told, in order; stands for its voice state. */
    var synth: seq<SynthOp>
    /** The messages dispatched to the synthesizer so far, in order. */
    ghost var applied: seq<nat>

    ghost predicate Valid()
      reads this, timeline.next
    {
      && timeline.Wf()
      && 0 <= start < |timeline.events|
      && 0 <= end < |timeline.events|
      && -1 <= current < |timeline.events|
      && Configured(synth)
    }

    /** The messages still ahead of the cursor, following the links. */
    ghost function Remaining(): seq<nat>
      reads this, timeline.next
      requires Valid()
    {
      Chain(timeline.Snapshot(), current)
    }

    /** A fresh stream on message `m`, its synthesizer set to mono output at the fixed rate. */
    constructor (timeline: Timeline, m: nat)
      requires timeline.Wf() && m < |timeline.events|
      ensures Valid() && this.timeline == timeline
      ensures start == m && current == m && end == m
      ensures offset == 0 && time == 0.0
      ensures synth == [SetOutput(AUDIO_FREQ)] && applied == []
    {
      this.timeline := timeline;
      start, current, end := m, m, m;
      offset, time := 0, 0.0;
      synth := [SetOutput(AUDIO_FREQ)];
      applied := [];
    }

    /** Opening a stream fails when its SoundFont cannot be loaded. */
    static method Open(timeline: Timeline, m: nat, bankLoads: bool) returns (r: Result<Channel>)
      requires timeline.Wf() && m < |timeline.events|
      ensures r.Ok? <==> bankLoads
      ensures r.Err? ==> r.error == LoadError
      ensures r.Ok? ==> fresh(r.value) && r.value.Valid() && r.value.timeline == timeline
      ensures r.Ok? ==> r.value.start == m && r.value.current == m && r.value.end == m
      ensures r.Ok? ==> r.value.offset == 0 && r.value.time == 0.0
      ensures r.Ok? ==> r.value.synth == [SetOutput(AUDIO_FREQ)] && r.value.applied == []
    {
      if !bankLoads {
        return Err(LoadError);
      }
      var c := new Channel(timeline, m);
      return Ok(c);
    }

    /** Appends message `m` to the channel: the old tail is linked to it and it becomes the tail. */
    method PushEvent(m: nat)
      requires Valid() && end < m < |timeline.events|
      modifies this`end, timeline.next
      ensures Valid()
      ensures end == m
      ensures timeline.next[..] == old(timeline.next[..])[old(end) := m]
    {
      timeline.next[end] := m;
      end := m;
    }

    /** The cursor, left where it is. */
    function PeekEvent(): (m: int)
      reads this, timeline.next
      requires Valid()
      ensures m == -1 <==> Remaining() == []
      ensures m != -1 ==> Remaining()[0] == m
    {
      current
    }

    /** Takes the message at the cursor and moves the cursor along its link; at the end, stays at null. */
    method PopEvent() returns (m: int)
      requires Valid()
      modifies this`current
      ensures Valid()
      ensures m == old(current)
      ensures m != -1 ==> current == timeline.next[m]
      ensures old(Remaining()) == (if m == -1 then [] else [m]) + Remaining()
    {
      m := current;
      if current != -1 {
        current := timeline.next[current];
      }
    }

    /** The byte offset from the beginning, as an unsigned 64-bit value. */
    function Tell(): (r: U64)
      reads this, timeline.next
      requires Valid()
      ensures r == offset
    {
      offset
    }

    /** The stream has reached the end when no message is left ahead of the cursor. */
    function Eof(): (r: bool)
      reads this, timeline.next
      requires Valid()
      ensures r <==> Remaining() == []
    {
      current == -1
    }

    /** Streams cannot be copied. */
    method Clone(copyData: bool) returns (r: Result<Channel>)
      ensures r == Err(UnsupportedOperation)
    {
      return Err(UnsupportedOperation);
    }

    /** Moves the cursor past every message timed before `t`, without applying any. */
    method AdvanceTo(t: real)
      requires Valid()
      modifies this`current
      ensures Valid()
      ensures current == Past(timeline.Snapshot(), old(current), t)
      ensures old(Remaining()) == Run(timeline.Snapshot(), old(current), t) + Remaining()
    {
      ghost var a := timeline.Snapshot();
      RunThenPast(a, current, t);
      while current != -1 && (timeline.events[current].time as real) < t
        invariant Valid()
        invariant Past(a, current, t) == Past(a, old(current), t)
        decreases a.Rank(current)
      {
        current := timeline.next[current];
      }
    }

    /**
     * Skips `count` bytes: the offset wraps modulo 2^64, the clock is
     * recomputed from it, and the cursor only ever moves forward.
     */
    method Skip(count: U64)
      requires Valid()
      modifies this`offset, this`time, this`current
      ensures Valid()
      ensures offset == WrappingAdd(old(offset), count)
      ensures time == ByteTime(offset)
      ensures current == Past(timeline.Snapshot(), old(current), time)
      ensures old(Remaining()) == Run(timeline.Snapshot(), old(current), time) + Remaining()
    {
      offset := WrappingAdd(offset, count);
      time := ByteTime(offset);
      AdvanceTo(time);
    }

    /**
     * Repositions to byte `pos`. Only a forward move on a stream with messages
     * left moves the clock and the cursor; it then runs one discarded render
     * of the priming size.
     */
    method Seek(pos: U64)
      requires Valid()
      modifies this`offset, this`time, this`current, this`synth
      ensures Valid()
      ensures offset == pos
      ensures var t := ByteTime(pos);
        if old(current) == -1 || t < old(time) then
          time == old(time) && current == old(current) && synth == old(synth)
        else
          && time == t
          && current == Past(timeline.Snapshot(), old(current), t)
          && synth == old(synth) + [Render(AUDIO_SIZE)]
    {
      ghost var a := timeline.Snapshot();
      offset := pos;
      var t := ByteTime(pos);
      if current == -1 || t < time {
        return;
      }
      time := t;
      AdvanceTo(t);
      ghost var here := current;
      Prime();
      assert timeline.Snapshot() == a && current == here;
    }

    /** The discarded render of the priming size a forward seek runs. */
    method Prime()
      requires Valid()
      modifies this`synth
      ensures Valid() && synth == old(synth) + [Render(AUDIO_SIZE)]
    {
      synth := synth + [Render(AUDIO_SIZE)];
    }

    /** Records a stretch of dispatched messages: `h` is the synthesizer's new history. */
    method Applied(h: seq<SynthOp>, ghost done: seq<nat>)
      requires Valid() && Configured(h)
      modifies this`synth, this`applied
      ensures Valid() && synth == h && applied == old(applied) + done
    {
      synth, applied := h, applied + done;
    }

    /**
     * Walks the messages from the cursor that are timed before `bound`,
     * dispatching each onto a copy `h` of the synthesizer's history, up to the
     * first one that cannot be dispatched. Nothing about the stream changes.
     */
    method Walk(bound: real) returns (stop: int, ok: bool, h: seq<SynthOp>, ghost done: seq<nat>)
      requires Valid()
      ensures var run := Run(timeline.Snapshot(), current, bound);
        && (ok <==> AllHandled(timeline.events, run))
        && h == synth + Ops(timeline.events, run)
        && done == HandledPrefix(timeline.events, run)
        && (ok ==> stop == Past(timeline.Snapshot(), current, bound))
    {
      ghost var a := timeline.Snapshot();
      ghost var run := Run(a, current, bound);
      done := [];
      h := synth;
      stop := current;
      while stop != -1 && (timeline.events[stop].time as real) < bound
        invariant a.Ref(stop) && Indices(a.events, done) && AllHandled(a.events, done)
        invariant run == done + Run(a, stop, bound)
        invariant Past(a, current, bound) == Past(a, stop, bound)
        invariant h == synth + Ops(a.events, done)
        decreases a.Rank(stop)
      {
        DrainStep(a, stop, bound, done, run);
        var op := Dispatch(timeline.events[stop]);
        if op.None? {
          return stop, false, h, done;
        }
        h := h + [op.value];
        done := done + [stop];
        stop := timeline.next[stop];
      }
      DrainStop(a, stop, bound, done, run);
      ok := true;
    }

    /**
     * Applies to the synthesizer, in link order, the messages from the cursor
     * that are timed before `bound`, and returns where that walk stops. It
     * fails at the first message it cannot dispatch. The cursor itself is not
     * moved.
     */
    method Drain(bound: real) returns (stop: int, ok: bool)
      requires Valid()
      modifies this`synth, this`applied
      ensures Valid()
      ensures var run := Run(timeline.Snapshot(), current, bound);
        && (ok <==> AllHandled(timeline.events, run))
        && synth == old(synth) + Ops(timeline.events, run)
        && applied == old(applied) + HandledPrefix(timeline.events, run)
        && (ok ==> stop == Past(timeline.Snapshot(), current, bound))
    {
      var h;
      ghost var done;
      stop, ok, h, done := Walk(bound);
      OpsKeepConfigured(synth, timeline.events, Run(timeline.Snapshot(), current, bound));
      Applied(h, done);
    }

    /**
     * Renders `q` samples from the synthesizer into the sample buffer `d`
     * at position `lo`; the synthesizer records the render.
     */
    method RenderInto(d: seq<Sample>, lo: nat, q: nat, render: Renderer) returns (d': seq<Sample>)
      requires Valid() && Renders(render) && lo + q <= |d|
      modifies this`synth
      ensures Valid()
      ensures d' == Overwrite(d, lo, render(old(synth), q))
      ensures synth == old(synth) + [Render(q)]
    {
      d' := Overwrite(d, lo, render(synth, q));
      synth := synth + [Render(q)];
    }

    /** The part of the channel a read changes. */
    ghost function State(): StreamState
      reads this
    {
      StreamState(current, time, offset, synth, applied)
    }

    /**
     * Sub-chunk i of a read of `count` bytes writing into the sample buffer
     * `d`: one `SubChunkStep`, and when it succeeds, the quarter of the
     * samples it renders written into the sub-chunk's slice of `d`.
     */
    method SubChunk(i: nat, d: seq<Sample>, count: U64, render: Renderer) returns (ok: bool, d': seq<Sample>)
      requires Valid() && Renders(render) && i < SUB_CHUNKS && count / SAMPLE_SIZE == |d|
      modifies this`current, this`offset, this`time, this`synth, this`applied
      ensures Valid()
      ensures SubChunkStep(timeline.Snapshot(), count, old(State()), State(), ok)
      ensures !ok ==> d' == d
      ensures ok ==> var n := count / SAMPLE_SIZE;
                     var run := Run(timeline.Snapshot(), old(current), Ahead(old(time), n));
                     && SliceStart(n, i) + n / 4 <= |d|
                     && d' == Overwrite(d, SliceStart(n, i), render(old(synth) + Ops(timeline.events, run), n / 4))
    {
      var n := count / SAMPLE_SIZE;
      var bound := Ahead(time, n);
      var stop;
      d' := d;
      stop, ok := Drain(bound);
      if !ok {
        return;
      }
      AllHandledPrefix(timeline.events, Run(timeline.Snapshot(), current, bound));
      current, offset, time := stop, WrappingAdd(offset, count), bound;
      SliceFits(n, i);
      d' := RenderInto(d, SliceStart(n, i), n / 4, render);
    }

    /**
     * The four sub-chunks of request `rq`, a read of `count` bytes filling
     * the zeroed sample buffer `d`. It stops at the first sub-chunk that meets
     * a message it cannot dispatch and returns that sub-chunk's number, or 4.
     */
    method SubChunks(ghost rq: Request, d: seq<Sample>, count: U64, render: Renderer) returns (j: nat, d': seq<Sample>)
      requires Valid() && Renders(render)
      requires rq.Wf() && rq.arena == timeline.Snapshot() && rq.samples == count / SAMPLE_SIZE
      requires current == rq.from && time == rq.time && synth == rq.history && d == Zeros(rq.samples)
      modifies this`current, this`offset, this`time, this`synth, this`applied
      ensures Valid()
      ensures j == rq.Failing(0) && rq.StoppedAt(j, old(State()), count, State())
      ensures j == SUB_CHUNKS ==> d' == rq.Assembled(render, 4)
    {
      ghost var s0 := State();
      assert s0.applied == s0.applied + [];
      j, d' := 0, d;
      while j < SUB_CHUNKS
        invariant j <= SUB_CHUNKS && Valid() && rq.arena == timeline.Snapshot()
        invariant rq.At(j, s0, count, State())
        invariant rq.Failing(0) == rq.Failing(j)
        invariant d' == rq.Assembled(render, j)
      {
        ghost var s := State();
        var ok;
        ok, d' := SubChunk(j, d', count, render);
        SubChunkAdvances(rq, j, s0, count, s, State(), ok);
        if !ok {
          return;
        }
        j := j + 1;
      }
    }

    /**
     * Reads `count` bytes into `buf` as `count / 2` samples, in four
     * sub-chunks. Each sub-chunk applies the messages due before its end,
     * adds the whole `count` to the offset, advances the clock by a quarter
     * of the request's duration and renders a quarter of the samples. A
     * message of a type the reader does not handle aborts the read.
     */
    method Read(buf: array<Sample>, count: U64, render: Renderer) returns (r: Result<nat>)
      requires Valid() && Renders(render) && count / SAMPLE_SIZE <= buf.Length
      modifies this`current, this`offset, this`time, this`synth, this`applied, buf
      ensures Valid()
      ensures var rq := Request(timeline.Snapshot(), old(current), old(time), count / SAMPLE_SIZE, old(synth));
              var j := rq.Failing(0);
              && rq.StoppedAt(j, old(State()), count, State())
              && (r.Ok? <==> j == SUB_CHUNKS)
              && (r.Err? ==> r.error == UnreachableEventKind && buf[..] == old(buf[..]))
              && (r.Ok? ==>
                   && r.value == rq.samples * SAMPLE_SIZE
                   && buf[..rq.samples] == rq.Assembled(render, 4)
                   && buf[rq.samples..] == old(buf[rq.samples..]))
    {
      var n := count / SAMPLE_SIZE;
      var d := Zeros(n);
      ghost var rq := Request(timeline.Snapshot(), current, time, n, synth);
      var j;
      j, d := SubChunks(rq, d, count, render);
      if j < SUB_CHUNKS {
        return Err(UnreachableEventKind);
      }
      CopyOut(buf, d);
      return Ok(n * SAMPLE_SIZE);
    }
  }
}
