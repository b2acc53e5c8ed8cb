/**
 * The schedule of one `read` request on a channel.
 *
 * A request for `samples` samples is served in four sub-chunks of equal
 * duration. Sub-chunk i starts at time `time + i * delta`, applies the
 * messages timed before `time + (i + 1) * delta` and renders `samples / 4`
 * samples at position `(i * samples) / 4` of a zero-initialised buffer.
 * The functions here describe what each sub-chunk sees; the lemmas say what
 * the whole request amounts to.
 */
module Reading {
  import opened Types
  import opened Midi
  import opened Synthesis

  /** The number of sub-chunks a request is split into. */
  const SUB_CHUNKS: nat := 4

  /** Duration of one sub-chunk of a request for `samples` samples. */
  function Delta(samples: nat): (d: real)
    ensures d >= 0.0
    ensures 4.0 * d == Duration(samples)
  {
    Duration(samples) / 4.0
  }

  /** The clock after one sub-chunk of a request for `samples` samples that starts at `t`. */
  function Ahead(t: real, samples: nat): (r: real)
    ensures r >= t
  {
    t + Delta(samples)
  }

  /** A value-initialised sample buffer. */
  function Zeros(n: nat): (z: seq<Sample>)
    ensures |z| == n && forall p :: 0 <= p < n ==> z[p] == 0
  {
    seq(n, _ => 0)
  }

  /** `d` with the slice starting at `lo` replaced by `s`. */
  function Overwrite(d: seq<Sample>, lo: nat, s: seq<Sample>): (r: seq<Sample>)
    requires lo + |s| <= |d|
    ensures |r| == |d|
    ensures forall p :: 0 <= p < |d| ==> r[p] == if lo <= p < lo + |s| then s[p - lo] else d[p]
  {
    d[..lo] + s + d[lo + |s|..]
  }

  /**
   * Where sub-chunk i of a request for n samples starts writing: `(i * n) / 4`,
   * written one case per sub-chunk so that no proof about it needs the
   * solver to reason about a product of two unknowns; `LoIsProduct` proves
   * it equal to the product.
   */
  function SliceStart(n: nat, i: nat): nat
  {
    if i == 0 then 0
    else if i == 1 then n / 4
    else if i == 2 then (2 * n) / 4
    else if i == 3 then (3 * n) / 4
    else n
  }

  /**
   * What a read changes in a channel: the cursor, the clock, the reported
   * offset, the synthesizer history and the messages applied so far.
   */
  datatype StreamState = StreamState(current: int, time: real, offset: U64, synth: seq<SynthOp>, applied: seq<nat>)

  /**
   * One sub-chunk of a read of `count` bytes over the message list `a`,
   * taking the channel from `s` to `t`. The messages due before the
   * sub-chunk's end are applied in link order. If all of them are handled
   * (`ok`), the cursor moves past them, the whole `count` is added to the
   * offset, the clock advances by a quarter of the request's duration and a
   * quarter of the samples is rendered; otherwise only the handled ones
   * before the first unhandled message are applied and nothing else moves.
   */
  ghost predicate SubChunkStep(a: Arena, count: U64, s: StreamState, t: StreamState, ok: bool)
    requires a.Wf() && a.Ref(s.current)
  {
    var n := count / SAMPLE_SIZE;
    var bound := Ahead(s.time, n);
    var run := Run(a, s.current, bound);
    && (ok <==> AllHandled(a.events, run))
    && (ok ==> t == StreamState(Past(a, s.current, bound), bound, WrappingAdd(s.offset, count),
                                s.synth + Ops(a.events, run) + [Render(n / 4)], s.applied + run))
    && (!ok ==> t == s.(synth := s.synth + Ops(a.events, run), applied := s.applied + HandledPrefix(a.events, run)))
  }

  /** A read request: the arena it walks, the cursor and clock it starts from, its size and the synthesizer history so far. */
  datatype Request = Request(arena: Arena, from: int, time: real, samples: nat, history: seq<SynthOp>) {

    predicate Wf()
    {
      arena.Wf() && arena.Ref(from)
    }

    /** Samples each sub-chunk renders. */
    function Quarter(): nat
    {
      samples / 4
    }

    /** First sample sub-chunk i renders. */
    function Lo(i: nat): nat
    {
      SliceStart(samples, i)
    }

    /**
     * The channel clock when sub-chunk i starts: each sub-chunk advances it by
     * one sub-chunk duration, so it is i durations after the request's start
     * (i is at most 4, the end of the request). The cases spell out
     * `time + i * Delta(samples)` with constant factors, so that the clock
     * proofs stay linear for the solver.
     */
    function Start(i: nat): real
    {
      var d := Delta(samples);
      if i == 0 then time
      else if i == 1 then time + d
      else if i == 2 then time + 2.0 * d
      else if i == 3 then time + 3.0 * d
      else time + 4.0 * d
    }

    /** Messages timed before this bound are applied in sub-chunk i. */
    function Bound(i: nat): real
    {
      Ahead(Start(i), samples)
    }

    /** The cursor when sub-chunk i starts. */
    function CursorAt(i: nat): (c: int)
      requires Wf()
      ensures arena.Ref(c)
    {
      if i == 0 then from else Past(arena, from, Start(i))
    }

    /** The messages sub-chunk i applies, if all of them are handled. */
    function RunAt(i: nat): (r: seq<nat>)
      requires Wf()
      ensures Indices(arena.events, r)
    {
      Run(arena, CursorAt(i), Bound(i))
    }

    /** The messages applied before sub-chunk i starts. */
    function Drained(i: nat): (r: seq<nat>)
      requires Wf()
      ensures Indices(arena.events, r)
    {
      if i == 0 then [] else Run(arena, from, Start(i))
    }

    /** The synthesizer history when sub-chunk i starts. */
    function HistoryAt(i: nat): seq<SynthOp>
      requires Wf()
    {
      if i == 0 then history
      else HistoryAt(i - 1) + Ops(arena.events, RunAt(i - 1)) + [Render(Quarter())]
    }

    /** The first sub-chunk at or after i that meets a message it cannot dispatch, or 4 if none does. */
    function Failing(i: nat): (j: nat)
      requires Wf() && i <= SUB_CHUNKS
      ensures i <= j <= SUB_CHUNKS
      decreases SUB_CHUNKS - i
    {
      if i == SUB_CHUNKS then SUB_CHUNKS
      else if !AllHandled(arena.events, RunAt(i)) then i
      else Failing(i + 1)
    }

    /**
     * The messages applied by a request that stops at sub-chunk j: all those
     * of the sub-chunks before j, then, when j is a failing sub-chunk, the
     * handled ones that come before its unhandled message.
     */
    function AppliedBy(j: nat): (r: seq<nat>)
      requires Wf()
    {
      if j < SUB_CHUNKS then Drained(j) + HandledPrefix(arena.events, RunAt(j)) else Drained(j)
    }

    /** The synthesizer history of a request that stops at sub-chunk j, in the same sense. */
    function HistoryBy(j: nat): seq<SynthOp>
      requires Wf()
    {
      if j < SUB_CHUNKS then HistoryAt(j) + Ops(arena.events, RunAt(j)) else HistoryAt(j)
    }

    /** The samples sub-chunk i renders, after applying its messages. */
    function SliceAt(render: Renderer, i: nat): (s: seq<Sample>)
      requires Wf() && Renders(render)
      ensures |s| == Quarter()
    {
      render(HistoryAt(i) + Ops(arena.events, RunAt(i)), Quarter())
    }

    /** The sample buffer after the first m sub-chunks have rendered. */
    function Assembled(render: Renderer, m: nat): (d: seq<Sample>)
      requires Wf() && Renders(render) && m <= SUB_CHUNKS
      ensures |d| == samples
    {
      if m == 0 then Zeros(samples)
      else
        SliceFits(samples, m - 1);
        Overwrite(Assembled(render, m - 1), Lo(m - 1), SliceAt(render, m - 1))
    }

    /**
     * The channel's state `s` when sub-chunk i starts, for a channel that was
     * in state `s0` when the request began and a request of `count` bytes.
     */
    ghost predicate At(i: nat, s0: StreamState, count: U64, s: StreamState)
      requires Wf()
    {
      && s.current == CursorAt(i) && s.time == Start(i) && s.synth == HistoryAt(i)
      && s.applied == s0.applied + Drained(i) && s.offset == Advanced(s0.offset, count, i)
    }

    /**
     * The channel's state `s` when the request has stopped at sub-chunk j:
     * when j is 4 it has completed; otherwise sub-chunk j met a message it
     * cannot dispatch, after applying the handled ones before it.
     */
    ghost predicate StoppedAt(j: nat, s0: StreamState, count: U64, s: StreamState)
      requires Wf()
    {
      && s.current == CursorAt(j) && s.time == Start(j) && s.synth == HistoryBy(j)
      && s.applied == s0.applied + AppliedBy(j) && s.offset == Advanced(s0.offset, count, j)
    }

    /** A buffer position that some sub-chunk renders. */
    ghost predicate Covered(p: nat)
    {
      exists i :: 0 <= i < SUB_CHUNKS && Lo(i) <= p < Lo(i) + Quarter()
    }
  }

  /** The slice offsets are the source's `(i * n) / 4`. */
  lemma LoIsProduct(rq: Request, i: nat)
    requires i <= SUB_CHUNKS
    ensures rq.Lo(i) == (i * rq.samples) / 4
  {
  }

  /** Sub-chunk i's slice ends no later than sub-chunk i + 1's begins, and inside the buffer. */
  lemma SliceFits(n: nat, i: nat)
    requires i < SUB_CHUNKS
    ensures SliceStart(n, i) + n / 4 <= SliceStart(n, i + 1) <= n
  {
    var q, r := n / 4, n % 4;
    assert n == 4 * q + r;
    if i == 0 {
    } else if i == 1 {
      assert (2 * n) / 4 == 2 * q + (2 * r) / 4;
    } else if i == 2 {
      assert (2 * n) / 4 == 2 * q + (2 * r) / 4;
      assert (3 * n) / 4 == 3 * q + (3 * r) / 4;
    } else {
      assert (3 * n) / 4 == 3 * q + (3 * r) / 4;
    }
  }

  /** The clock only moves forward from one sub-chunk to the next. */
  lemma {:induction false} StartMonotone(rq: Request, i: nat, k: nat)
    requires i <= k
    ensures rq.Start(i) <= rq.Start(k)
    decreases k
  {
    if i < k {
      StartMonotone(rq, i, k - 1);
    }
  }

  /** After the four sub-chunks the clock has advanced by the request's whole duration. */
  lemma RequestDuration(rq: Request)
    ensures rq.Start(SUB_CHUNKS) == rq.time + Duration(rq.samples)
  {
  }

  /**
   * Going from one sub-chunk to the next: the cursor stops where sub-chunk i's
   * drain stops, and the messages applied so far grow by exactly sub-chunk i's run.
   */
  lemma Step(rq: Request, i: nat)
    requires rq.Wf() && i < SUB_CHUNKS
    ensures rq.Start(i + 1) == rq.Bound(i)
    ensures rq.CursorAt(i + 1) == Past(rq.arena, rq.CursorAt(i), rq.Bound(i))
    ensures rq.Drained(i + 1) == rq.Drained(i) + rq.RunAt(i)
  {
    if i > 0 {
      RunConcat(rq.arena, rq.from, rq.Start(i), rq.Bound(i));
    }
  }

  /**
   * Sub-chunk i seen from a channel that had applied `before` when the
   * request began: what it has applied after a successful sub-chunk, or after
   * stopping inside it.
   */
  lemma StepApplied(rq: Request, i: nat, before: seq<nat>)
    requires rq.Wf() && i < SUB_CHUNKS
    ensures (before + rq.Drained(i)) + rq.RunAt(i) == before + rq.Drained(i + 1)
    ensures (before + rq.Drained(i)) + HandledPrefix(rq.arena.events, rq.RunAt(i)) == before + rq.AppliedBy(i)
  {
    Step(rq, i);
    AppendAssoc(before, rq.Drained(i), rq.RunAt(i));
    AppendAssoc(before, rq.Drained(i), HandledPrefix(rq.arena.events, rq.RunAt(i)));
  }

  /**
   * A sub-chunk taken from the state the schedule predicts for sub-chunk i
   * applies exactly sub-chunk i's run: if all of it is handled, it reaches
   * the state predicted for sub-chunk i + 1, and otherwise it stops where
   * the schedule says a request failing at sub-chunk i stops.
   */
  lemma SubChunkAdvances(rq: Request, i: nat, s0: StreamState, count: U64, s: StreamState, t: StreamState, ok: bool)
    requires rq.Wf() && i < SUB_CHUNKS && rq.samples == count / SAMPLE_SIZE
    requires rq.At(i, s0, count, s)
    requires SubChunkStep(rq.arena, count, s, t, ok)
    ensures Run(rq.arena, s.current, Ahead(s.time, rq.samples)) == rq.RunAt(i)
    ensures ok <==> AllHandled(rq.arena.events, rq.RunAt(i))
    ensures ok ==> rq.At(i + 1, s0, count, t)
    ensures !ok ==> rq.StoppedAt(i, s0, count, t)
  {
    Step(rq, i);
    StepApplied(rq, i, s0.applied);
    if ok {
      AllHandledPrefix(rq.arena.events, rq.RunAt(i));
    }
  }

  /**
   * The failing sub-chunk is the first from i on whose messages are not all
   * handled: those of every sub-chunk before it are.
   */
  lemma {:induction false} FailingFirst(rq: Request, i: nat)
    requires rq.Wf() && i <= SUB_CHUNKS
    ensures forall k :: i <= k < rq.Failing(i) ==> AllHandled(rq.arena.events, rq.RunAt(k))
    ensures rq.Failing(i) < SUB_CHUNKS ==> !AllHandled(rq.arena.events, rq.RunAt(rq.Failing(i)))
    decreases SUB_CHUNKS - i
  {
    if i < SUB_CHUNKS && AllHandled(rq.arena.events, rq.RunAt(i)) {
      FailingFirst(rq, i + 1);
    }
  }

  /** Every message applied before the failing sub-chunk is a handled one. */
  lemma {:induction false} DrainedHandled(rq: Request, j: nat)
    requires rq.Wf() && j <= rq.Failing(0)
    ensures AllHandled(rq.arena.events, rq.Drained(j))
  {
    if j > 0 {
      FailingFirst(rq, 0);
      DrainedHandled(rq, j - 1);
      Step(rq, j - 1);
    }
  }

  /** The messages due before the end of the request split at sub-chunk j. */
  lemma {:induction false} RequestSplit(rq: Request, j: nat)
    requires rq.Wf() && j <= SUB_CHUNKS
    ensures Run(rq.arena, rq.from, rq.Start(4)) == rq.Drained(j) + Run(rq.arena, rq.CursorAt(j), rq.Start(4))
  {
    if j > 0 {
      StartMonotone(rq, j, 4);
      RunConcat(rq.arena, rq.from, rq.Start(j), rq.Start(4));
    }
  }

  /** A stretch holding an unhandled message stops the handled prefix inside it. */
  lemma HandledPrefixStops(ev: seq<Message>, xs: seq<nat>, ys: seq<nat>)
    requires Indices(ev, xs) && Indices(ev, ys) && !AllHandled(ev, xs)
    ensures Indices(ev, xs + ys)
    ensures HandledPrefix(ev, xs + ys) == HandledPrefix(ev, xs)
  {
    var p := HandledPrefix(ev, xs);
    HandledPrefixMaximal(ev, xs);
    assert |p| == |xs| ==> p == xs;
    assert |p| < |xs|;
    var rest := xs[|p| + 1..] + ys;
    assert xs + ys == p + ([xs[|p|]] + rest);
    HandledAppend(ev, p, [xs[|p|]] + rest);
  }

  /**
   * One message of a drain: the walk from `stop` passes it first. When it is
   * handled, it joins the handled stretch `done`; when it is not, the drain's
   * handled prefix and its calls end with `done`.
   */
  lemma DrainStep(a: Arena, stop: int, bound: real, done: seq<nat>, run: seq<nat>)
    requires a.Wf() && a.Ref(stop) && stop != -1 && (a.events[stop].time as real) < bound
    requires Indices(a.events, done) && AllHandled(a.events, done)
    requires run == done + Run(a, stop, bound)
    ensures Past(a, stop, bound) == Past(a, a.next[stop], bound)
    ensures Handled(a.events[stop]) ==>
      && Indices(a.events, done + [stop]) && AllHandled(a.events, done + [stop])
      && run == (done + [stop]) + Run(a, a.next[stop], bound)
      && Ops(a.events, done + [stop]) == Ops(a.events, done) + [Dispatch(a.events[stop]).value]
    ensures !Handled(a.events[stop]) ==>
      && Indices(a.events, run) && !AllHandled(a.events, run)
      && HandledPrefix(a.events, run) == done
      && Ops(a.events, run) == Ops(a.events, done)
  {
    var rest := Run(a, a.next[stop], bound);
    assert Run(a, stop, bound) == [stop] + rest;
    assert run == done + ([stop] + rest);
    if Handled(a.events[stop]) {
      DrainStepHandled(a.events, stop, done, rest);
    } else {
      DrainStepUnhandled(a.events, stop, done, rest);
    }
  }

  /** A handled message extends a handled stretch by its one call. */
  lemma DrainStepHandled(ev: seq<Message>, stop: nat, done: seq<nat>, rest: seq<nat>)
    requires stop < |ev| && Handled(ev[stop])
    requires Indices(ev, done) && AllHandled(ev, done) && Indices(ev, rest)
    ensures Indices(ev, done + [stop]) && AllHandled(ev, done + [stop])
    ensures done + ([stop] + rest) == (done + [stop]) + rest
    ensures Ops(ev, done + [stop]) == Ops(ev, done) + [Dispatch(ev[stop]).value]
  {
    HandledAppend(ev, done, [stop]);
    assert [stop][1..] == [];
    assert Ops(ev, [stop]) == [Dispatch(ev[stop]).value] + Ops(ev, []);
  }

  /** An unhandled message ends the handled prefix of a drain right after the handled stretch before it. */
  lemma DrainStepUnhandled(ev: seq<Message>, stop: nat, done: seq<nat>, rest: seq<nat>)
    requires stop < |ev| && !Handled(ev[stop])
    requires Indices(ev, done) && AllHandled(ev, done) && Indices(ev, rest)
    ensures Indices(ev, done + ([stop] + rest))
    ensures !AllHandled(ev, done + ([stop] + rest))
    ensures HandledPrefix(ev, done + ([stop] + rest)) == done
    ensures Ops(ev, done + ([stop] + rest)) == Ops(ev, done)
  {
    var tail := [stop] + rest;
    assert Indices(ev, tail);
    HandledAppend(ev, done, tail);
    assert HandledPrefix(ev, tail) == [] && Ops(ev, tail) == [];
    AllHandledPrefix(ev, done);
    assert (done + tail)[|done|] == stop;
    assert done + [] == done;
  }

  /** A drain that reaches the bound has handled its whole run. */
  lemma DrainStop(a: Arena, stop: int, bound: real, done: seq<nat>, run: seq<nat>)
    requires a.Wf() && a.Ref(stop) && (stop == -1 || (a.events[stop].time as real) >= bound)
    requires Indices(a.events, done) && AllHandled(a.events, done)
    requires run == done + Run(a, stop, bound)
    ensures Past(a, stop, bound) == stop
    ensures run == done && HandledPrefix(a.events, run) == done
  {
    PastAtStop(a, stop, bound);
    assert run == done;
    AllHandledPrefix(a.events, done);
  }

  /** A stretch is all handled exactly when both of its parts are. */
  lemma AllHandledSplit(ev: seq<Message>, xs: seq<nat>, ys: seq<nat>)
    requires Indices(ev, xs) && Indices(ev, ys)
    ensures Indices(ev, xs + ys)
    ensures AllHandled(ev, xs + ys) <==> AllHandled(ev, xs) && AllHandled(ev, ys)
  {
    var zs := xs + ys;
    assert forall k :: 0 <= k < |xs| ==> zs[k] == xs[k];
    assert forall k :: 0 <= k < |ys| ==> zs[|xs| + k] == ys[k];
  }

  /** A request whose sub-chunks all succeed applies every message due before its end. */
  lemma ReadAppliesAll(rq: Request)
    requires rq.Wf() && rq.Failing(0) == SUB_CHUNKS
    ensures var due := Run(rq.arena, rq.from, rq.Start(4));
            AllHandled(rq.arena.events, due) && rq.AppliedBy(4) == HandledPrefix(rq.arena.events, due)
  {
    var due := Run(rq.arena, rq.from, rq.Start(4));
    RequestSplit(rq, 4);
    DrainedHandled(rq, 4);
    PastAtStop(rq.arena, rq.CursorAt(4), rq.Start(4));
    assert due == rq.Drained(4) + [];
    AllHandledPrefix(rq.arena.events, due);
  }

  /**
   * A request that fails in sub-chunk j has applied the messages due before
   * its end up to, and not including, the first one it cannot dispatch.
   */
  lemma ReadStopsAtUnhandled(rq: Request)
    requires rq.Wf() && rq.Failing(0) < SUB_CHUNKS
    ensures var j := rq.Failing(0);
            var due := Run(rq.arena, rq.from, rq.Start(4));
            !AllHandled(rq.arena.events, due) && rq.AppliedBy(j) == HandledPrefix(rq.arena.events, due)
  {
    var ev := rq.arena.events;
    var j := rq.Failing(0);
    var due := Run(rq.arena, rq.from, rq.Start(4));
    RequestSplit(rq, j);
    DrainedHandled(rq, j);
    FailingFirst(rq, 0);
    Step(rq, j);
    StartMonotone(rq, j + 1, 4);
    RunConcat(rq.arena, rq.CursorAt(j), rq.Bound(j), rq.Start(4));
    var rest := Run(rq.arena, rq.CursorAt(j + 1), rq.Start(4));
    assert due == rq.Drained(j) + (rq.RunAt(j) + rest);
    HandledAppend(ev, rq.Drained(j), rq.RunAt(j) + rest);
    HandledPrefixStops(ev, rq.RunAt(j), rest);
    AllHandledSplit(ev, rq.RunAt(j), rest);
    AllHandledSplit(ev, rq.Drained(j), rq.RunAt(j) + rest);
  }

  /**
   * What a whole request applies: exactly the handled prefix of the messages
   * due before its end, `time + samples * 1000 / 44100`, in link order. The
   * request fails precisely when one of those messages is not handled.
   */
  lemma ReadAppliesDueEvents(rq: Request)
    requires rq.Wf()
    ensures var j := rq.Failing(0);
            var due := Run(rq.arena, rq.from, rq.Start(4));
            && (j == SUB_CHUNKS <==> AllHandled(rq.arena.events, due))
            && rq.AppliedBy(j) == HandledPrefix(rq.arena.events, due)
  {
    if rq.Failing(0) == SUB_CHUNKS {
      ReadAppliesAll(rq);
    } else {
      ReadStopsAtUnhandled(rq);
    }
  }

  /**
   * A completed read has added its byte count to the offset once per
   * sub-chunk, four times in all modulo 2^64, and has advanced the clock by
   * exactly the duration of the samples it rendered.
   */
  lemma ReadTotals(rq: Request, s0: StreamState, count: U64, s: StreamState)
    requires rq.Wf() && rq.time == s0.time && rq.StoppedAt(SUB_CHUNKS, s0, count, s)
    ensures s.offset == (s0.offset + 4 * count) % TWO64
    ensures s.time == s0.time + Duration(rq.samples)
  {
    AdvancedMod(s0.offset, count, 4);
    RequestDuration(rq);
  }

  /**
   * Two completed reads in a row, the second starting where the first left
   * the cursor and the clock, apply between them the messages due before
   * the second one's end, each once and in link order.
   */
  lemma SuccessiveReads(rq1: Request, rq2: Request)
    requires rq1.Wf() && rq1.Failing(0) == SUB_CHUNKS
    requires rq2.arena == rq1.arena && rq2.from == rq1.CursorAt(4) && rq2.time == rq1.Start(4)
    requires rq2.Wf() && rq2.Failing(0) == SUB_CHUNKS
    ensures rq1.AppliedBy(4) + rq2.AppliedBy(4) == Run(rq1.arena, rq1.from, rq2.Start(4))
  {
    var a := rq1.arena;
    ReadAppliesAll(rq1);
    ReadAppliesAll(rq2);
    AllHandledPrefix(a.events, Run(a, rq1.from, rq1.Start(4)));
    AllHandledPrefix(a.events, Run(a, rq2.from, rq2.Start(4)));
    StartMonotone(rq2, 0, 4);
    RunConcat(a, rq1.from, rq1.Start(4), rq2.Start(4));
  }

  /**
   * A read that throws leaves the cursor and the clock where its failing
   * sub-chunk began. A retry of the same size from there throws again in its
   * first sub-chunk, after applying once more exactly the messages the failing
   * sub-chunk had already applied.
   */
  lemma RetryRepeats(rq1: Request, rq2: Request)
    requires rq1.Wf() && rq1.Failing(0) < SUB_CHUNKS
    requires rq2.arena == rq1.arena && rq2.samples == rq1.samples
    requires rq2.from == rq1.CursorAt(rq1.Failing(0)) && rq2.time == rq1.Start(rq1.Failing(0))
    ensures rq2.Wf() && rq2.Failing(0) == 0
    ensures rq2.AppliedBy(0) == HandledPrefix(rq1.arena.events, rq1.RunAt(rq1.Failing(0)))
    ensures rq1.AppliedBy(rq1.Failing(0)) == rq1.Drained(rq1.Failing(0)) + rq2.AppliedBy(0)
  {
    FailingFirst(rq1, 0);
    assert rq2.RunAt(0) == rq1.RunAt(rq1.Failing(0));
  }

  /** The four slices lie inside the buffer, in order, without overlapping. */
  lemma SlicesDisjoint(rq: Request)
    ensures forall i :: 0 <= i < SUB_CHUNKS ==> rq.Lo(i) + rq.Quarter() <= rq.samples
    ensures forall i, j :: 0 <= i < j < SUB_CHUNKS ==> rq.Lo(i) + rq.Quarter() <= rq.Lo(j)
  {
    var n := rq.samples;
    SliceFits(n, 0);
    SliceFits(n, 1);
    SliceFits(n, 2);
    SliceFits(n, 3);
  }

  /** Inside the slice of a sub-chunk i that has rendered, the buffer after m sub-chunks holds that sub-chunk's samples. */
  lemma {:induction false} AssembledInside(rq: Request, render: Renderer, m: nat, i: nat, k: nat)
    requires rq.Wf() && Renders(render) && i < m <= SUB_CHUNKS && k < rq.Quarter()
    ensures rq.Lo(i) + k < rq.samples
    ensures rq.Assembled(render, m)[rq.Lo(i) + k] == rq.SliceAt(render, i)[k]
  {
    SlicesDisjoint(rq);
    var prev, lo, slice := rq.Assembled(render, m - 1), rq.Lo(m - 1), rq.SliceAt(render, m - 1);
    assert rq.Assembled(render, m) == Overwrite(prev, lo, slice);
    if i < m - 1 {
      AssembledInside(rq, render, m - 1, i, k);
      assert rq.Lo(i) + k < lo;
      assert rq.Assembled(render, m)[rq.Lo(i) + k] == prev[rq.Lo(i) + k];
    } else {
      assert rq.Assembled(render, m)[lo + k] == slice[k];
    }
  }

  /** A position no sub-chunk renders stays zero, however many sub-chunks have rendered. */
  lemma {:induction false} AssembledOutside(rq: Request, render: Renderer, m: nat, p: nat)
    requires rq.Wf() && Renders(render) && m <= SUB_CHUNKS && p < rq.samples && !rq.Covered(p)
    ensures rq.Assembled(render, m)[p] == 0
  {
    if m > 0 {
      AssembledOutside(rq, render, m - 1, p);
      var prev, lo, slice := rq.Assembled(render, m - 1), rq.Lo(m - 1), rq.SliceAt(render, m - 1);
      assert rq.Assembled(render, m) == Overwrite(prev, lo, slice);
      assert !(lo <= p < lo + rq.Quarter());
      assert rq.Assembled(render, m)[p] == prev[p];
    }
  }

  /**
   * The buffer a request assembles: each sub-chunk's slice, which lies inside
   * the buffer, holds what that sub-chunk rendered, and every position no
   * slice covers is still zero.
   */
  lemma AssembledContents(rq: Request, render: Renderer)
    requires rq.Wf() && Renders(render)
    ensures forall i :: 0 <= i < SUB_CHUNKS ==> rq.Lo(i) + rq.Quarter() <= rq.samples
    ensures forall i, k :: 0 <= i < SUB_CHUNKS && 0 <= k < rq.Quarter() ==>
      rq.Assembled(render, 4)[rq.Lo(i) + k] == rq.SliceAt(render, i)[k]
    ensures forall p :: 0 <= p < rq.samples && !rq.Covered(p) ==> rq.Assembled(render, 4)[p] == 0
  {
    SlicesDisjoint(rq);
    forall i, k | 0 <= i < SUB_CHUNKS && 0 <= k < rq.Quarter()
      ensures rq.Assembled(render, 4)[rq.Lo(i) + k] == rq.SliceAt(render, i)[k]
    {
      AssembledInside(rq, render, 4, i, k);
    }
    forall p | 0 <= p < rq.samples && !rq.Covered(p)
      ensures rq.Assembled(render, 4)[p] == 0
    {
      AssembledOutside(rq, render, 4, p);
    }
  }
}
