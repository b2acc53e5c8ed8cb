/**
 * Parsed MIDI messages and the linked list they form.
 *
 * The parser's list is modelled as an arena: the messages in file order, and
 * beside them one link per message, the index of the next message or -1 for
 * the null link. Every link points strictly forward, which is what makes the
 * cursor walks of a channel terminate.
 */
module Midi {
  import opened Types

  /** Payload of a parsed message, by message type. */
  datatype Body =
    | NoteOff(key: nat)
    | NoteOn(key: nat, velocity: nat)
    | ControlChange(control: nat, value: nat)
    | ProgramChange(program: nat)
    | PitchBend(bend: nat)
    | Other(code: nat)  // any other message type the parser yields

  /** A timed message: `time` in milliseconds, the MIDI channel it addresses, its payload. */
  datatype Message = Message(time: nat, channel: nat, body: Body)

  /** The link the parser gives message `i` of `n`: the following one, or null after the last. */
  function Successor(n: nat, i: nat): int
  {
    if i + 1 < n then i + 1 else -1
  }

  /** A snapshot of the message list: messages and their links. */
  datatype Arena = Arena(events: seq<Message>, next: seq<int>) {

    /** One link per message, each null or pointing to a later message. */
    predicate Wf()
    {
      && |next| == |events|
      && forall i :: 0 <= i < |next| ==> next[i] == -1 || i < next[i] < |next|
    }

    /** A message pointer: an index, or -1 for null. */
    predicate Ref(p: int)
    {
      -1 <= p < |events|
    }

    /** Termination measure of a walk along the links. */
    function Rank(p: int): nat
    {
      if p < 0 || p >= |events| then 0 else |events| - p
    }
  }

  /** The messages reached from `from` by following links until the null link. */
  function Chain(a: Arena, from: int): (c: seq<nat>)
    requires a.Wf() && a.Ref(from)
    ensures from == -1 ==> c == []
    ensures from != -1 ==> |c| > 0 && c[0] == from
    ensures forall k :: 0 <= k < |c| ==> from <= c[k] < |a.events|
    ensures forall j, k :: 0 <= j < k < |c| ==> c[j] < c[k]
    decreases a.Rank(from)
  {
    if from == -1 then [] else [from] + Chain(a, a.next[from])
  }

  /** The messages a cursor at `from` passes before reaching one timed at or after `bound`. */
  function Run(a: Arena, from: int, bound: real): (r: seq<nat>)
    requires a.Wf() && a.Ref(from)
    ensures forall k :: 0 <= k < |r| ==> r[k] < |a.events| && (a.events[r[k]].time as real) < bound
    decreases a.Rank(from)
  {
    if from == -1 || a.events[from].time as real >= bound then []
    else [from] + Run(a, a.next[from], bound)
  }

  /** Where a cursor at `from` stops when it passes every message timed before `bound`. */
  function Past(a: Arena, from: int, bound: real): (p: int)
    requires a.Wf() && a.Ref(from)
    ensures a.Ref(p)
    ensures p == -1 || (a.events[p].time as real) >= bound
    decreases a.Rank(from)
  {
    if from == -1 || a.events[from].time as real >= bound then from
    else Past(a, a.next[from], bound)
  }

  /**
   * The run is exactly the part of the chain before the stopping point: the
   * walk passes the maximal prefix of messages timed before the bound, and
   * nothing after the stop is lost or repeated.
   */
  lemma {:induction false} RunThenPast(a: Arena, from: int, bound: real)
    requires a.Wf() && a.Ref(from)
    ensures Chain(a, from) == Run(a, from, bound) + Chain(a, Past(a, from, bound))
    decreases a.Rank(from)
  {
    if from != -1 && a.events[from].time as real < bound {
      var n := a.next[from];
      assert Chain(a, from) == [from] + Chain(a, n);
      assert Run(a, from, bound) == [from] + Run(a, n, bound);
      assert Past(a, from, bound) == Past(a, n, bound);
      RunThenPast(a, n, bound);
      AppendAssoc([from], Run(a, n, bound), Chain(a, Past(a, n, bound)));
    }
  }

  /**
   * Draining up to `b1` and then up to a later `b2` passes the same messages,
   * in the same order, and stops at the same place as draining up to `b2` at once.
   */
  lemma {:induction false} RunConcat(a: Arena, from: int, b1: real, b2: real)
    requires a.Wf() && a.Ref(from) && b1 <= b2
    ensures Run(a, from, b1) + Run(a, Past(a, from, b1), b2) == Run(a, from, b2)
    ensures Past(a, Past(a, from, b1), b2) == Past(a, from, b2)
    decreases a.Rank(from)
  {
    if from != -1 && a.events[from].time as real < b1 {
      var n := a.next[from];
      RunConcat(a, n, b1, b2);
      AppendAssoc([from], Run(a, n, b1), Run(a, Past(a, n, b1), b2));
    }
  }

  /** A cursor that already stands at or after the bound does not move. */
  lemma PastAtStop(a: Arena, p: int, bound: real)
    requires a.Wf() && a.Ref(p)
    requires p == -1 || (a.events[p].time as real) >= bound
    ensures Past(a, p, bound) == p && Run(a, p, bound) == []
  {
  }
}
