/**
 * The synthesizer a channel drives, seen from outside: the operations it is
 * sent, and the dispatch from a MIDI message to one of them.
 *
 * The synthesizer's internal voice state is not modelled; it is stood for by
 * the history of operations it has received, and rendering is an opaque
 * function of that history.
 */
module Synthesis {
  import opened Types
  import opened Midi

  /** The conventional MIDI percussion channel. */
  const PERCUSSION: nat := 9

  /** One call into the synthesizer. */
  datatype SynthOp =
    | SetOutput(rate: nat)                               // mono output at `rate` Hz
    | SetPreset(channel: nat, program: nat, drums: bool) // program change
    | VoiceOn(channel: nat, key: nat, velocity: nat)     // note on, raw 0..127 velocity
    | VoiceOff(channel: nat, key: nat)                   // note off
    | SetPitchWheel(channel: nat, value: nat)            // pitch bend
    | MidiControl(channel: nat, control: nat, value: nat)// control change
    | Render(samples: nat)                               // rendering advances the voices

  /** Rendering: given the operations received so far, the next `k` samples. */
  type Renderer = (seq<SynthOp>, nat) -> seq<Sample>

  /** A renderer always writes exactly the number of samples asked for. */
  ghost predicate Renders(render: Renderer)
  {
    forall h: seq<SynthOp>, k: nat :: |render(h, k)| == k
  }

  /** The message types the reader knows how to apply. */
  predicate Handled(m: Message)
  {
    !m.body.Other?
  }

  /** The channel an operation addresses, if it addresses one. */
  function Target(op: SynthOp): Option<nat>
  {
    match op
    case SetPreset(c, _, _) => Some(c)
    case VoiceOn(c, _, _) => Some(c)
    case VoiceOff(c, _) => Some(c)
    case SetPitchWheel(c, _) => Some(c)
    case MidiControl(c, _, _) => Some(c)
    case _ => None
  }

  /**
   * The synthesizer call for one message, or None for a message type the
   * reader does not handle (the reader then fails).
   */
  function Dispatch(m: Message): (op: Option<SynthOp>)
    ensures op.None? <==> !Handled(m)
    ensures op.Some? ==> Target(op.value) == Some(m.channel)
    ensures op.Some? && op.value.SetPreset? ==> (op.value.drums <==> m.channel == PERCUSSION)
    ensures op.Some? && op.value.SetPreset? <==> m.body.ProgramChange?
  {
    match m.body
    case ProgramChange(p) => Some(SetPreset(m.channel, p, m.channel == PERCUSSION))
    case NoteOn(k, v) => Some(VoiceOn(m.channel, k, v))
    case NoteOff(k) => Some(VoiceOff(m.channel, k))
    case PitchBend(b) => Some(SetPitchWheel(m.channel, b))
    case ControlChange(c, v) => Some(MidiControl(m.channel, c, v))
    case Other(_) => None
  }

  /** Every index in `idxs` names a message of `ev`. */
  predicate Indices(ev: seq<Message>, idxs: seq<nat>)
  {
    forall k :: 0 <= k < |idxs| ==> idxs[k] < |ev|
  }

  predicate AllHandled(ev: seq<Message>, idxs: seq<nat>)
    requires Indices(ev, idxs)
  {
    forall k :: 0 <= k < |idxs| ==> Handled(ev[idxs[k]])
  }

  /** The longest prefix of `idxs` whose messages are all handled. */
  function HandledPrefix(ev: seq<Message>, idxs: seq<nat>): (p: seq<nat>)
    requires Indices(ev, idxs)
  {
    if idxs == [] || !Handled(ev[idxs[0]]) then []
    else [idxs[0]] + HandledPrefix(ev, idxs[1..])
  }

  /** The handled prefix is a prefix, all of it is handled, and it stops only at an unhandled message. */
  lemma {:induction false} HandledPrefixMaximal(ev: seq<Message>, idxs: seq<nat>)
    requires Indices(ev, idxs)
    ensures var p := HandledPrefix(ev, idxs);
      && p <= idxs
      && AllHandled(ev, p)
      && (|p| < |idxs| ==> !Handled(ev[idxs[|p|]]))
  {
    if idxs != [] && Handled(ev[idxs[0]]) {
      HandledPrefixMaximal(ev, idxs[1..]);
    }
  }

  /** The synthesizer calls for the handled prefix of `idxs`, in order. */
  function Ops(ev: seq<Message>, idxs: seq<nat>): (ops: seq<SynthOp>)
    requires Indices(ev, idxs)
  {
    if idxs == [] || !Handled(ev[idxs[0]]) then []
    else [Dispatch(ev[idxs[0]]).value] + Ops(ev, idxs[1..])
  }

  /** There is one call per message of the handled prefix: the dispatch of that message. */
  lemma {:induction false} OpsDispatch(ev: seq<Message>, idxs: seq<nat>)
    requires Indices(ev, idxs)
    ensures |Ops(ev, idxs)| == |HandledPrefix(ev, idxs)| <= |idxs|
    ensures forall k :: 0 <= k < |Ops(ev, idxs)| ==> Dispatch(ev[idxs[k]]) == Some(Ops(ev, idxs)[k])
  {
    if idxs != [] && Handled(ev[idxs[0]]) {
      OpsDispatch(ev, idxs[1..]);
      var ops := Ops(ev, idxs);
      assert ops == [Dispatch(ev[idxs[0]]).value] + Ops(ev, idxs[1..]);
      forall k | 0 <= k < |ops|
        ensures Dispatch(ev[idxs[k]]) == Some(ops[k])
      {
        if k > 0 {
          assert idxs[k] == idxs[1..][k - 1];
        }
      }
    }
  }

  /** After a fully handled stretch, the prefix and the calls continue with what follows. */
  lemma {:induction false} HandledAppend(ev: seq<Message>, xs: seq<nat>, ys: seq<nat>)
    requires Indices(ev, xs) && Indices(ev, ys) && AllHandled(ev, xs)
    ensures Indices(ev, xs + ys)
    ensures HandledPrefix(ev, xs + ys) == xs + HandledPrefix(ev, ys)
    ensures Ops(ev, xs + ys) == Ops(ev, xs) + Ops(ev, ys)
  {
    if xs != [] {
      var zs := xs + ys;
      assert zs[0] == xs[0] && zs[1..] == xs[1..] + ys;
      assert Handled(ev[zs[0]]);
      HandledAppend(ev, xs[1..], ys);
      assert HandledPrefix(ev, zs) == [xs[0]] + HandledPrefix(ev, xs[1..] + ys);
      assert xs == [xs[0]] + xs[1..];
    } else {
      assert xs + ys == ys;
    }
  }

  /** A fully handled stretch is its own handled prefix. */
  lemma AllHandledPrefix(ev: seq<Message>, xs: seq<nat>)
    requires Indices(ev, xs) && AllHandled(ev, xs)
    ensures HandledPrefix(ev, xs) == xs
  {
    HandledAppend(ev, xs, []);
    assert xs + [] == xs;
  }

  /** A program-change call carries the drum-kit flag exactly for the percussion channel. */
  ghost predicate DrumFlagsFollowChannel(h: seq<SynthOp>)
  {
    forall op | op in h && op.SetPreset? :: op.drums <==> op.channel == PERCUSSION
  }

  /** Dispatching messages never breaks the drum-kit rule of a history. */
  lemma {:induction false} OpsKeepDrumFlags(h: seq<SynthOp>, ev: seq<Message>, idxs: seq<nat>)
    requires Indices(ev, idxs) && DrumFlagsFollowChannel(h)
    ensures DrumFlagsFollowChannel(h + Ops(ev, idxs))
  {
    var ops := Ops(ev, idxs);
    OpsDispatch(ev, idxs);
    forall op | op in h + ops && op.SetPreset?
      ensures op.drums <==> op.channel == PERCUSSION
    {
      if op !in h {
        var k :| 0 <= k < |ops| && ops[k] == op;
        assert Dispatch(ev[idxs[k]]) == Some(op);
      }
    }
  }

  /**
   * The history of a channel's synthesizer: it was first set to mono output
   * at the fixed rate, and every program change since follows the drum-kit rule.
   */
  ghost predicate Configured(h: seq<SynthOp>)
  {
    |h| > 0 && h[0] == SetOutput(AUDIO_FREQ) && DrumFlagsFollowChannel(h)
  }

  /** Dispatching messages keeps a history configured. */
  lemma OpsKeepConfigured(h: seq<SynthOp>, ev: seq<Message>, idxs: seq<nat>)
    requires Indices(ev, idxs) && Configured(h)
    ensures Configured(h + Ops(ev, idxs))
  {
    OpsKeepDrumFlags(h, ev, idxs);
  }
}
