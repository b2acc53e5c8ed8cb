/**
 * How a score splits the message list into channels. The score walks the
 * list once; the first message on a channel number opens a stream on it, and
 * every later one is appended by relinking the channel's previous tail to it.
 * This module describes, as values, the links that walk leaves behind and
 * what following them from a channel's first message visits.
 */
module Partition {
  import opened Types
  import opened Midi

  /** The first message on channel c with an index in [j, i), or -1 if there is none. */
  function NextOn(ev: seq<Message>, c: nat, j: nat, i: nat): (k: int)
    requires i <= |ev|
    ensures k == -1 || (j <= k < i && ev[k].channel == c)
    decreases i - j
  {
    if j >= i then -1
    else if ev[j].channel == c then j
    else NextOn(ev, c, j + 1, i)
  }

  /** The last message on channel c among the first i, or -1 if there is none. */
  function LastOn(ev: seq<Message>, c: nat, i: nat): (k: int)
    requires i <= |ev|
    ensures k == -1 || (0 <= k < i && ev[k].channel == c)
  {
    if i == 0 then -1
    else if ev[i - 1].channel == c then i - 1
    else LastOn(ev, c, i - 1)
  }

  /** The channel numbers of the first i messages. */
  function Seen(ev: seq<Message>, i: nat): set<nat>
    requires i <= |ev|
  {
    if i == 0 then {} else Seen(ev, i - 1) + {ev[i - 1].channel}
  }

  /** The indices in [j, i) of the messages on channel c, in file order. */
  function Members(ev: seq<Message>, c: nat, j: nat, i: nat): seq<nat>
    requires i <= |ev|
    decreases i - j
  {
    if j >= i then []
    else (if ev[j].channel == c then [j] else []) + Members(ev, c, j + 1, i)
  }

  /** The links as the parser hands the list over: each message to the following one, the last to null. */
  function Initial(n: nat): (r: seq<int>)
    ensures |r| == n
  {
    seq(n, k requires 0 <= k < n => Successor(n, k))
  }

  /**
   * The links once the partitioning walk has placed the first i messages:
   * placing message i-1 relinks the previous tail of its channel, if the
   * channel already has one, to it.
   */
  function Links(ev: seq<Message>, i: nat): (r: seq<int>)
    requires i <= |ev|
    ensures |r| == |ev|
  {
    if i == 0 then Initial(|ev|)
    else
      var t := LastOn(ev, ev[i - 1].channel, i - 1);
      if t == -1 then Links(ev, i - 1) else Links(ev, i - 1)[t := i - 1]
  }

  /** The links as intended: every message to the next one on its own channel, or to null. */
  function Sealed(ev: seq<Message>): (r: seq<int>)
    ensures |r| == |ev|
  {
    seq(|ev|, k requires 0 <= k < |ev| => NextOn(ev, ev[k].channel, k + 1, |ev|))
  }

  /** Nothing on channel c lies between j and the message `NextOn` finds. */
  lemma {:induction false} NextOnFirst(ev: seq<Message>, c: nat, j: nat, i: nat)
    requires i <= |ev|
    ensures var k := NextOn(ev, c, j, i);
      forall m :: j <= m < i && (k == -1 || m < k) ==> ev[m].channel != c
    decreases i - j
  {
    if j < i && ev[j].channel != c {
      NextOnFirst(ev, c, j + 1, i);
    }
  }

  /** Looking one message further finds the same message, or that one if it is the first on c. */
  lemma {:induction false} NextOnGrow(ev: seq<Message>, c: nat, j: nat, i: nat)
    requires i < |ev|
    ensures NextOn(ev, c, j, i + 1) ==
      if NextOn(ev, c, j, i) != -1 then NextOn(ev, c, j, i)
      else if j <= i && ev[i].channel == c then i
      else -1
    decreases i - j
  {
    if j < i && ev[j].channel != c {
      NextOnGrow(ev, c, j + 1, i);
    }
  }

  /** A message is the last on its channel exactly when no message on that channel follows it. */
  lemma {:induction false} LastOnNext(ev: seq<Message>, c: nat, k: nat, i: nat)
    requires k < i <= |ev| && ev[k].channel == c
    ensures LastOn(ev, c, i) == k <==> NextOn(ev, c, k + 1, i) == -1
  {
    if i - 1 > k {
      LastOnNext(ev, c, k, i - 1);
      NextOnGrow(ev, c, k + 1, i - 1);
    } else {
      assert NextOn(ev, c, k + 1, i) == -1;
    }
  }

  /** A channel has been seen exactly when it has a first and a last message. */
  lemma {:induction false} SeenFirstLast(ev: seq<Message>, c: nat, i: nat)
    requires i <= |ev|
    ensures c in Seen(ev, i) <==> NextOn(ev, c, 0, i) != -1
    ensures c in Seen(ev, i) <==> LastOn(ev, c, i) != -1
  {
    if i > 0 {
      SeenFirstLast(ev, c, i - 1);
      NextOnGrow(ev, c, 0, i - 1);
    }
  }

  /** The channels seen are exactly the channel numbers that occur among the first i messages. */
  lemma {:induction false} SeenExactly(ev: seq<Message>, i: nat)
    requires i <= |ev|
    ensures forall c :: c in Seen(ev, i) <==> exists k :: 0 <= k < i && ev[k].channel == c
  {
    if i > 0 {
      SeenExactly(ev, i - 1);
      assert ev[i - 1].channel in Seen(ev, i);
    }
  }

  /**
   * The link of message k after the first i messages are placed: to the next
   * message on its channel among them, if k is placed and has one; otherwise
   * still the parser's link to the following message.
   */
  lemma {:induction false} LinksAt(ev: seq<Message>, i: nat, k: nat)
    requires i <= |ev| && k < |ev|
    ensures var nx := NextOn(ev, ev[k].channel, k + 1, i);
      Links(ev, i)[k] == if k < i && nx != -1 then nx else Successor(|ev|, k)
  {
    if i > 0 {
      LinksAt(ev, i - 1, k);
      var c, t := ev[i - 1].channel, LastOn(ev, ev[i - 1].channel, i - 1);
      if k < i - 1 {
        NextOnGrow(ev, ev[k].channel, k + 1, i - 1);
        LastOnNext(ev, ev[k].channel, k, i - 1);
      }
    }
  }

  /** Every link the walk leaves, at any point, is null or points forward. */
  lemma LinksWf(ev: seq<Message>, i: nat)
    requires i <= |ev|
    ensures Arena(ev, Links(ev, i)).Wf()
  {
    forall k | 0 <= k < |ev|
      ensures Links(ev, i)[k] == -1 || k < Links(ev, i)[k] < |ev|
    {
      LinksAt(ev, i, k);
    }
  }

  /** The intended links are null or point forward too. */
  lemma SealedWf(ev: seq<Message>)
    ensures Arena(ev, Sealed(ev)).Wf()
  {
  }

  /** Where a channel's messages start: skipping messages of other channels drops nothing. */
  lemma {:induction false} MembersSkip(ev: seq<Message>, c: nat, j: nat, i: nat)
    requires i <= |ev|
    ensures var k := NextOn(ev, c, j, i);
      Members(ev, c, j, i) == if k == -1 then [] else Members(ev, c, k, i)
    decreases i - j
  {
    if j < i && ev[j].channel != c {
      MembersSkip(ev, c, j + 1, i);
    }
  }

  /** `Members` lists exactly the messages on channel c with an index in [j, i). */
  lemma {:induction false} MembersExactly(ev: seq<Message>, c: nat, j: nat, i: nat)
    requires i <= |ev|
    ensures forall m :: m in Members(ev, c, j, i) <==> j <= m < i && ev[m].channel == c
    decreases i - j
  {
    if j < i {
      MembersExactly(ev, c, j + 1, i);
    }
  }

  /**
   * As written, the walk from any message follows its channel in file order
   * up to the channel's last message and then goes on from the parser's link
   * of that last message, into whatever the list holds after it.
   */
  lemma {:induction false} LoadedChainFrom(ev: seq<Message>, k: nat)
    requires k < |ev|
    ensures var a, c := Arena(ev, Links(ev, |ev|)), ev[k].channel;
      var last := LastOn(ev, c, |ev|);
      && a.Wf() && last >= 0
      && Chain(a, k) == Members(ev, c, k, |ev|) + Chain(a, Successor(|ev|, last))
    decreases |ev| - k
  {
    var n, c := |ev|, ev[k].channel;
    var a := Arena(ev, Links(ev, n));
    var nx := NextOn(ev, c, k + 1, n);
    assert a.Wf() by { LinksWf(ev, n); }
    assert a.next[k] == if nx != -1 then nx else Successor(n, k) by { LinksAt(ev, n, k); }
    assert Members(ev, c, k, n) == [k] + if nx == -1 then [] else Members(ev, c, nx, n) by {
      MembersSkip(ev, c, k + 1, n);
    }
    if nx != -1 {
      assert Chain(a, k) == [k] + Chain(a, nx);
      LoadedChainFrom(ev, nx);
      AppendAssoc([k], Members(ev, c, nx, n), Chain(a, Successor(n, LastOn(ev, c, n))));
    } else {
      assert LastOn(ev, c, n) == k by { LastOnNext(ev, c, k, n); }
      assert Chain(a, k) == [k] + Chain(a, Successor(n, k));
    }
  }

  /**
   * As written, the walk from a channel's first message visits that
   * channel's messages in file order and then runs on past its last one.
   */
  lemma LoadedChain(ev: seq<Message>, c: nat)
    requires c in Seen(ev, |ev|)
    ensures var a, last := Arena(ev, Links(ev, |ev|)), LastOn(ev, c, |ev|);
      && a.Wf() && last >= 0
      && Chain(a, NextOn(ev, c, 0, |ev|)) == Members(ev, c, 0, |ev|) + Chain(a, Successor(|ev|, last))
  {
    SeenFirstLast(ev, c, |ev|);
    MembersSkip(ev, c, 0, |ev|);
    LoadedChainFrom(ev, NextOn(ev, c, 0, |ev|));
  }

  /**
   * Two messages on two channels: the walk from channel 0's only message runs
   * on into channel 1's message.
   */
  lemma LeakExample()
    ensures var ev := [Message(0, 0, NoteOn(60, 100)), Message(0, 1, NoteOn(60, 100))];
      var a := Arena(ev, Links(ev, 2));
      a.Wf() && Members(ev, 0, 0, 2) == [0] && Chain(a, NextOn(ev, 0, 0, 2)) == [0, 1]
  {
    var ev := [Message(0, 0, NoteOn(60, 100)), Message(0, 1, NoteOn(60, 100))];
    var a := Arena(ev, Links(ev, 2));
    assert Links(ev, 2) == [1, -1];
    LinksWf(ev, 2);
    assert Chain(a, 1) == [1];
  }

  /** With the intended links, the walk from any message visits the rest of its channel, in file order, and stops. */
  lemma {:induction false} SealedChainFrom(ev: seq<Message>, k: nat)
    requires k < |ev|
    ensures var a := Arena(ev, Sealed(ev));
      a.Wf() && Chain(a, k) == Members(ev, ev[k].channel, k, |ev|)
    decreases |ev| - k
  {
    var n, c := |ev|, ev[k].channel;
    var a := Arena(ev, Sealed(ev));
    var nx := NextOn(ev, c, k + 1, n);
    MembersSkip(ev, c, k + 1, n);
    assert Members(ev, c, k, n) == [k] + Members(ev, c, k + 1, n);
    assert Chain(a, k) == [k] + Chain(a, nx);
    if nx != -1 {
      SealedChainFrom(ev, nx);
    }
  }

  /** With the intended links, the walk from a channel's first message visits exactly its messages, in file order. */
  lemma SealedChain(ev: seq<Message>, c: nat)
    ensures var a := Arena(ev, Sealed(ev));
      a.Wf() && Chain(a, NextOn(ev, c, 0, |ev|)) == Members(ev, c, 0, |ev|)
  {
    MembersSkip(ev, c, 0, |ev|);
    var f := NextOn(ev, c, 0, |ev|);
    if f != -1 {
      SealedChainFrom(ev, f);
    }
  }

  /** The walk's links with the last message of each channel in `done` linked to null. */
  function SealedFor(ev: seq<Message>, done: set<nat>): (r: seq<int>)
    ensures |r| == |ev|
  {
    var links := Links(ev, |ev|);
    seq(|ev|, k requires 0 <= k < |ev| =>
      if ev[k].channel in done && LastOn(ev, ev[k].channel, |ev|) == k then -1 else links[k])
  }

  /** Sealing one more channel nulls the link of its last message and no other. */
  lemma SealedForStep(ev: seq<Message>, done: set<nat>, c: nat)
    requires LastOn(ev, c, |ev|) != -1
    ensures SealedFor(ev, done + {c}) == SealedFor(ev, done)[LastOn(ev, c, |ev|) := -1]
  {
  }

  /** Sealing every channel of a loaded list gives the intended links. */
  lemma SealedForAll(ev: seq<Message>)
    ensures SealedFor(ev, Seen(ev, |ev|)) == Sealed(ev)
  {
    forall k | 0 <= k < |ev|
      ensures SealedFor(ev, Seen(ev, |ev|))[k] == Sealed(ev)[k]
    {
      assert ev[k].channel in Seen(ev, |ev|) by { SeenExactly(ev, |ev|); }
      LinksAt(ev, |ev|, k);
      LastOnNext(ev, ev[k].channel, k, |ev|);
    }
  }
}
