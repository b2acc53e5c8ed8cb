/**
 * A score: the parsed message list and one stream per MIDI channel number
 * occurring in it, keyed by channel number. The map is unordered, so the
 * key order in which the source's ordered map is iterated is not modelled.
 */
module Scoring {
  import opened Types
  import opened Midi
  import opened Partition
  import opened Streaming
  import opened Placement

  /**
   * The partitioning walk over a freshly parsed list: one step per message,
   * following the links from the first message, each step opening a stream
   * or appending to one.
   */
  method Partitioned(timeline: Timeline, bankLoads: bool) returns (r: Result<map<nat, Channel>>)
    requires |timeline.events| > 0 && timeline.next[..] == Links(timeline.events, 0)
    modifies timeline.next
    ensures r.Ok? <==> bankLoads
    ensures r.Err? ==> r.error == LoadError
    ensures r.Ok? ==> Walked(timeline, r.value, |timeline.events|)
    ensures r.Ok? ==> forall c :: c in r.value ==> fresh(r.value[c])
  {
    var channels: map<nat, Channel> := map[];
    var mf: int := 0;
    while mf != -1
      invariant -1 <= mf < |timeline.events|
      invariant Walked(timeline, channels, if mf == -1 then |timeline.events| else mf)
      invariant mf != 0 ==> bankLoads
      invariant forall c :: c in channels ==> fresh(channels[c])
      decreases if mf == -1 then 0 else |timeline.events| - mf
    {
      var placed := Place(timeline, channels, mf, bankLoads);
      if placed.Err? {
        return Err(placed.error);
      }
      channels := placed.value;
      mf := timeline.next[mf];
    }
    return Ok(channels);
  }


  class Score {
    /** The parsed message list; every stream of the score walks it. */
    const timeline: Timeline
    /** One stream per channel number. */
    var channels: map<nat, Channel>

    /**
     * The list is not empty and is well linked, there is a stream for exactly
     * the channel numbers that occur in it, each stream starts at the first
     * message on its channel, and no two channel numbers share a stream.
     */
    ghost predicate Valid()
      reads this, timeline.next, channels.Values
    {
      && |timeline.events| > 0 && timeline.Wf()
      && channels.Keys == Seen(timeline.events, |timeline.events|)
      && (forall c :: c in channels ==>
            && channels[c].timeline == timeline && channels[c].Valid()
            && channels[c].start == NextOn(timeline.events, c, 0, |timeline.events|))
      && (forall c, d :: c in channels && d in channels && c != d ==> channels[c] != channels[d])
    }

    /** The state right after loading: the walk over, every stream placed and unread. */
    ghost predicate Loaded()
      reads this, timeline.next, channels.Values
    {
      Valid() && Walked(timeline, channels, |timeline.events|)
    }

    constructor (timeline: Timeline, channels: map<nat, Channel>)
      ensures this.timeline == timeline && this.channels == channels
    {
      this.timeline := timeline;
      this.channels := channels;
    }

    /**
     * Loads a score from the parsed messages (`messages`, empty when the MIDI
     * file cannot be loaded) and a SoundFont that loads when `bankLoads`.
     * Walking the list once, the first message on a channel number opens a
     * stream on it and every later one is appended to that stream.
     */
    static method Load(messages: seq<Message>, bankLoads: bool) returns (r: Result<Score>)
      ensures r.Ok? <==> |messages| > 0 && bankLoads
      ensures r.Err? ==> r.error == LoadError
      ensures r.Ok? ==> fresh(r.value) && fresh(r.value.timeline.next)
      ensures r.Ok? ==> r.value.timeline.events == messages && r.value.Loaded()
      ensures r.Ok? ==> forall c :: c in r.value.channels ==> fresh(r.value.channels[c])
    {
      if |messages| == 0 {
        return Err(LoadError);
      }
      var timeline := new Timeline(messages);
      assert timeline.next[..] == Links(messages, 0);
      var placed := Partitioned(timeline, bankLoads);
      if placed.Err? {
        return Err(placed.error);
      }
      WalkedValid(timeline, placed.value);
      WalkedDistinct(timeline, placed.value, |messages|);
      var score := new Score(timeline, placed.value);
      r := Ok(score);
    }

    /** The stream of channel number `c`; a missing channel is an error. */
    function GetChannel(c: nat): (r: Result<Channel>)
      reads this, timeline.next, channels.Values
      requires Valid()
      ensures r.Ok? <==> exists k :: 0 <= k < |timeline.events| && timeline.events[k].channel == c
      ensures r.Err? ==> r.error == NotFound
      ensures r.Ok? ==> r.value.timeline == timeline && r.value.Valid()
      ensures r.Ok? ==> c in channels && r.value == channels[c]
      ensures r.Ok? ==> r.value.start == NextOn(timeline.events, c, 0, |timeline.events|)
    {
      SeenExactly(timeline.events, |timeline.events|);
      if c in channels then Ok(channels[c]) else Err(NotFound)
    }

    /** All streams, by channel number: one for each channel number that occurs in the list, each a different stream. */
    function GetChannels(): (r: map<nat, Channel>)
      reads this, timeline.next, channels.Values
      requires Valid()
      ensures forall c :: c in r <==> exists k :: 0 <= k < |timeline.events| && timeline.events[k].channel == c
      ensures r == channels
      ensures forall c :: c in r ==> GetChannel(c) == Ok(r[c])
      ensures forall c, d :: c in r && d in r && c != d ==> r[c] != r[d]
    {
      SeenExactly(timeline.events, |timeline.events|);
      channels
    }

    /**
     * Ends every channel at its last message: the link of each stream's tail
     * is set to null, so each stream's walk covers its own channel and stops.
     */
    method Seal()
      requires Loaded()
      modifies timeline.next
      ensures Valid()
      ensures timeline.next[..] == Sealed(timeline.events)
    {
      ghost var ev := timeline.events;
      var todo := channels.Keys;
      assert timeline.next[..] == SealedFor(ev, channels.Keys - todo);
      while todo != {}
        invariant todo <= channels.Keys
        invariant timeline.next[..] == SealedFor(ev, channels.Keys - todo)
        decreases todo
      {
        var c :| c in todo;
        ghost var done := channels.Keys - todo;
        assert Placed(channels[c], timeline, c, |ev|);
        var last := channels[c].end;
        SeenFirstLast(ev, c, |ev|);
        SealedForStep(ev, done, c);
        timeline.next[last] := -1;
        assert timeline.next[..] == SealedFor(ev, done)[last := -1];
        todo := todo - {c};
        assert channels.Keys - todo == done + {c};
      }
      SealedForAll(ev);
      SealedWf(ev);
    }
  }
}
