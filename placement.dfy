/**
 * The partitioning walk over a parsed message list, one message at a time:
 * what it has built after the first i messages, and the step that places
 * the next one.
 */
module Placement {
  import opened Types
  import opened Midi
  import opened Synthesis
  import opened Partition
  import opened Streaming

  /**
   * Stream `ch` on `timeline` as the partitioning walk leaves it once the
   * first i messages are placed: it starts at the first of them on channel
   * c, ends at the last, and has not been read.
   */
  ghost predicate Placed(ch: Channel, timeline: Timeline, c: nat, i: nat)
    reads ch
  {
    && i <= |timeline.events|
    && ch.timeline == timeline
    && ch.start == NextOn(timeline.events, c, 0, i)
    && ch.end == LastOn(timeline.events, c, i)
    && ch.current == ch.start && ch.offset == 0 && ch.time == 0.0
    && ch.synth == [SetOutput(AUDIO_FREQ)] && ch.applied == []
  }

  /**
   * The walk has placed the first i messages: the links are the walk's, there
   * is a stream for exactly the channel numbers met so far, and each is placed.
   */
  ghost predicate Walked(timeline: Timeline, channels: map<nat, Channel>, i: nat)
    reads timeline.next, channels.Values
  {
    && i <= |timeline.events|
    && timeline.next[..] == Links(timeline.events, i)
    && channels.Keys == Seen(timeline.events, i)
    && (forall c :: c in channels ==> Placed(channels[c], timeline, c, i))
  }

  /** Streams placed on different channel numbers are different streams: each starts at a message of its own channel. */
  lemma WalkedDistinct(timeline: Timeline, channels: map<nat, Channel>, i: nat)
    requires Walked(timeline, channels, i)
    ensures forall c, d :: c in channels && d in channels && c != d ==> channels[c] != channels[d]
  {
    forall c, d | c in channels && d in channels && c != d
      ensures channels[c] != channels[d]
    {
      SeenFirstLast(timeline.events, c, i);
      SeenFirstLast(timeline.events, d, i);
    }
  }

  /** Placing message i on a channel number not met before opens a stream on it, which fails if the SoundFont does not load. */
  method OpenOn(timeline: Timeline, channels: map<nat, Channel>, i: nat, bankLoads: bool) returns (r: Result<map<nat, Channel>>)
    requires Walked(timeline, channels, i) && i < |timeline.events|
    requires timeline.events[i].channel !in channels
    ensures r.Ok? <==> bankLoads
    ensures r.Err? ==> r.error == LoadError
    ensures r.Ok? ==> Walked(timeline, r.value, i + 1)
    ensures r.Ok? ==> var chi := timeline.events[i].channel;
      chi in r.value && fresh(r.value[chi]) && r.value == channels[chi := r.value[chi]]
  {
    var ev, chi := timeline.events, timeline.events[i].channel;
    LinksWf(ev, i);
    SeenFirstLast(ev, chi, i);
    NextOnGrow(ev, chi, 0, i);
    forall c | c in channels
      ensures Placed(channels[c], timeline, c, i + 1)
    {
      SeenFirstLast(ev, c, i);
      NextOnGrow(ev, c, 0, i);
    }
    var stream := Channel.Open(timeline, i, bankLoads);
    if stream.Err? {
      return Err(stream.error);
    }
    r := Ok(channels[chi := stream.value]);
  }

  /** Placing message i on a channel number met before appends it to that channel's stream. */
  method AppendOn(timeline: Timeline, channels: map<nat, Channel>, i: nat)
    requires Walked(timeline, channels, i) && i < |timeline.events|
    requires timeline.events[i].channel in channels
    modifies timeline.next, channels[timeline.events[i].channel]
    ensures Walked(timeline, channels, i + 1)
  {
    var ev, chi := timeline.events, timeline.events[i].channel;
    LinksWf(ev, i);
    SeenFirstLast(ev, chi, i);
    forall c | c in channels
      ensures c != chi ==> Placed(channels[c], timeline, c, i + 1)
    {
      SeenFirstLast(ev, c, i);
      NextOnGrow(ev, c, 0, i);
    }
    assert channels[chi].Valid();
    WalkedDistinct(timeline, channels, i);
    label Placing:
    channels[chi].PushEvent(i);
    forall c | c in channels
      ensures Placed(channels[c], timeline, c, i + 1)
    {
      if c != chi {
        assert channels[c] != channels[chi];
        assert old@Placing(Placed(channels[c], timeline, c, i + 1));
      } else {
        SeenFirstLast(ev, c, i);
        NextOnGrow(ev, c, 0, i);
      }
    }
  }

  /** One step of the partitioning walk: message i opens a stream on its channel number or is appended to that stream. */
  method Place(timeline: Timeline, channels: map<nat, Channel>, i: nat, bankLoads: bool) returns (r: Result<map<nat, Channel>>)
    requires Walked(timeline, channels, i) && i < |timeline.events|
    modifies timeline.next, channels.Values
    ensures r.Ok? <==> timeline.events[i].channel in channels || bankLoads
    ensures r.Err? ==> r.error == LoadError
    ensures r.Ok? ==> Walked(timeline, r.value, i + 1)
    ensures r.Ok? ==> forall c :: c in r.value ==> (c in channels && r.value[c] == channels[c]) || fresh(r.value[c])
    ensures r.Ok? ==> timeline.next[i] == Successor(|timeline.events|, i)
  {
    if timeline.events[i].channel !in channels {
      r := OpenOn(timeline, channels, i, bankLoads);
    } else {
      AppendOn(timeline, channels, i);
      r := Ok(channels);
    }
    if r.Ok? {
      LinksAt(timeline.events, i + 1, i);
    }
  }

  /** Once the walk is over, the list is well linked and every stream is valid. */
  lemma WalkedValid(timeline: Timeline, channels: map<nat, Channel>)
    requires Walked(timeline, channels, |timeline.events|)
    ensures timeline.Wf()
    ensures forall c :: c in channels ==> channels[c].Valid()
  {
    var ev := timeline.events;
    LinksWf(ev, |ev|);
    forall c | c in channels
      ensures channels[c].Valid()
    {
      SeenFirstLast(ev, c, |ev|);
    }
  }

}
