/**
 The commands of a session (`node/node.go`) and its own view of its channels and streams
 (`node/subscription_state.go`), kept in step with the hub, and what the broker is told meanwhile.
 */
module Node {
  import opened Basics
  import opened Names
  import H = Hub
  import SessionStreams
  import T = StreamsTracker

  /** Channel identifier -> streams. */
  type Channels = map<Name, set<Name>>

  /** The part of a command's result that changes subscriptions. */
  datatype Reply = Reply(stopAllStreams: bool, stoppedStreams: Option<seq<Name>>, streams: Option<seq<Name>>)

  // What the session's view is meant to be.

  function WithStream(ch: Channels, id: Name, stream: Name): Channels {
    if id in ch then ch[id := ch[id] + {stream}] else ch
  }

  function WithoutStream(ch: Channels, id: Name, stream: Name): Channels {
    if id in ch then ch[id := ch[id] - {stream}] else ch
  }

  function WithoutStreams(ch: Channels, id: Name): Channels {
    if id in ch then ch[id := {}] else ch
  }

  class SubscriptionState {
    var channels: Channels

    constructor ()
      ensures channels == map[]
    {
      channels := map[];
    }

    method AddChannel(id: Name)
      modifies this
      ensures channels == old(channels)[id := {}]
    {
      channels := channels[id := {}];
    }

    method RemoveChannel(id: Name)
      modifies this
      ensures channels == old(channels) - {id}
    {
      channels := channels - {id};
    }

    method AddChannelStream(id: Name, stream: Name)
      modifies this
      ensures channels == WithStream(old(channels), id, stream)
    {
      if id in channels {
        channels := channels[id := channels[id] + {stream}];
      }
    }

    method RemoveChannelStream(id: Name, stream: Name)
      modifies this
      ensures channels == WithoutStream(old(channels), id, stream)
    {
      if id in channels {
        channels := channels[id := channels[id] - {stream}];
      }
    }

    /** Empties the channel and returns its streams, in any order. */
    method RemoveChannelStreams(id: Name) returns (streams: seq<Name>)
      modifies this
      ensures channels == WithoutStreams(old(channels), id)
      ensures forall s :: s in streams <==> id in old(channels) && s in old(channels)[id]
    {
      streams := StreamsFor(id);
      if id in channels {
        channels := channels[id := {}];
      }
    }

    method StreamsFor(id: Name) returns (streams: seq<Name>)
      ensures forall s :: s in streams <==> id in channels && s in channels[id]
      ensures id in channels ==> |streams| == |channels[id]|
    {
      streams := [];
      if id in channels {
        var todo := channels[id];
        while todo != {}
          invariant todo <= channels[id] && |streams| + |todo| == |channels[id]|
          invariant forall s :: s in streams <==> s in channels[id] && s !in todo
          decreases |todo|
        {
          var s :| s in todo;
          streams := streams + [s];
          todo := todo - {s};
        }
      }
    }
  }

  // What a reply means, for the hub and for the session's view together.

  datatype Both = Both(hub: H.Flat, channels: Channels)

  function Stop(b: Both, x: Name, id: Name, streams: seq<Name>): Both {
    if streams == [] then b
    else
      var before, s := Stop(b, x, id, streams[..|streams| - 1]), streams[|streams| - 1];
      Both(H.Step(before.hub, H.Unsubscribe(x, s, id)), WithoutStream(before.channels, id, s))
  }

  function Start(b: Both, x: Name, id: Name, streams: seq<Name>): Both {
    if streams == [] then b
    else
      var before, s := Start(b, x, id, streams[..|streams| - 1]), streams[|streams| - 1];
      Both(H.Step(before.hub, H.Subscribe(x, s, id)), WithStream(before.channels, id, s))
  }

  function Stopped(b: Both, x: Name, id: Name, reply: Reply): Both {
    if reply.stopAllStreams then Both(H.Step(b.hub, H.UnsubscribeChannel(x, id)), WithoutStreams(b.channels, id))
    else if reply.stoppedStreams.Some? then Stop(b, x, id, reply.stoppedStreams.value)
    else b
  }

  function Replied(b: Both, x: Name, id: Name, reply: Reply): Both {
    var stopped := Stopped(b, x, id, reply);
    if reply.streams.Some? then Start(stopped, x, id, reply.streams.value) else stopped
  }

  // What the broker's tracker is told.

  function StreamsIn(ch: Channels, id: Name): set<Name> {
    if id in ch then ch[id] else {}
  }

  function Listed(streams: Option<seq<Name>>): set<Name> {
    if streams.Some? then set s | s in streams.value else {}
  }

  /** The streams among the given ones that the tracker counts once. */
  function Single(t: T.State, streams: set<Name>): set<Name> {
    set x | x in streams && x in t.store && t.store[x] == 1
  }

  function Dropped(t: T.State, streams: set<Name>): T.State {
    T.State(t.store - Single(t, streams), t.subscribed - Single(t, streams))
  }

  function Raised(t: T.State, streams: seq<Name>): T.State {
    if streams == [] then t
    else T.Step(Raised(t, streams[..|streams| - 1]), T.Subscribe(streams[|streams| - 1]))
  }

  function RaisedAll(t: T.State, pairs: seq<SessionStreams.Pair>): T.State {
    if pairs == [] then t
    else T.Step(RaisedAll(t, pairs[..|pairs| - 1]), T.Subscribe(pairs[|pairs| - 1].0))
  }

  /** The streams a reply gives up: those of the channel as the session knows it, or those it names. */
  function GivenUp(ch: Channels, id: Name, reply: Reply): set<Name> {
    if reply.stopAllStreams then StreamsIn(ch, id) else Listed(reply.stoppedStreams)
  }

  function Told(t: T.State, ch: Channels, id: Name, reply: Reply): T.State {
    var given := Dropped(t, GivenUp(ch, id, reply));
    if reply.streams.Some? then Raised(given, reply.streams.value) else given
  }

  /** What is known of the channel, and the reply taken, when a command gets that far. */
  function ToldBy(t: T.State, ch: Channels, kind: Kind, id: Name, rpc: Rpc): T.State {
    if (kind == Subscribing) == (id in ch) || rpc.Broken? then t
    else if rpc.Odd? then Told(t, ch, id, rpc.reply)
    else match kind
      case Subscribing => Told(t, if rpc.success then ch[id := {}] else ch, id, rpc.reply)
      case Unsubscribing => Told(t, ch - {id}, id, rpc.reply.(stopAllStreams := true))
      case Performing => Told(t, ch, id, rpc.reply)
  }

  lemma {:induction false} OneMoreDropped(t: T.State, streams: seq<Name>, k: nat)
    requires k < |streams|
    ensures var before, after := Listed(Some(streams[..k])), Listed(Some(streams[..k + 1]));
      Dropped(t, after) == T.Step(Dropped(t, before), T.Unsubscribe(streams[k]))
  {
    var before, after, s := Listed(Some(streams[..k])), Listed(Some(streams[..k + 1])), streams[k];
    assert after == before + {s};
    var one := Single(t, after);
    if s in t.store && t.store[s] == 1 {
      assert one == Single(t, before) + {s};
      assert s !in Single(t, before) ==> t.store - one == (t.store - Single(t, before)) - {s};
    } else {
      assert one == Single(t, before);
    }
  }

  class Session {
    const uid: Name
    const subscriptions: SubscriptionState
    const hub: H.Hub
    const broker: T.Tracker

    constructor (uid: Name, hub: H.Hub, broker: T.Tracker)
      ensures this.uid == uid && this.hub == hub && this.broker == broker
      ensures fresh(subscriptions) && subscriptions.channels == map[]
    {
      this.uid, this.hub, this.broker := uid, hub, broker;
      subscriptions := new SubscriptionState();
    }

    ghost function View(): Both
      reads hub, subscriptions
    {
      Both(hub.Model(), subscriptions.channels)
    }

    /** `handleCommandReply`, on the subscriptions. */
    method HandleCommandReply(id: Name, reply: Reply)
      requires hub.Valid()
      modifies hub, hub.gates, subscriptions, broker
      ensures hub.Valid() && View() == Replied(old(View()), uid, id, reply)
      ensures broker.View() == Told(old(broker.View()), old(subscriptions.channels), id, reply)
    {
      StopReplied(id, reply);
      if reply.streams.Some? {
        StartStreams(id, reply.streams.value);
      }
    }

    /** Its first half. */
    method StopReplied(id: Name, reply: Reply)
      requires hub.Valid()
      modifies hub, hub.gates, subscriptions, broker
      ensures hub.Valid() && View() == Stopped(old(View()), uid, id, reply)
      ensures broker.View() == Dropped(old(broker.View()), GivenUp(old(subscriptions.channels), id, reply))
    {
      if reply.stopAllStreams {
        StopAllStreams(id);
      } else if reply.stoppedStreams.Some? {
        StopStreams(id, reply.stoppedStreams.value);
      }
    }

    method StopAllStreams(id: Name)
      requires hub.Valid()
      modifies hub, hub.gates, subscriptions, broker
      ensures hub.Valid() && hub.Model() == H.Step(old(hub.Model()), H.UnsubscribeChannel(uid, id))
      ensures subscriptions.channels == WithoutStreams(old(subscriptions.channels), id)
      ensures broker.View() == Dropped(old(broker.View()), StreamsIn(old(subscriptions.channels), id))
    {
      hub.UnsubscribeSessionFromChannel(uid, id);
      var removed := subscriptions.RemoveChannelStreams(id);
      assert Listed(Some(removed)) == StreamsIn(old(subscriptions.channels), id);
      Release(removed);
    }

    method Release(streams: seq<Name>)
      modifies broker
      ensures broker.View() == Dropped(old(broker.View()), Listed(Some(streams)))
    {
      for k := 0 to |streams|
        invariant broker.View() == Dropped(old(broker.View()), Listed(Some(streams[..k])))
      {
        OneMoreDropped(old(broker.View()), streams, k);
        broker.Unsubscribe(streams[k]);
      }
      assert streams[..|streams|] == streams;
    }

    method StopStream(id: Name, stream: Name)
      requires hub.Valid()
      modifies hub, hub.gates, subscriptions, broker
      ensures hub.Valid() && hub.Model() == H.Step(old(hub.Model()), H.Unsubscribe(uid, stream, id))
      ensures subscriptions.channels == WithoutStream(old(subscriptions.channels), id, stream)
      ensures broker.View() == T.Step(old(broker.View()), T.Unsubscribe(stream))
    {
      broker.Unsubscribe(stream);
      hub.UnsubscribeSession(uid, stream, id);
      subscriptions.RemoveChannelStream(id, stream);
    }

    method StopStreams(id: Name, streams: seq<Name>)
      requires hub.Valid()
      modifies hub, hub.gates, subscriptions, broker
      ensures hub.Valid() && View() == Stop(old(View()), uid, id, streams)
      ensures broker.View() == Dropped(old(broker.View()), Listed(Some(streams)))
    {
      for k := 0 to |streams|
        invariant hub.Valid() && View() == Stop(old(View()), uid, id, streams[..k])
        invariant broker.View() == Dropped(old(broker.View()), Listed(Some(streams[..k])))
      {
        OneMoreDropped(old(broker.View()), streams, k);
        assert streams[..k + 1][..k] == streams[..k];
        StopStream(id, streams[k]);
      }
      assert streams[..|streams|] == streams;
    }

    method StartStream(id: Name, stream: Name)
      requires hub.Valid()
      modifies hub, hub.gates, subscriptions, broker
      ensures hub.Valid() && hub.Model() == H.Step(old(hub.Model()), H.Subscribe(uid, stream, id))
      ensures subscriptions.channels == WithStream(old(subscriptions.channels), id, stream)
      ensures broker.View() == T.Step(old(broker.View()), T.Subscribe(stream))
    {
      broker.Subscribe(stream);
      hub.SubscribeSession(uid, stream, id);
      subscriptions.AddChannelStream(id, stream);
    }

    method StartStreams(id: Name, streams: seq<Name>)
      requires hub.Valid()
      modifies hub, hub.gates, subscriptions, broker
      ensures hub.Valid() && View() == Start(old(View()), uid, id, streams)
      ensures broker.View() == Raised(old(broker.View()), streams)
    {
      for k := 0 to |streams|
        invariant hub.Valid() && View() == Start(old(View()), uid, id, streams[..k])
        invariant broker.View() == Raised(old(broker.View()), streams[..k])
      {
        assert streams[..k + 1][..k] == streams[..k];
        StartStream(id, streams[k]);
      }
      assert streams[..|streams|] == streams;
    }

    /** `Subscribe`, `Unsubscribe` and `Perform`: the channel check, the call, and the reply. */
    method Execute(kind: Kind, id: Name, rpc: Rpc)
      requires hub.Valid()
      modifies hub, hub.gates, subscriptions, broker
      ensures hub.Valid() && View() == Executed(old(View()), uid, kind, id, rpc)
      ensures broker.View() == ToldBy(old(broker.View()), old(subscriptions.channels), kind, id, rpc)
    {
      if (kind == Subscribing) == (id in subscriptions.channels) {
        return;
      }
      match rpc
      case Broken =>
        return;
      case Odd(reply) =>
        HandleCommandReply(id, reply);
      case Answer(success, reply) =>
        match kind {
          case Subscribing =>
            if success {
              subscriptions.AddChannel(id);
            }
            HandleCommandReply(id, reply);
          case Unsubscribing =>
            subscriptions.RemoveChannel(id);
            HandleCommandReply(id, reply.(stopAllStreams := true));
          case Performing =>
            HandleCommandReply(id, reply);
        }
    }

    /** The end of `TryRestoreSession`: registers the session and subscribes it to everything its restored
        view holds, in any order. */
    method Resubscribe() returns (ghost order: seq<SessionStreams.Pair>)
      requires hub.Valid()
      modifies hub, hub.gates, broker
      ensures hub.Valid() && ListsAll(order, subscriptions.channels) && NoDup(order)
      ensures hub.Model() == SubscribeAll(H.Step(old(hub.Model()), H.AddSession(uid)), uid, order)
      ensures broker.View() == RaisedAll(old(broker.View()), order)
    {
      hub.AddSession(uid);
      ghost var start := hub.Model();
      order := [];
      var todo := subscriptions.channels.Keys;
      while todo != {}
        invariant hub.Valid() && todo <= subscriptions.channels.Keys
        invariant hub.Model() == SubscribeAll(start, uid, order)
        invariant broker.View() == RaisedAll(old(broker.View()), order) && NoDup(order)
        invariant forall s, id :: (s, id) in order <==>
          id in subscriptions.channels && id !in todo && s in subscriptions.channels[id]
        decreases |todo|
      {
        var id :| id in todo;
        order := ResubscribeChannel(id, start, old(broker.View()), order);
        todo := todo - {id};
      }
    }

    method ResubscribeChannel(
        id: Name, ghost start: H.Flat, ghost told: T.State, ghost before: seq<SessionStreams.Pair>)
      returns (ghost order: seq<SessionStreams.Pair>)
      requires hub.Valid() && id in subscriptions.channels && hub.Model() == SubscribeAll(start, uid, before)
      requires broker.View() == RaisedAll(told, before) && NoDup(before) && forall s :: (s, id) !in before
      modifies hub, hub.gates, broker
      ensures hub.Valid() && hub.Model() == SubscribeAll(start, uid, order)
      ensures broker.View() == RaisedAll(told, order) && NoDup(order)
      ensures forall s, i :: (s, i) in order <==> (s, i) in before || (i == id && s in subscriptions.channels[id])
    {
      order := before;
      var todo := subscriptions.channels[id];
      while todo != {}
        invariant hub.Valid() && todo <= subscriptions.channels[id]
        invariant hub.Model() == SubscribeAll(start, uid, order) && broker.View() == RaisedAll(told, order)
        invariant NoDup(order)
        invariant forall s, i :: (s, i) in order <==>
          (s, i) in before || (i == id && s in subscriptions.channels[id] && s !in todo)
        decreases |todo|
      {
        var s :| s in todo;
        order := ResubscribeOne(id, s, start, told, order);
        todo := todo - {s};
      }
    }

    method ResubscribeOne(
        id: Name, stream: Name, ghost start: H.Flat, ghost told: T.State, ghost before: seq<SessionStreams.Pair>)
      returns (ghost order: seq<SessionStreams.Pair>)
      requires hub.Valid() && hub.Model() == SubscribeAll(start, uid, before)
      requires broker.View() == RaisedAll(told, before) && NoDup(before) && (stream, id) !in before
      modifies hub, hub.gates, broker
      ensures hub.Valid() && hub.Model() == SubscribeAll(start, uid, order)
      ensures broker.View() == RaisedAll(told, order) && NoDup(order)
      ensures forall p :: p in order <==> p in before || p == (stream, id)
    {
      broker.Subscribe(stream);
      hub.SubscribeSession(uid, stream, id);
      order := before + [(stream, id)];
      assert order[..|before|] == before;
    }
  }

  datatype Kind = Subscribing | Unsubscribing | Performing

  /** What came back from the application: nothing usable, a result along with an error, or a result. */
  datatype Rpc = Broken | Odd(reply: Reply) | Answer(success: bool, reply: Reply)

  function Executed(b: Both, x: Name, kind: Kind, id: Name, rpc: Rpc): Both {
    if (kind == Subscribing) == (id in b.channels) || rpc.Broken? then b
    else if rpc.Odd? then Replied(b, x, id, rpc.reply)
    else match kind
      case Subscribing => Replied(if rpc.success then b.(channels := b.channels[id := {}]) else b, x, id, rpc.reply)
      case Unsubscribing => Replied(b.(channels := b.channels - {id}), x, id, rpc.reply.(stopAllStreams := true))
      case Performing => Replied(b, x, id, rpc.reply)
  }

  function SubscribeAll(f: H.Flat, x: Name, pairs: seq<SessionStreams.Pair>): H.Flat {
    if pairs == [] then f
    else
      var last := pairs[|pairs| - 1];
      H.Step(SubscribeAll(f, x, pairs[..|pairs| - 1]), H.Subscribe(x, last.0, last.1))
  }

  ghost predicate ListsAll(pairs: seq<SessionStreams.Pair>, ch: Channels) {
    forall s, id :: (s, id) in pairs <==> id in ch && s in ch[id]
  }

  // The session's view stays within the hub.

  /** Every stream the session believes it is subscribed to is subscribed in the hub. */
  ghost predicate Agrees(rel: set<H.Triple>, x: Name, ch: Channels) {
    forall id, s :: id in ch && s in ch[id] ==> (s, x, id) in rel
  }

  lemma {:induction false} StopAgrees(b: Both, x: Name, id: Name, streams: seq<Name>)
    requires Agrees(b.hub.rel, x, b.channels)
    ensures var a := Stop(b, x, id, streams); Agrees(a.hub.rel, x, a.channels)
    ensures forall s, y, i :: y != x ==> ((s, y, i) in Stop(b, x, id, streams).hub.rel <==> (s, y, i) in b.hub.rel)
  {
    if streams != [] {
      StopAgrees(b, x, id, streams[..|streams| - 1]);
    }
  }

  lemma {:induction false} StartAgrees(b: Both, x: Name, id: Name, streams: seq<Name>)
    requires Agrees(b.hub.rel, x, b.channels)
    ensures var a := Start(b, x, id, streams); Agrees(a.hub.rel, x, a.channels)
    ensures forall s, y, i :: y != x ==> ((s, y, i) in Start(b, x, id, streams).hub.rel <==> (s, y, i) in b.hub.rel)
  {
    if streams != [] {
      StartAgrees(b, x, id, streams[..|streams| - 1]);
    }
  }

  lemma {:induction false} StopAllAgrees(b: Both, x: Name, id: Name)
    requires Agrees(b.hub.rel, x, b.channels)
    ensures Agrees(H.Step(b.hub, H.UnsubscribeChannel(x, id)).rel, x, WithoutStreams(b.channels, id))
    ensures forall s, y, i :: y != x ==>
      ((s, y, i) in H.Step(b.hub, H.UnsubscribeChannel(x, id)).rel <==> (s, y, i) in b.hub.rel)
  {
    forall s, i | i != id
      ensures (s, x, i) in H.Step(b.hub, H.UnsubscribeChannel(x, id)).rel <==> (s, x, i) in b.hub.rel
    {
      H.ChannelTouchesTarget(b.hub, x, id, s, i);
    }
    forall s, y, i | y != x
      ensures (s, y, i) in H.Step(b.hub, H.UnsubscribeChannel(x, id)).rel <==> (s, y, i) in b.hub.rel
    {
      H.OthersUntouched(b.hub, H.UnsubscribeChannel(x, id), s, y, i);
    }
  }

  lemma RepliedAgrees(b: Both, x: Name, id: Name, reply: Reply)
    requires Agrees(b.hub.rel, x, b.channels)
    ensures var a := Replied(b, x, id, reply); Agrees(a.hub.rel, x, a.channels)
    ensures forall s, y, i :: y != x ==> ((s, y, i) in Replied(b, x, id, reply).hub.rel <==> (s, y, i) in b.hub.rel)
  {
    if reply.stopAllStreams {
      StopAllAgrees(b, x, id);
    } else if reply.stoppedStreams.Some? {
      StopAgrees(b, x, id, reply.stoppedStreams.value);
    }
    if reply.streams.Some? {
      StartAgrees(Stopped(b, x, id, reply), x, id, reply.streams.value);
    }
  }

  lemma ExecutedAgrees(b: Both, x: Name, kind: Kind, id: Name, rpc: Rpc)
    requires Agrees(b.hub.rel, x, b.channels)
    ensures var a := Executed(b, x, kind, id, rpc); Agrees(a.hub.rel, x, a.channels)
    ensures forall s, y, i :: y != x ==>
      ((s, y, i) in Executed(b, x, kind, id, rpc).hub.rel <==> (s, y, i) in b.hub.rel)
  {
    if (kind == Subscribing) != (id in b.channels) && !rpc.Broken? {
      if rpc.Answer? && kind == Subscribing && rpc.success {
        RepliedAgrees(b.(channels := b.channels[id := {}]), x, id, rpc.reply);
      } else if rpc.Answer? && kind == Unsubscribing {
        RepliedAgrees(b.(channels := b.channels - {id}), x, id, rpc.reply.(stopAllStreams := true));
      } else {
        RepliedAgrees(b, x, id, rpc.reply);
      }
    }
  }

  lemma {:induction false} SubscribeAllAdds(f: H.Flat, x: Name, pairs: seq<SessionStreams.Pair>)
    ensures forall s, y, id :: (s, y, id) in SubscribeAll(f, x, pairs).rel <==>
      (s, y, id) in f.rel || (y == x && (s, id) in pairs)
  {
    if pairs != [] {
      var init, last := pairs[..|pairs| - 1], pairs[|pairs| - 1];
      SubscribeAllAdds(f, x, init);
      assert forall p :: p in pairs <==> p in init || p == last;
    }
  }

  /** A restore adds what the restored view holds to the hub, for this session, and nothing else. */
  lemma {:induction false} ResubscribedExactly(f: H.Flat, x: Name, ch: Channels, order: seq<SessionStreams.Pair>)
    requires ListsAll(order, ch)
    ensures forall s, y, id :: (s, y, id) in SubscribeAll(H.Step(f, H.AddSession(x)), x, order).rel <==>
      (s, y, id) in f.rel || (y == x && id in ch && s in ch[id])
  {
    SubscribeAllAdds(H.Step(f, H.AddSession(x)), x, order);
  }

  // What a reply does, exactly.

  lemma {:induction false} StopExactly(b: Both, x: Name, id: Name, streams: seq<Name>)
    ensures var a := Stop(b, x, id, streams);
      && a.channels.Keys == b.channels.Keys
      && (forall i :: i in b.channels ==>
            a.channels[i] == if i == id then b.channels[id] - Listed(Some(streams)) else b.channels[i])
      && forall s, i :: (s, x, i) in a.hub.rel <==> (s, x, i) in b.hub.rel && !(i == id && s in streams)
  {
    if streams != [] {
      var init, last := streams[..|streams| - 1], streams[|streams| - 1];
      StopExactly(b, x, id, init);
      assert forall s :: s in streams <==> s in init || s == last;
    }
  }

  lemma {:induction false} StartExactly(b: Both, x: Name, id: Name, streams: seq<Name>)
    ensures var a := Start(b, x, id, streams);
      && a.channels.Keys == b.channels.Keys
      && (forall i :: i in b.channels ==>
            a.channels[i] == if i == id then b.channels[id] + Listed(Some(streams)) else b.channels[i])
      && forall s, i :: (s, x, i) in a.hub.rel <==> (s, x, i) in b.hub.rel || (i == id && s in streams)
  {
    if streams != [] {
      var init, last := streams[..|streams| - 1], streams[|streams| - 1];
      StartExactly(b, x, id, init);
      assert forall s :: s in streams <==> s in init || s == last;
    }
  }

  /** The streams of a channel after a reply. */
  function Left(was: set<Name>, reply: Reply): set<Name> {
    (if reply.stopAllStreams then {} else was - Listed(reply.stoppedStreams)) + Listed(reply.streams)
  }

  lemma StoppedExactly(b: Both, x: Name, id: Name, reply: Reply)
    ensures var a := Stopped(b, x, id, reply);
      && a.channels.Keys == b.channels.Keys
      && (forall i :: i in b.channels ==>
            a.channels[i] == if i == id then Left(b.channels[id], reply.(streams := None)) else b.channels[i])
      && (forall s, i :: i != id ==> ((s, x, i) in a.hub.rel <==> (s, x, i) in b.hub.rel))
      && (!reply.stopAllStreams ==> forall s ::
            (s, x, id) in a.hub.rel <==> (s, x, id) in b.hub.rel && s !in Listed(reply.stoppedStreams))
  {
    if reply.stopAllStreams {
      forall s, i | i != id
        ensures (s, x, i) in H.Step(b.hub, H.UnsubscribeChannel(x, id)).rel <==> (s, x, i) in b.hub.rel
      {
        H.ChannelTouchesTarget(b.hub, x, id, s, i);
      }
    } else if reply.stoppedStreams.Some? {
      StopExactly(b, x, id, reply.stoppedStreams.value);
    }
  }

  /** A reply leaves a known channel with what it had, less what was stopped, plus what was started. In the
      hub the same holds for the channel, unless everything was to be stopped; other channels are
      untouched in both. */
  lemma RepliedExactly(b: Both, x: Name, id: Name, reply: Reply)
    ensures var a := Replied(b, x, id, reply);
      && a.channels.Keys == b.channels.Keys
      && (forall i :: i in b.channels ==>
            a.channels[i] == if i == id then Left(b.channels[id], reply) else b.channels[i])
      && (forall s, i :: i != id ==> ((s, x, i) in a.hub.rel <==> (s, x, i) in b.hub.rel))
      && (!reply.stopAllStreams ==> forall s :: (s, x, id) in a.hub.rel <==>
            s in Listed(reply.streams) || ((s, x, id) in b.hub.rel && s !in Listed(reply.stoppedStreams)))
  {
    var stopped := Stopped(b, x, id, reply);
    StoppedExactly(b, x, id, reply);
    if reply.streams.Some? {
      StartExactly(stopped, x, id, reply.streams.value);
    }
  }

  /** The same in the hub for a reply that stops all streams: what stays of the channel is what the removal does not
      read of the session's list, and what is started. A session without a list keeps what it has. */
  lemma {:induction false} StopAllExactly(b: Both, x: Name, id: Name, reply: Reply, s: Name)
    requires reply.stopAllStreams
    ensures (s, x, id) in Replied(b, x, id, reply).hub.rel <==>
      || s in Listed(reply.streams)
      || (&& (s, x, id) in b.hub.rel
          && (x in b.hub.lists ==> (s, id) !in SessionStreams.Reads(b.hub.lists[x], id)))
  {
    if x in b.hub.lists {
      H.ChannelKeepsUnread(b.hub, x, id, s);
    }
    if reply.streams.Some? {
      StartExactly(Stopped(b, x, id, reply), x, id, reply.streams.value);
    }
  }

  /** What any command leaves of its channel in the hub. One that is refused, or whose call fails, changes nothing.
      Otherwise, what the reply starts is there, and of the rest what was there and is not stopped: a reply that stops
      all streams, and every answer to an unsubscribe, stops what the removal reads of the session's list. */
  lemma {:induction false} CommandInHub(b: Both, x: Name, kind: Kind, id: Name, rpc: Rpc, s: Name)
    ensures (kind == Subscribing) == (id in b.channels) || rpc.Broken? ==> Executed(b, x, kind, id, rpc) == b
    ensures (kind == Subscribing) != (id in b.channels) && !rpc.Broken? ==>
      var stopped :=
        if rpc.reply.stopAllStreams || (rpc.Answer? && kind == Unsubscribing)
        then x in b.hub.lists && (s, id) in SessionStreams.Reads(b.hub.lists[x], id)
        else s in Listed(rpc.reply.stoppedStreams);
      (s, x, id) in Executed(b, x, kind, id, rpc).hub.rel <==>
        s in Listed(rpc.reply.streams) || ((s, x, id) in b.hub.rel && !stopped)
  {
    if (kind == Subscribing) != (id in b.channels) && !rpc.Broken? {
      if rpc.Answer? && kind == Unsubscribing {
        StopAllExactly(b.(channels := b.channels - {id}), x, id, rpc.reply.(stopAllStreams := true), s);
      } else {
        var known := if rpc.Answer? && kind == Subscribing && rpc.success then b.channels[id := {}] else b.channels;
        assert Executed(b, x, kind, id, rpc) == Replied(b.(channels := known), x, id, rpc.reply);
        if rpc.reply.stopAllStreams {
          StopAllExactly(b.(channels := known), x, id, rpc.reply, s);
        } else {
          RepliedExactly(b.(channels := known), x, id, rpc.reply);
        }
      }
    }
  }

  /** Nothing of the channel is left when its pairs are spaced out in the list and the reply starts nothing. */
  lemma {:induction false} UnsubscribeClears(b: Both, x: Name, id: Name, success: bool, reply: Reply, s: Name)
    requires id in b.channels && H.Tracked(b.hub) && Listed(reply.streams) == {}
    requires x in b.hub.lists ==> SessionStreams.Spaced(b.hub.lists[x], id)
    ensures (s, x, id) !in Executed(b, x, Unsubscribing, id, Answer(success, reply)).hub.rel
  {
    CommandInHub(b, x, Unsubscribing, id, Answer(success, reply), s);
    if (s, x, id) in b.hub.rel {
      SessionStreams.SpacedAllRead(b.hub.lists[x], id, (s, id));
    }
  }

  /** An answered command does what it says: a confirmed subscribe makes the channel known with exactly the
      streams of the reply, a rejected one leaves it unknown, and an unsubscribe forgets it. */
  lemma AnswerTakesEffect(b: Both, x: Name, kind: Kind, id: Name, success: bool, reply: Reply)
    requires (kind == Subscribing) != (id in b.channels)
    ensures var a := Executed(b, x, kind, id, Answer(success, reply));
      match kind
      case Subscribing =>
        a.channels == if success then b.channels[id := Listed(reply.streams)] else b.channels
      case Unsubscribing => a.channels == b.channels - {id}
      case Performing => a.channels == b.channels[id := Left(b.channels[id], reply)]
  {
    if kind == Subscribing && success {
      RepliedExactly(b.(channels := b.channels[id := {}]), x, id, reply);
      assert Left({}, reply) == Listed(reply.streams);
    } else if kind == Unsubscribing {
      RepliedExactly(b.(channels := b.channels - {id}), x, id, reply.(stopAllStreams := true));
    } else {
      RepliedExactly(b, x, id, reply);
    }
  }

  // When a stream is given back to the broadcaster.

  /** The broadcaster has what the tracker counts, as after every run of the tracker. */
  ghost predicate InStep(t: T.State) {
    t.subscribed == t.store.Keys
  }

  lemma {:induction false} RaisedKeeps(t: T.State, streams: seq<Name>)
    requires InStep(t)
    ensures var a := Raised(t, streams);
      && InStep(a) && a.store.Keys == t.store.Keys + Listed(Some(streams))
      && forall s :: s in t.store ==> a.store[s] >= t.store[s]
  {
    if streams != [] {
      var init, last := streams[..|streams| - 1], streams[|streams| - 1];
      RaisedKeeps(t, init);
      assert Listed(Some(streams)) == Listed(Some(init)) + {last};
    }
  }

  function Count(streams: seq<Name>, stream: Name): nat {
    if streams == [] then 0
    else Count(streams[..|streams| - 1], stream) + if streams[|streams| - 1] == stream then 1 else 0
  }

  /** The tracker's count of a stream, zero if it has none. */
  function Counted(t: T.State, stream: Name): nat {
    if stream in t.store then t.store[stream] else 0
  }

  /** Every stream that is started is counted once more, each time it is named. */
  lemma {:induction false} RaisedCounts(t: T.State, streams: seq<Name>, stream: Name)
    ensures Counted(Raised(t, streams), stream) == Counted(t, stream) + Count(streams, stream)
  {
    if streams != [] {
      RaisedCounts(t, streams[..|streams| - 1], stream);
    }
  }

  function ChannelsIn(pairs: seq<SessionStreams.Pair>, stream: Name): set<Name> {
    set p | p in pairs && p.0 == stream :: p.1
  }

  lemma {:induction false} RaisedByChannel(t: T.State, pairs: seq<SessionStreams.Pair>, stream: Name)
    requires NoDup(pairs)
    ensures Counted(RaisedAll(t, pairs), stream) == Counted(t, stream) + |ChannelsIn(pairs, stream)|
  {
    if pairs != [] {
      var init, last := pairs[..|pairs| - 1], pairs[|pairs| - 1];
      RaisedByChannel(t, init, stream);
      assert forall p :: p in pairs <==> p in init || p == last;
      if last.0 == stream {
        assert last !in init;
        assert ChannelsIn(pairs, stream) == ChannelsIn(init, stream) + {last.1};
      } else {
        assert ChannelsIn(pairs, stream) == ChannelsIn(init, stream);
      }
    }
  }

  /** A restore counts a stream once more for every channel of the view that has it. */
  lemma {:induction false} RestoredCounts(t: T.State, ch: Channels, order: seq<SessionStreams.Pair>, stream: Name)
    requires ListsAll(order, ch) && NoDup(order)
    ensures Counted(RaisedAll(t, order), stream) == Counted(t, stream) + |set id | id in ch && stream in ch[id]|
  {
    RaisedByChannel(t, order, stream);
    var ids := set id | id in ch && stream in ch[id];
    forall id | id in ids
      ensures id in ChannelsIn(order, stream)
    {
      assert (stream, id) in order;
    }
    assert ChannelsIn(order, stream) == ids;
  }

  /** The reply a command comes to handle, if it gets that far, and the channels known to the session by then. */
  function Handled(ch: Channels, kind: Kind, id: Name, rpc: Rpc): Option<(Channels, Reply)> {
    if (kind == Subscribing) == (id in ch) || rpc.Broken? then None
    else if rpc.Answer? && kind == Subscribing && rpc.success then Some((ch[id := {}], rpc.reply))
    else if rpc.Answer? && kind == Unsubscribing then Some((ch - {id}, rpc.reply.(stopAllStreams := true)))
    else Some((ch, rpc.reply))
  }

  /** A command gives a stream back to the broadcaster if and only if it handles a reply that gives the stream up and
      does not start it again, and the tracker counts it once. */
  lemma {:induction false} GivenBackIff(t: T.State, ch: Channels, kind: Kind, id: Name, rpc: Rpc, stream: Name)
    requires InStep(t) && stream in t.subscribed
    ensures InStep(ToldBy(t, ch, kind, id, rpc))
    ensures var h := Handled(ch, kind, id, rpc);
      stream !in ToldBy(t, ch, kind, id, rpc).subscribed <==>
        && h.Some? && stream in GivenUp(h.value.0, id, h.value.1) && stream !in Listed(h.value.1.streams)
        && t.store[stream] == 1
  {
    var h := Handled(ch, kind, id, rpc);
    if h.Some? {
      var (known, reply) := h.value;
      assert ToldBy(t, ch, kind, id, rpc) == Told(t, known, id, reply);
      var given := Dropped(t, GivenUp(known, id, reply));
      assert InStep(given);
      if reply.streams.Some? {
        RaisedKeeps(given, reply.streams.value);
      }
    }
  }

  /** An answered unsubscribe gives nothing back: it forgets the channel before it asks what the channel had. */
  lemma {:induction false} UnsubscribeGivesNothingBack(
      t: T.State, ch: Channels, id: Name, success: bool, reply: Reply)
    requires InStep(t)
    ensures var a := ToldBy(t, ch, Unsubscribing, id, Answer(success, reply));
      t.subscribed <= a.subscribed && forall s :: s in t.store ==> s in a.store && a.store[s] >= t.store[s]
  {
    if id in ch {
      assert Single(t, {}) == {} && Dropped(t, {}) == t;
      if reply.streams.Some? {
        RaisedKeeps(t, reply.streams.value);
      }
    }
  }

  /** A performed command told to stop all streams gives back exactly those of the channel that are counted once and
      not started again. */
  lemma {:induction false} StopAllGivesBack(
      t: T.State, ch: Channels, id: Name, success: bool, reply: Reply, stream: Name)
    requires InStep(t) && stream in t.subscribed && id in ch && reply.stopAllStreams
    ensures stream !in ToldBy(t, ch, Performing, id, Answer(success, reply)).subscribed <==>
      stream in ch[id] && t.store[stream] == 1 && stream !in Listed(reply.streams)
  {
    GivenBackIff(t, ch, Performing, id, Answer(success, reply), stream);
  }

  /** A channel subscribed and unsubscribed again: the hub may forget its streams, and the broadcaster keeps them. */
  lemma {:induction false} SubscribedForGood(
      t: T.State, b: Both, x: Name, id: Name, reply: Reply, last: Reply, success: bool)
    requires InStep(t) && id !in b.channels
    ensures var known := Executed(b, x, Subscribing, id, Answer(true, reply)).channels;
      var subscribed := ToldBy(t, b.channels, Subscribing, id, Answer(true, reply));
      Listed(reply.streams) <= ToldBy(subscribed, known, Unsubscribing, id, Answer(success, last)).subscribed
  {
    var known := Executed(b, x, Subscribing, id, Answer(true, reply)).channels;
    var subscribed := ToldBy(t, b.channels, Subscribing, id, Answer(true, reply));
    var given := Dropped(t, GivenUp(b.channels[id := {}], id, reply));
    assert InStep(given);
    if reply.streams.Some? {
      RaisedKeeps(given, reply.streams.value);
    }
    UnsubscribeGivesNothingBack(subscribed, known, id, success, last);
  }

  // Commands step by step.

  /** One step of a command, on the hub and on the session's view. */
  datatype Micro =
    | Know(id: Name)
    | Forget(id: Name)
    | StopAll(id: Name)
    | StopOne(id: Name, stream: Name)
    | StartOne(id: Name, stream: Name)

  function Take(b: Both, x: Name, m: Micro): Both {
    match m
    case Know(id) => b.(channels := b.channels[id := {}])
    case Forget(id) => b.(channels := b.channels - {id})
    case StopAll(id) => Both(H.Step(b.hub, H.UnsubscribeChannel(x, id)), WithoutStreams(b.channels, id))
    case StopOne(id, s) => Both(H.Step(b.hub, H.Unsubscribe(x, s, id)), WithoutStream(b.channels, id, s))
    case StartOne(id, s) => Both(H.Step(b.hub, H.Subscribe(x, s, id)), WithStream(b.channels, id, s))
  }

  function TakeAll(b: Both, x: Name, ms: seq<Micro>): Both {
    if ms == [] then b else Take(TakeAll(b, x, ms[..|ms| - 1]), x, ms[|ms| - 1])
  }

  lemma {:induction false} TakeConcat(b: Both, x: Name, p: seq<Micro>, q: seq<Micro>)
    ensures TakeAll(b, x, p + q) == TakeAll(TakeAll(b, x, p), x, q)
  {
    if q == [] {
      assert p + q == p;
    } else {
      TakeConcat(b, x, p, q[..|q| - 1]);
      assert (p + q)[..|p + q| - 1] == p + q[..|q| - 1];
    }
  }

  function Stops(id: Name, streams: seq<Name>): seq<Micro> {
    if streams == [] then [] else Stops(id, streams[..|streams| - 1]) + [StopOne(id, streams[|streams| - 1])]
  }

  function Starts(id: Name, streams: seq<Name>): seq<Micro> {
    if streams == [] then [] else Starts(id, streams[..|streams| - 1]) + [StartOne(id, streams[|streams| - 1])]
  }

  lemma {:induction false} TakeSnoc(b: Both, x: Name, ms: seq<Micro>, m: Micro)
    ensures TakeAll(b, x, ms + [m]) == Take(TakeAll(b, x, ms), x, m)
  {
    assert (ms + [m])[..|ms|] == ms;
  }

  lemma {:induction false} StopsAre(b: Both, x: Name, id: Name, streams: seq<Name>)
    ensures TakeAll(b, x, Stops(id, streams)) == Stop(b, x, id, streams)
  {
    if streams != [] {
      StopsAre(b, x, id, streams[..|streams| - 1]);
      TakeSnoc(b, x, Stops(id, streams[..|streams| - 1]), StopOne(id, streams[|streams| - 1]));
    }
  }

  lemma {:induction false} StartsAre(b: Both, x: Name, id: Name, streams: seq<Name>)
    ensures TakeAll(b, x, Starts(id, streams)) == Start(b, x, id, streams)
  {
    if streams != [] {
      StartsAre(b, x, id, streams[..|streams| - 1]);
      TakeSnoc(b, x, Starts(id, streams[..|streams| - 1]), StartOne(id, streams[|streams| - 1]));
    }
  }

  function StopPlan(id: Name, reply: Reply): seq<Micro> {
    if reply.stopAllStreams then [StopAll(id)]
    else if reply.stoppedStreams.Some? then Stops(id, reply.stoppedStreams.value)
    else []
  }

  function StartPlan(id: Name, reply: Reply): seq<Micro> {
    if reply.streams.Some? then Starts(id, reply.streams.value) else []
  }

  function ReplyPlan(id: Name, reply: Reply): seq<Micro> {
    StopPlan(id, reply) + StartPlan(id, reply)
  }

  lemma {:induction false} ReplyIsPlan(b: Both, x: Name, id: Name, reply: Reply)
    ensures TakeAll(b, x, ReplyPlan(id, reply)) == Replied(b, x, id, reply)
  {
    TakeConcat(b, x, StopPlan(id, reply), StartPlan(id, reply));
    if reply.stopAllStreams {
      TakeSnoc(b, x, [], StopAll(id));
      assert [] + [StopAll(id)] == [StopAll(id)];
    } else if reply.stoppedStreams.Some? {
      StopsAre(b, x, id, reply.stoppedStreams.value);
    }
    if reply.streams.Some? {
      StartsAre(Stopped(b, x, id, reply), x, id, reply.streams.value);
    }
  }

  /** The steps of a command, given what the session knows and what the application answers. */
  function Plan(ch: Channels, kind: Kind, id: Name, rpc: Rpc): seq<Micro> {
    if (kind == Subscribing) == (id in ch) || rpc.Broken? then []
    else if rpc.Odd? then ReplyPlan(id, rpc.reply)
    else match kind
      case Subscribing => (if rpc.success then [Know(id)] else []) + ReplyPlan(id, rpc.reply)
      case Unsubscribing => [Forget(id)] + ReplyPlan(id, rpc.reply.(stopAllStreams := true))
      case Performing => ReplyPlan(id, rpc.reply)
  }

  /** A command is its steps, one after the other. */
  lemma {:induction false} CommandIsPlan(b: Both, x: Name, kind: Kind, id: Name, rpc: Rpc)
    ensures TakeAll(b, x, Plan(b.channels, kind, id, rpc)) == Executed(b, x, kind, id, rpc)
  {
    if (kind == Subscribing) != (id in b.channels) && !rpc.Broken? {
      ReplyIsPlan(b, x, id, rpc.reply);
      if rpc.Answer? && kind == Subscribing && rpc.success {
        FirstThenReply(b, x, Know(id), id, rpc.reply);
      } else if rpc.Answer? && kind == Unsubscribing {
        FirstThenReply(b, x, Forget(id), id, rpc.reply.(stopAllStreams := true));
      } else {
        assert [] + ReplyPlan(id, rpc.reply) == ReplyPlan(id, rpc.reply);
      }
    }
  }

  lemma {:induction false} FirstThenReply(b: Both, x: Name, first: Micro, id: Name, reply: Reply)
    ensures TakeAll(b, x, [first] + ReplyPlan(id, reply)) == Replied(Take(b, x, first), x, id, reply)
  {
    TakeConcat(b, x, [first], ReplyPlan(id, reply));
    TakeSnoc(b, x, [], first);
    assert [] + [first] == [first];
    ReplyIsPlan(Take(b, x, first), x, id, reply);
  }

  lemma TakeAgrees(b: Both, x: Name, m: Micro)
    requires Agrees(b.hub.rel, x, b.channels)
    ensures var a := Take(b, x, m); Agrees(a.hub.rel, x, a.channels)
    ensures forall s, y, i :: y != x ==> ((s, y, i) in Take(b, x, m).hub.rel <==> (s, y, i) in b.hub.rel)
  {
    if m.StopAll? {
      StopAllAgrees(b, x, m.id);
    }
  }

  // Every run of every session.

  /** A session goes on with what it was doing after it is disconnected, and after it is removed from the hub, so its
      view stays. A restored one is first registered (`joining`), and then subscribed again to what it had, one
      stream after the other (`pending`). `leaving` has disconnected, and its removal from the hub is queued. */
  datatype System = System(
    hub: H.Flat,
    views: map<Name, Channels>,
    joining: set<Name>,
    pending: map<Name, set<SessionStreams.Pair>>,
    connected: set<Name>,
    leaving: set<Name>)

  datatype Op =
    | Arrive(session: Name, cached: Channels)
    | Register(session: Name)
    | Restart(session: Name, pair: SessionStreams.Pair)
    | Command(session: Name, step: Micro)
    | Leave(session: Name)
    | Remove(session: Name)

  function Pairs(ch: Channels): set<SessionStreams.Pair> {
    set id, s | id in ch && s in ch[id] :: (s, id)
  }

  /** Every session has an id of its own, and handles one command at a time once it is registered and restored. */
  predicate Possible(s: System, op: Op) {
    match op
    case Arrive(x, _) => x !in s.views
    case Register(x) => x in s.joining
    case Restart(x, p) => x in s.views && x !in s.joining && x in s.pending && p in s.pending[x]
    case Command(x, _) => x in s.views && x !in s.joining && x in s.pending && s.pending[x] == {}
    case Leave(x) => x in s.connected
    case Remove(x) => x in s.leaving
  }

  function Next(s: System, op: Op): System
    requires Possible(s, op)
  {
    match op
    case Arrive(x, cached) =>
      s.(views := s.views[x := cached], joining := s.joining + {x}, pending := s.pending[x := Pairs(cached)],
         connected := s.connected + {x})
    case Register(x) => s.(hub := H.Step(s.hub, H.AddSession(x)), joining := s.joining - {x})
    case Restart(x, p) =>
      s.(hub := H.Step(s.hub, H.Subscribe(x, p.0, p.1)), pending := s.pending[x := s.pending[x] - {p}])
    case Command(x, m) =>
      var b := Take(Both(s.hub, s.views[x]), x, m);
      s.(hub := b.hub, views := s.views[x := b.channels])
    case Leave(x) => s.(connected := s.connected - {x}, leaving := s.leaving + {x})
    case Remove(x) => s.(hub := H.Step(s.hub, H.RemoveSession(x)), leaving := s.leaving - {x})
  }

  const NOBODY := System(H.Flat({}, map[]), map[], {}, map[], {}, {})

  ghost predicate IsRun(ops: seq<Op>, ss: seq<System>) {
    && |ss| == |ops| + 1 && ss[0] == NOBODY
    && forall k :: 0 <= k < |ops| ==> Possible(ss[k], ops[k]) && ss[k + 1] == Next(ss[k], ops[k])
  }

  predicate Around(s: System, x: Name) {
    x in s.connected || x in s.leaving
  }

  /** What a view holds is in the hub, or waits to be subscribed again. */
  ghost predicate AgreesBut(rel: set<H.Triple>, x: Name, ch: Channels, pending: set<SessionStreams.Pair>) {
    forall id, s :: id in ch && s in ch[id] && (s, id) !in pending ==> (s, x, id) in rel
  }

  ghost predicate Unmentioned(rel: set<H.Triple>, x: Name) {
    forall t, i :: (t, x, i) !in rel
  }

  ghost predicate Sane(s: System) {
    && s.pending.Keys == s.views.Keys && s.joining <= s.views.Keys
    && s.connected <= s.views.Keys && s.leaving <= s.views.Keys && s.connected !! s.leaving
    && H.Tracked(s.hub)
    && (forall x :: x in s.joining || x !in s.views ==> Unmentioned(s.hub.rel, x))
    && (forall x :: Around(s, x) ==> AgreesBut(s.hub.rel, x, s.views[x], s.pending[x]))
  }

  /** What a step does to the hub, if anything. */
  function HubOp(op: Op): Option<H.Op> {
    match op
    case Arrive(_, _) => None
    case Register(x) => Some(H.AddSession(x))
    case Restart(x, p) => Some(H.Subscribe(x, p.0, p.1))
    case Command(x, m) => (
      match m
      case Know(_) => None
      case Forget(_) => None
      case StopAll(id) => Some(H.UnsubscribeChannel(x, id))
      case StopOne(id, s) => Some(H.Unsubscribe(x, s, id))
      case StartOne(id, s) => Some(H.Subscribe(x, s, id)))
    case Leave(_) => None
    case Remove(x) => Some(H.RemoveSession(x))
  }

  lemma {:induction false} NextHub(s: System, op: Op)
    requires Possible(s, op)
    ensures var h := HubOp(op); Next(s, op).hub == if h.Some? then H.Step(s.hub, h.value) else s.hub
    ensures HubOp(op).Some? ==> HubOp(op).value.session == op.session
  {
  }

  lemma {:induction false} NextOthers(s: System, op: Op, t: Name, y: Name, i: Name)
    requires Possible(s, op) && y != op.session
    ensures (t, y, i) in Next(s, op).hub.rel <==> (t, y, i) in s.hub.rel
  {
    NextHub(s, op);
    if HubOp(op).Some? {
      H.OthersUntouched(s.hub, HubOp(op).value, t, y, i);
    }
  }

  lemma {:induction false} NextTracked(s: System, op: Op)
    requires Sane(s) && Possible(s, op)
    ensures H.Tracked(Next(s, op).hub)
  {
    NextHub(s, op);
    if HubOp(op).Some? {
      if op.Register? {
        forall t | t in s.hub.rel
          ensures t.1 != op.session
        {
          assert Unmentioned(s.hub.rel, op.session);
          assert t == (t.0, t.1, t.2);
        }
      }
      H.StepTracked(s.hub, HubOp(op).value);
    }
  }

  lemma {:induction false} NextUnmentioned(s: System, op: Op, x: Name)
    requires Sane(s) && Possible(s, op) && (x in Next(s, op).joining || x !in Next(s, op).views)
    ensures Unmentioned(Next(s, op).hub.rel, x)
  {
    assert Unmentioned(s.hub.rel, x);
    forall t, i
      ensures (t, x, i) !in Next(s, op).hub.rel
    {
      assert (t, x, i) !in s.hub.rel;
      if x != op.session {
        NextOthers(s, op, t, x, i);
      } else if op.Remove? {
        LeavesNothing(s.hub, x);
      }
    }
  }

  lemma {:induction false} NextAgrees(s: System, op: Op, x: Name)
    requires Sane(s) && Possible(s, op) && Around(Next(s, op), x)
    ensures var s' := Next(s, op); AgreesBut(s'.hub.rel, x, s'.views[x], s'.pending[x])
  {
    var s' := Next(s, op);
    if x != op.session {
      forall id, t | id in s.views[x] && t in s.views[x][id] && (t, id) !in s.pending[x]
        ensures (t, x, id) in s'.hub.rel
      {
        NextOthers(s, op, t, x, id);
      }
    } else if op.Command? {
      TakeAgrees(Both(s.hub, s.views[x]), x, op.step);
    } else if op.Arrive? {
      assert forall id, t :: id in op.cached && t in op.cached[id] ==> (t, id) in Pairs(op.cached);
    }
  }

  lemma {:induction false} NextSane(s: System, op: Op)
    requires Sane(s) && Possible(s, op)
    ensures Sane(Next(s, op))
  {
    var s' := Next(s, op);
    NextTracked(s, op);
    forall x | x in s'.joining || x !in s'.views
      ensures Unmentioned(s'.hub.rel, x)
    {
      NextUnmentioned(s, op, x);
    }
    forall x | Around(s', x)
      ensures AgreesBut(s'.hub.rel, x, s'.views[x], s'.pending[x])
    {
      NextAgrees(s, op, x);
    }
  }

  lemma {:induction false} RunSane(ops: seq<Op>, ss: seq<System>, k: nat)
    requires IsRun(ops, ss) && k < |ss|
    ensures Sane(ss[k])
  {
    if k > 0 {
      RunSane(ops, ss, k - 1);
      NextSane(ss[k - 1], ops[k - 1]);
    }
  }

  /** In every state of every run of any number of sessions whose commands interleave step by step, whatever the
      application replies: every stream that a session believes it is subscribed to is subscribed in the hub, under
      that channel, or waits for its turn in the restore, as long as the session is not removed. */
  lemma {:induction false} ViewsWithinHub(ops: seq<Op>, ss: seq<System>, k: nat, x: Name, id: Name, stream: Name)
    requires IsRun(ops, ss) && k < |ss| && Around(ss[k], x)
    ensures x in ss[k].views && x in ss[k].pending
    ensures id in ss[k].views[x] && stream in ss[k].views[x][id] ==>
      (stream, x, id) in ss[k].hub.rel || (stream, id) in ss[k].pending[x]
  {
    RunSane(ops, ss, k);
    assert AgreesBut(ss[k].hub.rel, x, ss[k].views[x], ss[k].pending[x]);
  }

  ghost predicate Registered(s: System) {
    forall x :: Around(s, x) && x !in s.joining ==> x in s.hub.lists
  }

  lemma {:induction false} NextRegistered(s: System, op: Op)
    requires Sane(s) && Registered(s) && Possible(s, op)
    ensures Registered(Next(s, op))
  {
    var s' := Next(s, op);
    NextHub(s, op);
    forall x | Around(s', x) && x !in s'.joining
      ensures x in s'.hub.lists
    {
      if HubOp(op).Some? && x != op.session {
        H.OthersUntouched(s.hub, HubOp(op).value, x, x, x);
      }
    }
  }

  /** In every state of every run the hub knows every session that has come to be registered, until it is removed. */
  lemma {:induction false} RegisteredUntilRemoved(ops: seq<Op>, ss: seq<System>, k: nat)
    requires IsRun(ops, ss) && k < |ss|
    ensures Registered(ss[k])
  {
    if k > 0 {
      RegisteredUntilRemoved(ops, ss, k - 1);
      RunSane(ops, ss, k - 1);
      NextRegistered(ss[k - 1], ops[k - 1]);
    }
  }

  // Who is left behind.

  /** The hub mentions sessions that are connected or leaving only. */
  ghost predicate NobodyElse(s: System) {
    forall t, y, i :: (t, y, i) in s.hub.rel ==> Around(s, y)
  }

  /** A stream is started for a session that has been removed already. */
  predicate StartsTooLate(s: System, op: Op) {
    (op.Restart? || (op.Command? && op.step.StartOne?)) && !Around(s, op.session)
  }

  lemma {:induction false} LeavesNothing(f: H.Flat, x: Name)
    requires H.Tracked(f)
    ensures forall t, y, i :: (t, y, i) in H.Step(f, H.RemoveSession(x)).rel ==> y != x && (t, y, i) in f.rel
  {
    forall t, y, i | (t, y, i) in H.Step(f, H.RemoveSession(x)).rel
      ensures y != x && (t, y, i) in f.rel
    {
      if x in f.lists {
        H.InTriples(x, H.ElementsOf(f.lists[x]), t, y, i);
      }
    }
  }

  lemma {:induction false} OnlyStartsAdd(s: System, op: Op, t: Name, i: Name)
    requires Sane(s) && Possible(s, op) && (t, op.session, i) in Next(s, op).hub.rel
    ensures (op.Restart? || (op.Command? && op.step.StartOne?)) || (t, op.session, i) in s.hub.rel
    ensures !op.Remove?
  {
    if op.Remove? {
      LeavesNothing(s.hub, op.session);
    }
  }

  /** A step leaves somebody behind if and only if it starts a stream for a removed session. */
  lemma {:induction false} LeavesBehindIff(s: System, op: Op)
    requires Sane(s) && NobodyElse(s) && Possible(s, op)
    ensures NobodyElse(Next(s, op)) <==> !StartsTooLate(s, op)
  {
    var s' := Next(s, op);
    if StartsTooLate(s, op) {
      var (t, i) := if op.Restart? then op.pair else (op.step.stream, op.step.id);
      assert (t, op.session, i) in s'.hub.rel && !Around(s', op.session);
    } else {
      forall t, y, i | (t, y, i) in s'.hub.rel
        ensures Around(s', y)
      {
        if y != op.session {
          NextOthers(s, op, t, y, i);
        } else {
          OnlyStartsAdd(s, op, t, i);
        }
      }
    }
  }

  /** The hub lists sessions that are connected or leaving only. */
  predicate NobodyElseListed(s: System) {
    forall x :: x in s.hub.lists ==> Around(s, x)
  }

  /** The same for the hub's list of sessions, which also a session registered after its removal stays on. */
  lemma {:induction false} ListedBehindIff(s: System, op: Op)
    requires NobodyElseListed(s) && Possible(s, op)
    ensures NobodyElseListed(Next(s, op)) <==>
      !(StartsTooLate(s, op) || (op.Register? && !Around(s, op.session)))
  {
    var s' := Next(s, op);
    NextHub(s, op);
    if StartsTooLate(s, op) || (op.Register? && !Around(s, op.session)) {
      assert op.session in s'.hub.lists && !Around(s', op.session);
    } else {
      forall x | x in s'.hub.lists
        ensures Around(s', x)
      {
        if x != op.session && HubOp(op).Some? {
          H.OthersUntouched(s.hub, HubOp(op).value, x, x, x);
        }
      }
    }
  }

  /** Over a whole run, however sessions come and go: the hub never holds a subscription of a session that is neither
      connected nor waiting for its removal, if and only if no stream is ever started for a removed session. */
  lemma {:induction false} NobodyLeftBehindIff(ops: seq<Op>, ss: seq<System>)
    requires IsRun(ops, ss)
    ensures (forall k :: 0 <= k < |ss| ==> NobodyElse(ss[k])) <==>
      (forall k :: 0 <= k < |ops| ==> !StartsTooLate(ss[k], ops[k]))
  {
    if forall k :: 0 <= k < |ss| ==> NobodyElse(ss[k]) {
      forall k | 0 <= k < |ops|
        ensures !StartsTooLate(ss[k], ops[k])
      {
        RunSane(ops, ss, k);
        LeavesBehindIff(ss[k], ops[k]);
        assert NobodyElse(ss[k + 1]);
      }
    }
    if forall k :: 0 <= k < |ops| ==> !StartsTooLate(ss[k], ops[k]) {
      forall k | 0 <= k < |ss|
        ensures NobodyElse(ss[k])
      {
        InTimeNobodyElse(ops, ss, k);
      }
    }
  }

  lemma {:induction false} InTimeNobodyElse(ops: seq<Op>, ss: seq<System>, k: nat)
    requires IsRun(ops, ss) && k < |ss| && forall m :: 0 <= m < |ops| ==> !StartsTooLate(ss[m], ops[m])
    ensures NobodyElse(ss[k])
  {
    if k > 0 {
      InTimeNobodyElse(ops, ss, k - 1);
      RunSane(ops, ss, k - 1);
      LeavesBehindIff(ss[k - 1], ops[k - 1]);
    }
  }

  /** Once left behind, a subscription is there for good, unless the session itself goes on to stop it. */
  lemma {:induction false} LeftForGood(
      ops: seq<Op>, ss: seq<System>, from: nat, till: nat, stream: Name, x: Name, id: Name)
    requires IsRun(ops, ss) && from <= till < |ss|
    requires (stream, x, id) in ss[from].hub.rel && x in ss[from].views && !Around(ss[from], x)
    requires forall m :: from <= m < till ==> ops[m].session != x || !ops[m].Command?
    ensures (stream, x, id) in ss[till].hub.rel && !Around(ss[till], x)
    decreases till - from
  {
    if from < till {
      RunSane(ops, ss, from);
      StaysBehind(ss[from], ops[from], stream, x, id);
      LeftForGood(ops, ss, from + 1, till, stream, x, id);
    }
  }

  lemma {:induction false} StaysBehind(s: System, op: Op, stream: Name, x: Name, id: Name)
    requires Sane(s) && Possible(s, op) && (op.session != x || !op.Command?)
    requires (stream, x, id) in s.hub.rel && x in s.views && !Around(s, x)
    ensures (stream, x, id) in Next(s, op).hub.rel && x in Next(s, op).views && !Around(Next(s, op), x)
  {
    if op.session != x {
      NextOthers(s, op, stream, x, id);
    }
  }

  /** A session disconnects while it waits for the application. It is removed, and then the reply comes. */
  lemma {:induction false} ReplyAfterRemoval(x: Name, id: Name, stream: Name) returns (ops: seq<Op>, ss: seq<System>)
    ensures IsRun(ops, ss) && (stream, x, id) in ss[|ops|].hub.rel && !Around(ss[|ops|], x)
  {
    var view: Channels := map[];
    var empty: H.Flat := H.Flat({}, map[]);
    var added, started := H.Flat({}, map[x := []]), H.Flat({(stream, x, id)}, map[x := [(stream, id)]]);
    ops := [Arrive(x, view), Register(x), Leave(x), Remove(x), Command(x, StartOne(id, stream))];
    assert Pairs(view) == {};
    var arrived := System(empty, map[x := view], {x}, map[x := {}], {x}, {});
    var there := System(added, map[x := view], {}, map[x := {}], {x}, {});
    var left := System(added, map[x := view], {}, map[x := {}], {}, {x});
    var gone := System(empty, map[x := view], {}, map[x := {}], {}, {});
    var behind := System(started, map[x := view], {}, map[x := {}], {}, {});
    var list: map<Name, seq<SessionStreams.Pair>> := map[x := []];
    assert list - {x} == map[] && H.Step(added, H.RemoveSession(x)) == empty;
    assert [] + [(stream, id)] == [(stream, id)] && H.Step(empty, H.Subscribe(x, stream, id)) == started;
    ss := [NOBODY, arrived, there, left, gone, behind];
    RunOfFive(ops, ss);
  }

  lemma {:induction false} RunOfFive(ops: seq<Op>, ss: seq<System>)
    requires |ops| == 5 && |ss| == 6 && ss[0] == NOBODY
    requires Possible(ss[0], ops[0]) && ss[1] == Next(ss[0], ops[0])
    requires Possible(ss[1], ops[1]) && ss[2] == Next(ss[1], ops[1])
    requires Possible(ss[2], ops[2]) && ss[3] == Next(ss[2], ops[2])
    requires Possible(ss[3], ops[3]) && ss[4] == Next(ss[3], ops[3])
    requires Possible(ss[4], ops[4]) && ss[5] == Next(ss[4], ops[4])
    ensures IsRun(ops, ss)
  {
    forall k | 0 <= k < |ops|
      ensures Possible(ss[k], ops[k]) && ss[k + 1] == Next(ss[k], ops[k])
    {
      assert k == 0 || k == 1 || k == 2 || k == 3 || k == 4;
    }
  }
}
