/**
 What the gates deliver, over every interleaving of the publishers, the hub loop and the gate loops:
 in which order, to whom, and how often.
 */
module Delivery {
  import opened Basics
  import opened Names
  import opened Pipeline
  import Hub

  function HeldByHub(h: HubHand): seq<Item> {
    if h.HubIdle? then [] else [h.item]
  }

  function HeldByGate(h: GateHand): seq<Item> {
    if h.GateIdle? then [] else [h.item]
  }

  /** The broadcasts the hub has not handed on, in order. */
  function Behind(s: State): seq<Item> {
    HeldByHub(s.hubHand) + s.hubQueue
  }

  /** The broadcasts a gate is working on or has queued, in order. */
  function Lane(g: Gate): seq<Item> {
    HeldByGate(g.hand) + g.queue
  }

  predicate Increasing(items: seq<Item>) {
    forall i, j :: 0 <= i < j < |items| ==> items[i].no < items[j].no
  }

  function GateOf(w: World, n: nat, item: Item): nat
    requires n >= 1
  {
    Hub.Index(w.hash, item.msg.stream, n)
  }

  /** A sent broadcast comes before everything in the path, unless it is the one still being sent. */
  predicate Before(path: seq<Item>, hand: GateHand, item: Item) {
    forall i :: 0 <= i < |path| ==> item.no < path[i].no || (i == 0 && hand.Sending? && item == hand.item)
  }

  /** One of `n` gates: its lane and what is behind it are in the order of enqueueing, the lane holds only
      its own streams, and what was sent from it comes before. */
  predicate LaneOk(w: World, n: nat, g: nat, gate: Gate, behind: seq<Item>, nextNo: nat, sent: seq<Sent>)
    requires n >= 1
  {
    var path := Lane(gate) + behind;
    && Increasing(path)
    && (forall i :: 0 <= i < |path| ==> path[i].no < nextNo)
    && (forall i :: 0 <= i < |Lane(gate)| ==> GateOf(w, n, path[i]) == g)
    && (forall k :: 0 <= k < |sent| && GateOf(w, n, sent[k].item) == g ==>
          sent[k].item.no < nextNo && Before(path, gate.hand, sent[k].item))
  }

  /** Every gate's sends are in the order of enqueueing. */
  predicate SentInOrder(w: World, n: nat, sent: seq<Sent>)
    requires n >= 1
  {
    forall j, k :: 0 <= j < k < |sent| && GateOf(w, n, sent[j].item) == GateOf(w, n, sent[k].item) ==>
      sent[j].item.no <= sent[k].item.no
  }

  ghost predicate Ordered(w: World, s: State) {
    && |s.gates| >= 1 && SentInOrder(w, |s.gates|, s.sent)
    && (forall g :: 0 <= g < |s.gates| ==> LaneOk(w, |s.gates|, g, s.gates[g], Behind(s), |s.enqueued|, s.sent))
  }

  lemma LaneGrows(w: World, n: nat, g: nat, gate: Gate, behind: seq<Item>, nextNo: nat, sent: seq<Sent>, msg: Msg)
    requires n >= 1 && LaneOk(w, n, g, gate, behind, nextNo, sent)
    ensures LaneOk(w, n, g, gate, behind + [Item(nextNo, msg)], nextNo + 1, sent)
  {
    assert Lane(gate) + (behind + [Item(nextNo, msg)]) == Lane(gate) + behind + [Item(nextNo, msg)];
  }

  lemma LaneShrinks(w: World, n: nat, g: nat, gate: Gate, behind: seq<Item>, nextNo: nat, sent: seq<Sent>)
    requires n >= 1 && LaneOk(w, n, g, gate, behind, nextNo, sent) && behind != []
    ensures LaneOk(w, n, g, gate, behind[1..], nextNo, sent)
  {
    var path, path' := Lane(gate) + behind, Lane(gate) + behind[1..];
    assert forall i :: 0 <= i < |path'| ==> path'[i] == path[if i < |Lane(gate)| then i else i + 1];
  }

  lemma LaneForwards(w: World, n: nat, g: nat, gate: Gate, behind: seq<Item>, nextNo: nat, sent: seq<Sent>)
    requires n >= 1 && LaneOk(w, n, g, gate, behind, nextNo, sent)
    requires behind != [] && GateOf(w, n, behind[0]) == g
    ensures LaneOk(w, n, g, gate.(queue := gate.queue + [behind[0]]), behind[1..], nextNo, sent)
  {
    var gate' := gate.(queue := gate.queue + [behind[0]]);
    assert Lane(gate') == Lane(gate) + [behind[0]];
    assert Lane(gate') + behind[1..] == Lane(gate) + behind;
  }

  lemma LaneTakes(w: World, n: nat, g: nat, gate: Gate, behind: seq<Item>, nextNo: nat, sent: seq<Sent>)
    requires n >= 1 && LaneOk(w, n, g, gate, behind, nextNo, sent) && gate.hand.GateIdle? && gate.queue != []
    ensures LaneOk(w, n, g, Gate(gate.queue[1..], Took(gate.queue[0])), behind, nextNo, sent)
  {
    assert Lane(Gate(gate.queue[1..], Took(gate.queue[0]))) == Lane(gate);
  }

  lemma LaneSends(w: World, n: nat, g: nat, gate: Gate, behind: seq<Item>, nextNo: nat, sent: seq<Sent>,
                  left: set<(Name, Name)>, to: (Name, Name))
    requires n >= 1 && LaneOk(w, n, g, gate, behind, nextNo, sent) && gate.hand.Sending? && SentInOrder(w, n, sent)
    ensures var sent' := sent + [Sent(to.0, to.1, gate.hand.item)];
      && LaneOk(w, n, g, gate.(hand := Sending(gate.hand.item, left)), behind, nextNo, sent')
      && SentInOrder(w, n, sent') && GateOf(w, n, gate.hand.item) == g
  {
    var path, item := Lane(gate) + behind, gate.hand.item;
    assert path[0] == item;
    assert Before(path, gate.hand, item);
  }

  lemma LaneElsewhere(w: World, n: nat, g: nat, gate: Gate, behind: seq<Item>, nextNo: nat, sent: seq<Sent>, one: Sent)
    requires n >= 1 && LaneOk(w, n, g, gate, behind, nextNo, sent) && GateOf(w, n, one.item) != g
    ensures LaneOk(w, n, g, gate, behind, nextNo, sent + [one])
  {
  }

  lemma LaneDone(w: World, n: nat, g: nat, gate: Gate, behind: seq<Item>, nextNo: nat, sent: seq<Sent>)
    requires n >= 1 && LaneOk(w, n, g, gate, behind, nextNo, sent) && gate.hand.Sending?
    ensures LaneOk(w, n, g, gate.(hand := GateIdle), behind, nextNo, sent)
  {
    var path := Lane(gate) + behind;
    assert path[0] == gate.hand.item;
    assert Lane(gate.(hand := GateIdle)) + behind == path[1..];
    assert forall i :: 0 <= i < |path| - 1 ==> path[1..][i] == path[i + 1];
  }

  lemma OrderedStep(w: World, s: State, a: Action)
    requires Good(w) && Ordered(w, s) && Sound(s) && Enabled(s, a)
    ensures Ordered(w, Do(w, s, a))
  {
    var s', n := Do(w, s, a), |s.gates|;
    assert |s'.gates| == n;
    if a.GateSend? {
      LaneSends(w, n, a.gate, s.gates[a.gate], Behind(s), |s.enqueued|, s.sent,
        s.gates[a.gate].hand.left - {a.to}, a.to);
    }
    forall g | 0 <= g < n
      ensures LaneOk(w, n, g, s'.gates[g], Behind(s'), |s'.enqueued|, s'.sent)
    {
      LaneStep(w, s, a, g);
    }
  }

  lemma LaneStep(w: World, s: State, a: Action, g: nat)
    requires Good(w) && Ordered(w, s) && Sound(s) && Enabled(s, a) && g < |s.gates|
    ensures var s' := Do(w, s, a);
      |s'.gates| == |s.gates| && LaneOk(w, |s.gates|, g, s'.gates[g], Behind(s'), |s'.enqueued|, s'.sent)
  {
    assert LaneOk(w, |s.gates|, g, s.gates[g], Behind(s), |s.enqueued|, s.sent);
    if OnGate(a) {
      LaneGateStep(w, s, a, g);
    } else {
      LaneHubStep(w, s, a, g);
    }
  }

  lemma LaneHubStep(w: World, s: State, a: Action, g: nat)
    requires Good(w) && |s.gates| >= 1 && Sound(s) && Enabled(s, a) && g < |s.gates| && !OnGate(a)
    requires LaneOk(w, |s.gates|, g, s.gates[g], Behind(s), |s.enqueued|, s.sent)
    ensures var s' := Do(w, s, a);
      |s'.gates| == |s.gates| && LaneOk(w, |s.gates|, g, s'.gates[g], Behind(s'), |s'.enqueued|, s'.sent)
  {
    var s', n, gate, behind := Do(w, s, a), |s.gates|, s.gates[g], Behind(s);
    if a.Enqueue? {
      LaneGrows(w, n, g, gate, behind, |s.enqueued|, s.sent, s.pubs[a.pub].msg);
      assert Behind(s') == behind + [Item(|s.enqueued|, s.pubs[a.pub].msg)];
    } else if a.HubCheck? {
      LaneShrinks(w, n, g, gate, behind, |s.enqueued|, s.sent);
      assert Behind(s') == if s'.hubHand.HubIdle? then behind[1..] else behind;
    } else if a.HubForward? {
      assert Behind(s') == behind[1..] && behind[0] == s.hubHand.item;
      if GateOf(w, n, s.hubHand.item) == g {
        LaneForwards(w, n, g, gate, behind, |s.enqueued|, s.sent);
      } else {
        LaneShrinks(w, n, g, gate, behind, |s.enqueued|, s.sent);
      }
    } else {
      assert Behind(s') == behind;
    }
  }

  lemma LaneGateStep(w: World, s: State, a: Action, g: nat)
    requires Good(w) && Ordered(w, s) && Sound(s) && Enabled(s, a) && g < |s.gates| && OnGate(a)
    requires LaneOk(w, |s.gates|, g, s.gates[g], Behind(s), |s.enqueued|, s.sent)
    ensures var s' := Do(w, s, a);
      |s'.gates| == |s.gates| && LaneOk(w, |s.gates|, g, s'.gates[g], Behind(s'), |s'.enqueued|, s'.sent)
  {
    var s', n, gate, behind := Do(w, s, a), |s.gates|, s.gates[g], Behind(s);
    assert Behind(s') == behind;
    match a
    case GateTake(h) =>
      if h == g {
        LaneTakes(w, n, g, gate, behind, |s.enqueued|, s.sent);
      }
    case GateSnapshot(h) =>
      if h == g {
        assert Lane(s'.gates[g]) == Lane(gate);
      }
    case GateSend(h, to) =>
      LaneSends(w, n, h, s.gates[h], behind, |s.enqueued|, s.sent, s.gates[h].hand.left - {to}, to);
      if h != g {
        LaneElsewhere(w, n, g, gate, behind, |s.enqueued|, s.sent, Sent(to.0, to.1, s.gates[h].hand.item));
      }
    case GateDone(h) =>
      if h == g {
        LaneDone(w, n, g, gate, behind, |s.enqueued|, s.sent);
      }
  }

  // Exactly once.

  ghost predicate HasNo(items: seq<Item>, no: nat) {
    exists i :: 0 <= i < |items| && items[i].no == no
  }

  lemma HasNoSplit(a: seq<Item>, b: seq<Item>, no: nat)
    ensures HasNo(a + b, no) <==> HasNo(a, no) || HasNo(b, no)
  {
    if i :| 0 <= i < |a| && a[i].no == no {
      assert (a + b)[i] == a[i];
    }
    if i :| 0 <= i < |b| && b[i].no == no {
      assert (a + b)[|a| + i] == b[i];
    }
  }

  lemma HasNoHead(items: seq<Item>, no: nat)
    requires items != []
    ensures HasNo(items, no) <==> items[0].no == no || HasNo(items[1..], no)
  {
    assert items == [items[0]] + items[1..];
    HasNoSplit([items[0]], items[1..], no);
    assert HasNo([items[0]], no) <==> items[0].no == no;
  }

  /** The broadcasts of a gate whose snapshot has not been taken yet. */
  function Untaken(gate: Gate): seq<Item> {
    (if gate.hand.Took? then [gate.hand.item] else []) + gate.queue
  }

  /** A broadcast whose snapshot has not been taken yet, anywhere. */
  ghost predicate Waiting(s: State, no: nat) {
    HasNo(Behind(s), no) || exists g :: 0 <= g < |s.gates| && HasNo(Untaken(s.gates[g]), no)
  }

  ghost predicate InLane(gate: Gate, no: nat) {
    HasNo(Lane(gate), no)
  }

  /** Numbers are given once: no broadcast is in two lanes, and none is waiting after its snapshot. */
  ghost predicate Numbered(s: State) {
    && (forall no :: no in s.snapshots ==> no < |s.enqueued| && !Waiting(s, no))
    && (forall g, h, no :: 0 <= g < |s.gates| && 0 <= h < |s.gates| && g != h ==>
      !(InLane(s.gates[g], no) && InLane(s.gates[h], no)))
  }

  ghost predicate SentTo(sent: seq<Sent>, no: nat, to: (Name, Name)) {
    exists k :: 0 <= k < |sent| && sent[k].item.no == no && (sent[k].session, sent[k].identifier) == to
  }

  predicate Owes(hand: GateHand, no: nat, to: (Name, Name)) {
    hand.Sending? && hand.item.no == no && to in hand.left
  }

  ghost predicate LeftTo(gates: seq<Gate>, no: nat, to: (Name, Name)) {
    exists g :: 0 <= g < |gates| && Owes(gates[g].hand, no, to)
  }

  /** Everyone in a snapshot has been sent the broadcast, or will be, and no one else; no one twice. */
  ghost predicate Fanned(s: State) {
    && (forall no, to :: no in s.snapshots ==>
      (to in s.snapshots[no] <==> SentTo(s.sent, no, to) || LeftTo(s.gates, no, to)))
    && (forall no, to :: !(SentTo(s.sent, no, to) && LeftTo(s.gates, no, to)))
    && (forall k :: 0 <= k < |s.sent| ==>
      s.sent[k].item.no in s.snapshots && s.sent[k].item.msg.exclude != Some(s.sent[k].session))
    && (forall j, k :: 0 <= j < k < |s.sent| && s.sent[j].item.no == s.sent[k].item.no ==>
          (s.sent[j].session, s.sent[j].identifier) != (s.sent[k].session, s.sent[k].identifier))
    && (forall g :: 0 <= g < |s.gates| && s.gates[g].hand.Sending? ==>
          var hand := s.gates[g].hand;
            hand.item.no in s.snapshots && forall to :: to in hand.left ==> hand.item.msg.exclude != Some(to.0))
  }

  lemma SentToAppend(sent: seq<Sent>, one: Sent, no: nat, to: (Name, Name))
    ensures SentTo(sent + [one], no, to) <==>
      SentTo(sent, no, to) || (one.item.no == no && (one.session, one.identifier) == to)
  {
    var longer := sent + [one];
    assert longer[|sent|] == one;
    if k :| 0 <= k < |sent| && sent[k].item.no == no && (sent[k].session, sent[k].identifier) == to {
      assert longer[k] == sent[k];
    }
  }

  /** What is waiting was waiting already, or is the broadcast just enqueued. */
  lemma WaitingStep(w: World, s: State, a: Action, no: nat)
    requires Good(w) && |s.gates| >= 1 && Sound(s) && Enabled(s, a)
    ensures Waiting(Do(w, s, a), no) ==> Waiting(s, no) || (a.Enqueue? && no == |s.enqueued|)
  {
    if OnGate(a) {
      WaitingGateStep(w, s, a, no);
    } else {
      WaitingHubStep(w, s, a, no);
    }
  }

  lemma WaitingHubStep(w: World, s: State, a: Action, no: nat)
    requires Good(w) && |s.gates| >= 1 && Sound(s) && Enabled(s, a) && !OnGate(a)
    ensures Waiting(Do(w, s, a), no) ==> Waiting(s, no) || (a.Enqueue? && no == |s.enqueued|)
  {
    var s' := Do(w, s, a);
    if a.Enqueue? {
      var last := [Item(|s.enqueued|, s.pubs[a.pub].msg)];
      assert Behind(s') == Behind(s) + last;
      HasNoSplit(Behind(s), last, no);
    } else if a.HubCheck? {
      assert Behind(s)[1..] == s.hubQueue;
      assert Behind(s') == if s'.hubHand.HubIdle? then Behind(s)[1..] else Behind(s);
      HasNoHead(Behind(s), no);
    } else if a.HubForward? {
      WaitingForward(w, s, no);
    } else {
      assert Behind(s') == Behind(s) && s'.gates == s.gates;
    }
  }

  lemma WaitingForward(w: World, s: State, no: nat)
    requires Good(w) && |s.gates| >= 1 && Sound(s) && Enabled(s, HubForward)
    ensures Waiting(Do(w, s, HubForward), no) ==> Waiting(s, no)
  {
    var s', g := Do(w, s, HubForward), GateOf(w, |s.gates|, s.hubHand.item);
    assert Behind(s)[1..] == Behind(s') && Behind(s)[0] == s.hubHand.item;
    HasNoHead(Behind(s), no);
    assert Untaken(s'.gates[g]) == Untaken(s.gates[g]) + [s.hubHand.item];
    HasNoSplit(Untaken(s.gates[g]), [s.hubHand.item], no);
    assert forall h :: 0 <= h < |s.gates| && h != g ==> s'.gates[h] == s.gates[h];
  }

  lemma WaitingGateStep(w: World, s: State, a: Action, no: nat)
    requires Good(w) && |s.gates| >= 1 && Sound(s) && Enabled(s, a) && OnGate(a)
    ensures Waiting(Do(w, s, a), no) ==> Waiting(s, no)
  {
    var s', g := Do(w, s, a), a.gate;
    assert Behind(s') == Behind(s);
    if a.GateSnapshot? {
      assert Untaken(s'.gates[g]) == Untaken(s.gates[g])[1..];
      HasNoHead(Untaken(s.gates[g]), no);
    } else {
      assert Untaken(s'.gates[g]) == Untaken(s.gates[g]);
    }
    assert forall h :: 0 <= h < |s.gates| && h != g ==> s'.gates[h] == s.gates[h];
  }

  /** What is in a lane was there already, or was just forwarded. */
  lemma LanesStep(w: World, s: State, a: Action, g: nat, no: nat)
    requires Good(w) && g < |s.gates| && Sound(s) && Enabled(s, a)
    ensures var s' := Do(w, s, a);
      && |s'.gates| == |s.gates|
      && (InLane(s'.gates[g], no) && !InLane(s.gates[g], no) ==>
            a.HubForward? && g == GateOf(w, |s.gates|, s.hubHand.item) && no == s.hubHand.item.no)
  {
    var s' := Do(w, s, a);
    match a
    case HubForward =>
      if g == GateOf(w, |s.gates|, s.hubHand.item) {
        assert Lane(s'.gates[g]) == Lane(s.gates[g]) + [s.hubHand.item];
        HasNoSplit(Lane(s.gates[g]), [s.hubHand.item], no);
      }
    case GateTake(h) =>
      if g == h {
        assert Lane(s'.gates[g]) == Lane(s.gates[g]);
      }
    case GateSnapshot(h) =>
      if g == h {
        assert Lane(s'.gates[g]) == Lane(s.gates[g]);
      }
    case GateSend(h, to) =>
      if g == h {
        assert Lane(s'.gates[g]) == Lane(s.gates[g]);
      }
    case GateDone(h) =>
      if g == h {
        assert Lane(s'.gates[g]) == Lane(s.gates[g])[1..];
        HasNoHead(Lane(s.gates[g]), no);
      }
    case _ =>
  }

  /** A broadcast behind the gates is in no lane, and the one in a gate's hand is not behind it. */
  lemma PathDistinct(w: World, s: State, g: nat)
    requires Ordered(w, s) && g < |s.gates|
    ensures Behind(s) != [] ==> !InLane(s.gates[g], Behind(s)[0].no)
    ensures s.gates[g].hand.Took? ==> var no := s.gates[g].hand.item.no;
      !HasNo(Behind(s), no) && !HasNo(s.gates[g].queue, no) && InLane(s.gates[g], no)
  {
    var lane, behind := Lane(s.gates[g]), Behind(s);
    assert LaneOk(w, |s.gates|, g, s.gates[g], behind, |s.enqueued|, s.sent);
    var path := lane + behind;
    assert forall i :: 0 <= i < |lane| ==> path[i] == lane[i];
    assert forall i :: 0 <= i < |behind| ==> path[|lane| + i] == behind[i];
    if s.gates[g].hand.Took? {
      assert lane[0] == s.gates[g].hand.item;
      assert forall i :: 0 <= i < |s.gates[g].queue| ==> path[1 + i] == s.gates[g].queue[i];
    }
  }

  lemma NumberedStep(w: World, s: State, a: Action)
    requires Good(w) && Ordered(w, s) && Numbered(s) && Sound(s) && Enabled(s, a)
    ensures Numbered(Do(w, s, a))
  {
    var s' := Do(w, s, a);
    forall no | no in s'.snapshots
      ensures no < |s'.enqueued| && !Waiting(s', no)
    {
      WaitingStep(w, s, a, no);
      if a.GateSnapshot? && no == s.gates[a.gate].hand.item.no {
        SnapshotNotWaiting(w, s, a.gate);
      }
    }
    forall g, h, no | 0 <= g < |s'.gates| && 0 <= h < |s'.gates| && g != h
      ensures !(InLane(s'.gates[g], no) && InLane(s'.gates[h], no))
    {
      LanesStep(w, s, a, g, no);
      LanesStep(w, s, a, h, no);
      PathDistinct(w, s, g);
      PathDistinct(w, s, h);
    }
  }

  lemma SnapshotNotWaiting(w: World, s: State, g: nat)
    requires Good(w) && Ordered(w, s) && Numbered(s) && Sound(s) && Enabled(s, GateSnapshot(g))
    ensures var no := s.gates[g].hand.item.no; no < |s.enqueued| && !Waiting(Do(w, s, GateSnapshot(g)), no)
  {
    var s', no := Do(w, s, GateSnapshot(g)), s.gates[g].hand.item.no;
    PathDistinct(w, s, g);
    assert LaneOk(w, |s.gates|, g, s.gates[g], Behind(s), |s.enqueued|, s.sent);
    assert (Lane(s.gates[g]) + Behind(s))[0] == s.gates[g].hand.item;
    assert Behind(s') == Behind(s);
    assert Untaken(s'.gates[g]) == s.gates[g].queue;
    forall h | 0 <= h < |s.gates| && h != g
      ensures !HasNo(Untaken(s'.gates[h]), no)
    {
      assert s'.gates[h] == s.gates[h];
      UntakenInLane(s.gates[h], no);
      assert !(InLane(s.gates[g], no) && InLane(s.gates[h], no));
    }
  }

  lemma UntakenInLane(gate: Gate, no: nat)
    ensures HasNo(Untaken(gate), no) ==> InLane(gate, no)
  {
    HasNoSplit(HeldByGate(gate.hand), gate.queue, no);
    HasNoSplit(if gate.hand.Took? then [gate.hand.item] else [], gate.queue, no);
  }

  lemma FannedSnapshot(w: World, s: State, g: nat)
    requires Good(w) && Numbered(s) && Fanned(s) && Sound(s) && Enabled(s, GateSnapshot(g))
    ensures Fanned(Do(w, s, GateSnapshot(g)))
  {
    var s', item := Do(w, s, GateSnapshot(g)), s.gates[g].hand.item;
    assert Untaken(s.gates[g])[0] == item;
    assert HasNo(Untaken(s.gates[g]), item.no) && Waiting(s, item.no);
    forall no, to
      ensures LeftTo(s'.gates, no, to) <==> LeftTo(s.gates, no, to) || (no == item.no && to in s'.snapshots[no])
    {
      assert s'.gates[g].hand == Sending(item, s'.snapshots[item.no]);
      if h :| 0 <= h < |s.gates| && Owes(s.gates[h].hand, no, to) {
        assert s'.gates[h] == s.gates[h];
      }
    }
    assert forall to :: !SentTo(s.sent, item.no, to) && !LeftTo(s.gates, item.no, to);
  }

  lemma FannedSend(w: World, s: State, g: nat, to: (Name, Name))
    requires Good(w) && Numbered(s) && Fanned(s) && Sound(s) && Enabled(s, GateSend(g, to))
    ensures Fanned(Do(w, s, GateSend(g, to)))
  {
    var s', hand := Do(w, s, GateSend(g, to)), s.gates[g].hand;
    var one := Sent(to.0, to.1, hand.item);
    assert LeftTo(s.gates, hand.item.no, to);
    HandAlone(s, g);
    forall no, p
      ensures SentTo(s'.sent, no, p) <==> SentTo(s.sent, no, p) || (no == hand.item.no && p == to)
      ensures LeftTo(s'.gates, no, p) <==> LeftTo(s.gates, no, p) && !(no == hand.item.no && p == to)
    {
      SentToAppend(s.sent, one, no, p);
      if h :| 0 <= h < |s.gates| && Owes(s.gates[h].hand, no, p) {
        assert h != g ==> s'.gates[h] == s.gates[h];
        assert s'.gates[h].hand.Sending?;
      }
    }
    forall j, k | 0 <= j < k < |s'.sent| && s'.sent[j].item.no == s'.sent[k].item.no
      ensures (s'.sent[j].session, s'.sent[j].identifier) != (s'.sent[k].session, s'.sent[k].identifier)
    {
      assert !SentTo(s.sent, hand.item.no, to);
    }
  }

  /** No other gate is sending the broadcast this gate is sending. */
  lemma HandAlone(s: State, g: nat)
    requires Numbered(s) && g < |s.gates| && s.gates[g].hand.Sending?
    ensures forall h :: 0 <= h < |s.gates| && h != g && s.gates[h].hand.Sending? ==>
      s.gates[h].hand.item.no != s.gates[g].hand.item.no
  {
    var no := s.gates[g].hand.item.no;
    assert Lane(s.gates[g])[0].no == no;
    forall h | 0 <= h < |s.gates| && h != g && s.gates[h].hand.Sending?
      ensures s.gates[h].hand.item.no != no
    {
      assert Lane(s.gates[h])[0] == s.gates[h].hand.item;
      assert !(InLane(s.gates[g], no) && InLane(s.gates[h], no));
    }
  }

  lemma FannedDone(w: World, s: State, g: nat)
    requires Good(w) && Fanned(s) && Sound(s) && Enabled(s, GateDone(g))
    ensures Fanned(Do(w, s, GateDone(g)))
  {
    SameHands(s.gates, Do(w, s, GateDone(g)).gates, g);
  }

  /** A change of one gate that neither has nor gets anyone left to send to. */
  lemma SameHands(gates: seq<Gate>, gates': seq<Gate>, g: nat)
    requires g < |gates| == |gates'| && gates' == gates[g := gates'[g]]
    requires gates[g].hand.Sending? ==> gates[g].hand.left == {} || gates'[g].hand == gates[g].hand
    requires gates'[g].hand.Sending? ==> gates'[g].hand == gates[g].hand
    ensures forall no, to :: LeftTo(gates', no, to) <==> LeftTo(gates, no, to)
  {
    forall no, to
      ensures LeftTo(gates', no, to) <==> LeftTo(gates, no, to)
    {
      if h :| 0 <= h < |gates| && gates[h].hand.Sending? && gates[h].hand.item.no == no && to in gates[h].hand.left {
        assert gates'[h].hand == gates[h].hand;
      }
      if h :| 0 <= h < |gates| && gates'[h].hand.Sending? && gates'[h].hand.item.no == no && to in gates'[h].hand.left {
        assert gates'[h].hand == gates[h].hand;
      }
    }
  }

  lemma FannedStep(w: World, s: State, a: Action)
    requires Good(w) && Numbered(s) && Fanned(s) && Sound(s) && Enabled(s, a)
    ensures Fanned(Do(w, s, a))
  {
    var s' := Do(w, s, a);
    match a
    case HubForward => SameHands(s.gates, s'.gates, GateOf(w, |s.gates|, s.hubHand.item));
    case GateTake(g) => SameHands(s.gates, s'.gates, g);
    case GateSnapshot(g) => FannedSnapshot(w, s, g);
    case GateSend(g, to) => FannedSend(w, s, g, to);
    case GateDone(g) => FannedDone(w, s, g);
    case _ =>
  }

  lemma {:induction false} RunDelivers(w: World, gates: nat, acts: seq<Action>, ss: seq<State>)
    requires Good(w) && gates >= 1 && IsRun(w, gates, acts, ss)
    ensures var s := ss[|acts|]; |s.gates| == gates && Ordered(w, s) && Numbered(s) && Fanned(s)
    decreases |acts|
  {
    if acts != [] {
      var n := |acts| - 1;
      RunDelivers(w, gates, acts[..n], ss[..n + 1]);
      OrderedStep(w, ss[n], acts[n]);
      NumberedStep(w, ss[n], acts[n]);
      FannedStep(w, ss[n], acts[n]);
    }
  }

  /** Over every interleaving, what is sent to a session for a stream follows the order of enqueueing. */
  lemma SendsFollowEnqueueOrder(w: World, gates: nat, acts: seq<Action>, ss: seq<State>, j: nat, k: nat)
    requires Good(w) && gates >= 1 && IsRun(w, gates, acts, ss)
    requires var sent := ss[|acts|].sent; j < k < |sent| && sent[j].item.msg.stream == sent[k].item.msg.stream
    ensures var sent := ss[|acts|].sent;
      && sent[j].item.no <= sent[k].item.no
      && ((sent[j].session, sent[j].identifier) == (sent[k].session, sent[k].identifier) ==>
        sent[j].item.no < sent[k].item.no)
  {
    RunDelivers(w, gates, acts, ss);
  }

  /** Over every interleaving, a broadcast that a gate has finished was sent exactly once to everyone in
      its snapshot, and to no one else; and no broadcast is ever sent to the socket it excludes. */
  lemma SentExactlyOnce(w: World, gates: nat, acts: seq<Action>, ss: seq<State>, no: nat, to: (Name, Name))
    requires Good(w) && gates >= 1 && IsRun(w, gates, acts, ss)
    requires var s := ss[|acts|]; no in s.snapshots && forall g :: 0 <= g < |s.gates| ==> !InLane(s.gates[g], no)
    ensures var s := ss[|acts|];
      && (to in s.snapshots[no] <==> SentTo(s.sent, no, to))
      && (forall j, k :: 0 <= j < k < |s.sent| && s.sent[j].item.no == s.sent[k].item.no ==>
            (s.sent[j].session, s.sent[j].identifier) != (s.sent[k].session, s.sent[k].identifier))
      && (forall k :: 0 <= k < |s.sent| ==> s.sent[k].item.msg.exclude != Some(s.sent[k].session))
  {
    RunDelivers(w, gates, acts, ss);
    var s := ss[|acts|];
    forall g | 0 <= g < |s.gates| && s.gates[g].hand.Sending?
      ensures InLane(s.gates[g], s.gates[g].hand.item.no)
    {
      assert Lane(s.gates[g])[0] == s.gates[g].hand.item;
    }
  }

  // Who is in a snapshot.

  /** At step `k` a gate takes the snapshot for this broadcast. */
  predicate SnapsAt(acts: seq<Action>, ss: seq<State>, k: nat, item: Item) {
    && k < |acts| && k < |ss| && acts[k].GateSnapshot? && acts[k].gate < |ss[k].gates|
    && ss[k].gates[acts[k].gate].hand == Took(item)
  }

  /** Subscribed to the stream of the broadcast, and not the socket it excludes. */
  predicate Listens(rel: set<Hub.Triple>, msg: Msg, to: (Name, Name)) {
    (msg.stream, to.0, to.1) in rel && msg.exclude != Some(to.0)
  }

  /** A snapshot holds exactly those who are subscribed to the stream of the broadcast when it is taken, under the
      identifiers they are subscribed with, except for the excluded socket. */
  lemma {:induction false} SnapshotExactly(
      w: World, gates: nat, acts: seq<Action>, ss: seq<State>, k: nat, item: Item, to: (Name, Name))
    requires Good(w) && IsRun(w, gates, acts, ss) && SnapsAt(acts, ss, k, item)
    ensures item.no in ss[k + 1].snapshots
    ensures to in ss[k + 1].snapshots[item.no] <==>
      (item.msg.stream, to.0, to.1) in ss[k].rel && item.msg.exclude != Some(to.0)
  {
    AudienceIs(ss[k].rel, item.msg, to);
  }

  lemma {:induction false} AudienceIs(rel: set<Hub.Triple>, msg: Msg, to: (Name, Name))
    ensures to in Audience(rel, msg) <==> Listens(rel, msg, to)
  {
    if Listens(rel, msg, to) {
      var t := (msg.stream, to.0, to.1);
      assert t in rel && (t.1, t.2) == to;
    }
  }

  ghost predicate Heard(acts: seq<Action>, ss: seq<State>, till: nat, item: Item, to: (Name, Name)) {
    exists k :: 0 <= k < till && SnapsAt(acts, ss, k, item) && Listens(ss[k].rel, item.msg, to)
  }

  ghost predicate HandHeard(acts: seq<Action>, ss: seq<State>, till: nat, hand: GateHand) {
    hand.Sending? ==> forall to :: to in hand.left ==> Heard(acts, ss, till, hand.item, to)
  }

  ghost predicate AllHeard(acts: seq<Action>, ss: seq<State>, till: nat, s: State) {
    && (forall j :: 0 <= j < |s.sent| ==>
          Heard(acts, ss, till, s.sent[j].item, (s.sent[j].session, s.sent[j].identifier)))
    && (forall g :: 0 <= g < |s.gates| ==> HandHeard(acts, ss, till, s.gates[g].hand))
  }

  lemma {:induction false} HeardLonger(acts: seq<Action>, ss: seq<State>, till: nat, item: Item, to: (Name, Name))
    requires Heard(acts, ss, till, item, to)
    ensures Heard(acts, ss, till + 1, item, to)
  {
  }

  /** Whom a gate has yet to send to, it had before, or has just taken the snapshot. */
  lemma {:induction false} HandAfter(w: World, s: State, a: Action, g: nat)
    requires Good(w) && Sound(s) && Enabled(s, a) && g < |Do(w, s, a).gates| && Do(w, s, a).gates[g].hand.Sending?
    ensures g < |s.gates|
    ensures var was, hand := s.gates[g].hand, Do(w, s, a).gates[g].hand;
      || (a == GateSnapshot(g) && was == Took(hand.item) && hand.left == Audience(s.rel, hand.item.msg))
      || (a != GateSnapshot(g) && was.Sending? && was.item == hand.item && hand.left <= was.left)
  {
  }

  /** What is sent was sent before, or was yet to be. */
  lemma {:induction false} SendAfter(w: World, s: State, a: Action, j: nat)
    requires Good(w) && Sound(s) && Enabled(s, a) && j < |Do(w, s, a).sent|
    ensures j < |s.sent| ==> Do(w, s, a).sent[j] == s.sent[j]
    ensures j >= |s.sent| ==>
      var one := Do(w, s, a).sent[j];
      && a.GateSend? && a.gate < |s.gates| && s.gates[a.gate].hand.Sending?
      && one.item == s.gates[a.gate].hand.item && (one.session, one.identifier) in s.gates[a.gate].hand.left
  {
  }

  lemma {:induction false} HandHeardStep(
      w: World, gates: nat, acts: seq<Action>, ss: seq<State>, k: nat, g: nat)
    requires Good(w) && IsRun(w, gates, acts, ss) && k < |acts| && AllHeard(acts, ss, k, ss[k])
    requires g < |ss[k + 1].gates|
    ensures HandHeard(acts, ss, k + 1, ss[k + 1].gates[g].hand)
  {
    var s, a, hand := ss[k], acts[k], ss[k + 1].gates[g].hand;
    if hand.Sending? {
      HandAfter(w, s, a, g);
      forall to | to in hand.left
        ensures Heard(acts, ss, k + 1, hand.item, to)
      {
        if a == GateSnapshot(g) {
          AudienceIs(s.rel, hand.item.msg, to);
          assert SnapsAt(acts, ss, k, hand.item);
        } else {
          assert HandHeard(acts, ss, k, s.gates[g].hand);
          HeardLonger(acts, ss, k, hand.item, to);
        }
      }
    }
  }

  lemma {:induction false} SendsHeardStep(
      w: World, gates: nat, acts: seq<Action>, ss: seq<State>, k: nat, j: nat)
    requires Good(w) && IsRun(w, gates, acts, ss) && k < |acts| && AllHeard(acts, ss, k, ss[k])
    requires j < |ss[k + 1].sent|
    ensures var one := ss[k + 1].sent[j]; Heard(acts, ss, k + 1, one.item, (one.session, one.identifier))
  {
    var s, a, one := ss[k], acts[k], ss[k + 1].sent[j];
    SendAfter(w, s, a, j);
    if j >= |s.sent| {
      assert HandHeard(acts, ss, k, s.gates[a.gate].hand);
    }
    HeardLonger(acts, ss, k, one.item, (one.session, one.identifier));
  }

  lemma {:induction false} RunHeard(w: World, gates: nat, acts: seq<Action>, ss: seq<State>, k: nat)
    requires Good(w) && IsRun(w, gates, acts, ss) && k < |ss|
    ensures AllHeard(acts, ss, k, ss[k])
  {
    if k > 0 {
      RunHeard(w, gates, acts, ss, k - 1);
      forall j | 0 <= j < |ss[k].sent|
        ensures var one := ss[k].sent[j]; Heard(acts, ss, k, one.item, (one.session, one.identifier))
      {
        SendsHeardStep(w, gates, acts, ss, k - 1, j);
      }
      forall g | 0 <= g < |ss[k].gates|
        ensures HandHeard(acts, ss, k, ss[k].gates[g].hand)
      {
        HandHeardStep(w, gates, acts, ss, k - 1, g);
      }
    }
  }

  /** Over every interleaving, everyone who is ever sent a broadcast was subscribed to its stream, under that
      identifier, when the snapshot for it was taken, and is not the socket it excludes. */
  lemma {:induction false} OnlySubscribersSent(w: World, gates: nat, acts: seq<Action>, ss: seq<State>, j: nat)
      returns (k: nat)
    requires Good(w) && IsRun(w, gates, acts, ss) && j < |ss[|acts|].sent|
    ensures var one := ss[|acts|].sent[j];
      && SnapsAt(acts, ss, k, one.item)
      && (one.item.msg.stream, one.session, one.identifier) in ss[k].rel
      && one.item.msg.exclude != Some(one.session)
  {
    RunHeard(w, gates, acts, ss, |acts|);
    var one := ss[|acts|].sent[j];
    assert Heard(acts, ss, |acts|, one.item, (one.session, one.identifier));
    k :| 0 <= k < |acts| && SnapsAt(acts, ss, k, one.item) &&
      Listens(ss[k].rel, one.item.msg, (one.session, one.identifier));
  }

  lemma {:induction false} SnapshotsAfter(w: World, s: State, a: Action, no: nat)
    requires Good(w) && Sound(s) && Enabled(s, a) && no in Do(w, s, a).snapshots
    ensures || (no in s.snapshots && Do(w, s, a).snapshots[no] == s.snapshots[no])
            || (&& a.GateSnapshot? && a.gate < |s.gates| && s.gates[a.gate].hand.Took?
                && s.gates[a.gate].hand.item.no == no
                && Do(w, s, a).snapshots[no] == Audience(s.rel, s.gates[a.gate].hand.item.msg))
  {
  }

  /** Every snapshot was taken at some step, of who was subscribed then. */
  lemma {:induction false} SnapshotTaken(w: World, gates: nat, acts: seq<Action>, ss: seq<State>, n: nat, no: nat)
      returns (k: nat, item: Item)
    requires Good(w) && IsRun(w, gates, acts, ss) && n < |ss| && no in ss[n].snapshots
    ensures k < n && SnapsAt(acts, ss, k, item) && item.no == no
    ensures ss[n].snapshots[no] == Audience(ss[k].rel, item.msg)
  {
    SnapshotsAfter(w, ss[n - 1], acts[n - 1], no);
    if no in ss[n - 1].snapshots && ss[n].snapshots[no] == ss[n - 1].snapshots[no] {
      k, item := SnapshotTaken(w, gates, acts, ss, n - 1, no);
    } else {
      k, item := n - 1, ss[n - 1].gates[acts[n - 1].gate].hand.item;
    }
  }

  /** Over every interleaving, a broadcast that a gate has finished was sent to exactly those who were subscribed to
      its stream when the snapshot for it was taken, under the identifiers they were subscribed with, except for the
      socket it excludes. */
  lemma {:induction false} SentToSubscribersExactly(
      w: World, gates: nat, acts: seq<Action>, ss: seq<State>, no: nat) returns (k: nat, item: Item)
    requires Good(w) && gates >= 1 && IsRun(w, gates, acts, ss)
    requires var s := ss[|acts|]; no in s.snapshots && forall g :: 0 <= g < |s.gates| ==> !InLane(s.gates[g], no)
    ensures SnapsAt(acts, ss, k, item) && item.no == no
    ensures forall to :: SentTo(ss[|acts|].sent, no, to) <==>
      (item.msg.stream, to.0, to.1) in ss[k].rel && item.msg.exclude != Some(to.0)
  {
    k, item := SnapshotTaken(w, gates, acts, ss, |acts|, no);
    forall to
      ensures SentTo(ss[|acts|].sent, no, to) <==> Listens(ss[k].rel, item.msg, to)
    {
      SentExactlyOnce(w, gates, acts, ss, no, to);
      AudienceIs(ss[k].rel, item.msg, to);
    }
  }
}
