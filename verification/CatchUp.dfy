/**
 Catching up leaves no gap: a session that subscribes, reads the history after an offset, and stays
 subscribed misses no message stored in that stream, whatever runs in between.
 */
module CatchUp {
  import opened Basics
  import opened Names
  import opened Pipeline
  import B = BrokerSteps
  import History
  import Hub

  // Where a stored message can be.

  predicate At(msg: Msg, place: Place) {
    msg.origin == Some(place)
  }

  ghost predicate AmongPublishers(pubs: map<nat, Publisher>, place: Place) {
    exists p :: p in pubs && pubs[p].Ready? && At(pubs[p].msg, place)
  }

  ghost predicate AmongItems(items: seq<Item>, place: Place) {
    exists i :: 0 <= i < |items| && At(items[i].msg, place)
  }

  predicate InHubHand(hand: HubHand, place: Place) {
    !hand.HubIdle? && At(hand.item.msg, place)
  }

  /** In the gate, and not past this addressee. */
  ghost predicate InGate(gate: Gate, place: Place, to: (Name, Name)) {
    || AmongItems(gate.queue, place)
    || (gate.hand.Took? && At(gate.hand.item.msg, place))
    || (gate.hand.Sending? && At(gate.hand.item.msg, place) && to in gate.hand.left)
  }

  ghost predicate InFlight(s: State, place: Place, to: (Name, Name)) {
    || AmongPublishers(s.pubs, place)
    || AmongItems(s.hubQueue, place)
    || InHubHand(s.hubHand, place)
    || exists g :: 0 <= g < |s.gates| && InGate(s.gates[g], place, to)
  }

  ghost predicate Delivered(sent: seq<Sent>, place: Place, to: (Name, Name)) {
    exists k :: 0 <= k < |sent| && At(sent[k].item.msg, place) && (sent[k].session, sent[k].identifier) == to
  }

  predicate Excludes(stores: seq<Stored>, place: Place, session: Name) {
    && place.0 < |stores| && place.1 < |stores[place.0].excluded|
    && stores[place.0].excluded[place.1] == Some(session)
  }

  /** The message is on its way to the addressee, has been sent, or excludes them. */
  ghost predicate Covered(s: State, place: Place, to: (Name, Name)) {
    || Excludes(s.stores, place, to.0)
    || InFlight(s, place, to)
    || Delivered(s.sent, place, to)
  }

  // What every message carries is what was stored.

  predicate Faithful(stores: seq<Stored>, msg: Msg) {
    msg.origin.Some? ==>
      var (i, j) := msg.origin.value;
      && i < |stores| && j < |stores[i].excluded|
      && stores[i].owner == msg.stream && stores[i].excluded[j] == msg.exclude
  }

  ghost predicate PubFaithful(stores: seq<Stored>, p: Publisher) {
    p.Ready? ==> Faithful(stores, p.msg)
  }

  ghost predicate ItemsFaithful(stores: seq<Stored>, items: seq<Item>) {
    forall i :: 0 <= i < |items| ==> Faithful(stores, items[i].msg)
  }

  ghost predicate GateFaithful(stores: seq<Stored>, gate: Gate) {
    ItemsFaithful(stores, gate.queue) && (gate.hand.GateIdle? || Faithful(stores, gate.hand.item.msg))
  }

  ghost predicate AllFaithful(s: State) {
    && (forall p :: p in s.pubs ==> PubFaithful(s.stores, s.pubs[p]))
    && ItemsFaithful(s.stores, s.hubQueue)
    && (s.hubHand.HubIdle? || Faithful(s.stores, s.hubHand.item.msg))
    && (forall g :: 0 <= g < |s.gates| ==> GateFaithful(s.stores, s.gates[g]))
  }

  /** A store only gets longer, and keeps what it has. */
  predicate Extends(a: seq<Stored>, b: seq<Stored>) {
    && |a| <= |b|
    && forall i :: 0 <= i < |a| ==> a[i].owner == b[i].owner && a[i].excluded <= b[i].excluded
  }

  lemma ExtendsStep(w: World, s: State, a: Action)
    requires Good(w) && Sound(s) && Enabled(s, a)
    ensures Extends(s.stores, Do(w, s, a).stores)
  {
  }

  lemma StillFaithful(a: seq<Stored>, b: seq<Stored>, msg: Msg)
    requires Extends(a, b) && Faithful(a, msg)
    ensures Faithful(b, msg)
  {
    if msg.origin.Some? {
      var (i, j) := msg.origin.value;
      assert a[i].excluded[j] == b[i].excluded[j];
    }
  }

  lemma FaithfulExtends(a: seq<Stored>, b: seq<Stored>, s: State)
    requires Extends(a, b) && s.stores == a && AllFaithful(s)
    ensures AllFaithful(s.(stores := b))
  {
    forall msg | Faithful(a, msg)
      ensures Faithful(b, msg)
    {
      StillFaithful(a, b, msg);
    }
    var s' := s.(stores := b);
    assert forall p :: p in s.pubs ==> PubFaithful(a, s.pubs[p]) ==> PubFaithful(b, s.pubs[p]);
    assert forall g :: 0 <= g < |s.gates| ==> GateFaithful(a, s.gates[g]) ==> GateFaithful(b, s.gates[g]);
  }

  lemma FaithfulStep(w: World, s: State, a: Action)
    requires Good(w) && AllFaithful(s) && Sound(s) && Enabled(s, a)
    ensures AllFaithful(Do(w, s, a))
  {
    var s' := Do(w, s, a);
    ExtendsStep(w, s, a);
    FaithfulExtends(s.stores, s'.stores, s);
    MovesFaithful(w, s, a);
  }

  lemma MovesFaithful(w: World, s: State, a: Action)
    requires Good(w) && Sound(s) && Enabled(s, a)
    requires AllFaithful(s.(stores := Do(w, s, a).stores))
    ensures AllFaithful(Do(w, s, a))
  {
    if a.HubForward? || OnGate(a) {
      GatesFaithful(w, s, a);
    } else {
      PubsFaithful(w, s, a);
    }
  }

  lemma PubsFaithful(w: World, s: State, a: Action)
    requires Good(w) && Sound(s) && Enabled(s, a)
    requires !(a.HubForward? || OnGate(a))
    requires AllFaithful(s.(stores := Do(w, s, a).stores))
    ensures AllFaithful(Do(w, s, a))
  {
    var s', o := Do(w, s, a), Do(w, s, a).stores;
    match a
    case Lookup(p, _, _, _) => assert PubFaithful(o, s'.pubs[p]);
    case Store(p, _) =>
      assert PubFaithful(o, s.pubs[p]);
      assert PubFaithful(o, s'.pubs[p]);
    case Enqueue(p) =>
      assert PubFaithful(o, s.pubs[p]);
      assert ItemsFaithful(o, s'.hubQueue);
    case _ =>
  }

  lemma GatesFaithful(w: World, s: State, a: Action)
    requires Good(w) && Sound(s) && Enabled(s, a)
    requires a.HubForward? || OnGate(a)
    requires AllFaithful(s.(stores := Do(w, s, a).stores))
    ensures AllFaithful(Do(w, s, a))
  {
    var s', o := Do(w, s, a), Do(w, s, a).stores;
    var g := if a.HubForward? then Hub.Index(w.hash, s.hubHand.item.msg.stream, |s.gates|) else a.gate;
    GateMoves(o, s.gates, s'.gates, g);
  }

  lemma GateMoves(o: seq<Stored>, gates: seq<Gate>, gates': seq<Gate>, g: nat)
    requires forall h :: 0 <= h < |gates| ==> GateFaithful(o, gates[h])
    requires g < |gates| == |gates'| && gates' == gates[g := gates'[g]]
    requires GateFaithful(o, gates[g]) ==> GateFaithful(o, gates'[g])
    ensures forall h :: 0 <= h < |gates'| ==> GateFaithful(o, gates'[h])
  {
  }

  // Every step keeps a message covered.

  lemma AmongItemsHead(items: seq<Item>, place: Place)
    requires items != []
    ensures AmongItems(items, place) <==> At(items[0].msg, place) || AmongItems(items[1..], place)
  {
    if i :| 0 < i < |items| && At(items[i].msg, place) {
      assert items[1..][i - 1] == items[i];
    }
    if i :| 0 <= i < |items[1..]| && At(items[1..][i].msg, place) {
      assert items[i + 1] == items[1..][i];
    }
  }

  lemma AmongItemsLast(items: seq<Item>, item: Item, place: Place)
    ensures AmongItems(items + [item], place) <==> AmongItems(items, place) || At(item.msg, place)
  {
    if i :| 0 <= i < |items| && At(items[i].msg, place) {
      assert (items + [item])[i] == items[i];
    }
    assert (items + [item])[|items|] == item;
  }

  /** In its gate, a message stays on its way to a subscribed addressee, or is sent to them, or excludes
      them. */
  lemma GateCovers(w: World, s: State, a: Action, g: nat, place: Place, to: (Name, Name))
    requires Good(w) && AllFaithful(s) && Sound(s) && Enabled(s, a) && g < |s.gates| && InGate(s.gates[g], place, to)
    requires place.0 < |s.stores| && (s.stores[place.0].owner, to.0, to.1) in s.rel
    ensures Covered(Do(w, s, a), place, to)
  {
    var s', gate := Do(w, s, a), s.gates[g];
    ExtendsStep(w, s, a);
    assert GateFaithful(s.stores, gate);
    if s'.gates[g] == gate {
      return;
    }
    match a
    case HubForward =>
      AmongItemsLast(gate.queue, s.hubHand.item, place);
    case GateTake(_) =>
      AmongItemsHead(gate.queue, place);
    case GateSnapshot(_) =>
      if At(gate.hand.item.msg, place) {
        var audience := Audience(s.rel, gate.hand.item.msg);
        assert s'.gates[g].hand == Sending(gate.hand.item, audience);
        if gate.hand.item.msg.exclude != Some(to.0) {
          var t := (s.stores[place.0].owner, to.0, to.1);
          assert (t.1, t.2) in audience;
          assert to == (t.1, t.2);
        }
      }
    case GateSend(_, p) =>
      if p == to && At(gate.hand.item.msg, place) {
        assert s'.sent[|s.sent|] == Sent(to.0, to.1, gate.hand.item);
        assert Delivered(s'.sent, place, to);
      }
    case GateDone(_) =>
    case _ =>
  }

  lemma PublishersCover(w: World, s: State, a: Action, place: Place, to: (Name, Name))
    requires Good(w) && Sound(s) && Enabled(s, a) && AmongPublishers(s.pubs, place)
    ensures InFlight(Do(w, s, a), place, to)
  {
    var s' := Do(w, s, a);
    var p :| p in s.pubs && s.pubs[p].Ready? && At(s.pubs[p].msg, place);
    if a == Enqueue(p) {
      AmongItemsLast(s.hubQueue, Item(|s.enqueued|, s.pubs[p].msg), place);
    } else {
      assert p in s'.pubs && s'.pubs[p] == s.pubs[p];
    }
  }

  lemma HubCovers(w: World, s: State, a: Action, place: Place, to: (Name, Name))
    requires Good(w) && AllFaithful(s) && Sound(s) && Enabled(s, a)
    requires AmongItems(s.hubQueue, place) || InHubHand(s.hubHand, place)
    requires place.0 < |s.stores| && (s.stores[place.0].owner, to.0, to.1) in s.rel
    ensures InFlight(Do(w, s, a), place, to)
  {
    var s' := Do(w, s, a);
    match a
    case Enqueue(p) => AmongItemsLast(s.hubQueue, Item(|s.enqueued|, s.pubs[p].msg), place);
    case HubTake => AmongItemsHead(s.hubQueue, place);
    case HubCheck =>
      if InHubHand(s.hubHand, place) {
        assert (s.stores[place.0].owner, to.0, to.1).0 == s.hubHand.item.msg.stream;
        assert HasSubscribers(s.rel, s.hubHand.item.msg.stream);
      }
    case HubForward =>
      var g := Hub.Index(w.hash, s.hubHand.item.msg.stream, |s.gates|);
      AmongItemsLast(s.gates[g].queue, s.hubHand.item, place);
      assert s'.gates[g].queue == s.gates[g].queue + [s.hubHand.item];
      if InHubHand(s.hubHand, place) {
        assert InGate(s'.gates[g], place, to);
      }
    case _ =>
  }

  /** Whatever step is made, a message that is covered for a subscribed addressee stays covered. */
  lemma CoveredStep(w: World, s: State, a: Action, place: Place, to: (Name, Name))
    requires Good(w) && AllFaithful(s) && Sound(s) && Enabled(s, a) && Covered(s, place, to)
    requires place.0 < |s.stores| && (s.stores[place.0].owner, to.0, to.1) in s.rel
    ensures Covered(Do(w, s, a), place, to)
  {
    var s' := Do(w, s, a);
    ExtendsStep(w, s, a);
    if k :| 0 <= k < |s.sent| && At(s.sent[k].item.msg, place) && (s.sent[k].session, s.sent[k].identifier) == to {
      assert s'.sent[k] == s.sent[k];
    } else if AmongPublishers(s.pubs, place) {
      PublishersCover(w, s, a, place, to);
    } else if AmongItems(s.hubQueue, place) || InHubHand(s.hubHand, place) {
      HubCovers(w, s, a, place, to);
    } else if g :| 0 <= g < |s.gates| && InGate(s.gates[g], place, to) {
      GateCovers(w, s, a, g, place, to);
    }
  }

  /** A message stored by this very step is with its publisher. */
  lemma StoredCovered(w: World, s: State, a: Action, place: Place, to: (Name, Name))
    requires Good(w) && Sound(s) && Enabled(s, a) && place.0 < |s.stores|
    requires |s.stores[place.0].excluded| <= place.1 < |Do(w, s, a).stores[place.0].excluded|
    ensures Covered(Do(w, s, a), place, to)
  {
    var s' := Do(w, s, a);
    assert a.Store?;
    assert s'.pubs[a.pub].Ready? && At(s'.pubs[a.pub].msg, place);
    assert AmongPublishers(s'.pubs, place);
  }

  /** Every step leaves something stored covered, if the addressee is subscribed. */
  lemma StoredOrCovered(w: World, s: State, a: Action, place: Place, to: (Name, Name))
    requires Good(w) && AllFaithful(s) && Sound(s) && Enabled(s, a)
    requires IsStored(Do(w, s, a), place) && (IsStored(s, place) ==> Covered(s, place, to))
    requires place.0 < |s.stores| ==> (s.stores[place.0].owner, to.0, to.1) in s.rel
    ensures Covered(Do(w, s, a), place, to)
  {
    if IsStored(s, place) {
      CoveredStep(w, s, a, place, to);
    } else {
      StoredCovered(w, s, a, place, to);
    }
  }

  predicate IsStored(s: State, place: Place) {
    place.0 < |s.stores| && place.1 < |s.stores[place.0].excluded|
  }

  // Every run.

  /** The length of a stream object's log is the number of messages stored in it. */
  ghost predicate LogsMatch(w: World, s: State)
    requires Good(w)
  {
    |s.stores| == |s.mem.objects| && forall i :: 0 <= i < |s.stores| ==> LogMatches(w, s, i)
  }

  ghost predicate LogMatches(w: World, s: State, i: nat)
    requires Good(w) && i < |s.stores| == |s.mem.objects|
  {
    |s.stores[i].excluded| == |Log(w, s.mem.objects[i])| && OnlyAdds(s.mem.objects[i].ops)
  }

  /** Streams fed by broadcasts never have gaps. */
  ghost predicate OnlyAdds(ops: seq<History.Op>) {
    forall i :: 0 <= i < |ops| ==> !ops[i].Insert?
  }

  /** What a step does to the broker, if anything. */
  function BrokerStep(s: State, a: Action): Option<B.Action>
    requires Enabled(s, a)
  {
    match a
    case Lookup(p, stream, _, _) => Some(B.Lookup(p, stream))
    case Store(p, now) => Some(B.Append(p, History.Add(s.pubs[p].data, now)))
    case Expiry(step) => Some(step)
    case _ => None
  }

  lemma {:induction false} BrokerMoves(w: World, s: State, a: Action)
    requires Good(w) && Sound(s) && Enabled(s, a)
    ensures var b := BrokerStep(s, a);
      && (b.Some? ==> B.Enabled(s.mem, b.value) && Do(w, s, a).mem == B.Do(w.config, s.mem, b.value))
      && (b.None? ==> Do(w, s, a).mem == s.mem)
  {
  }

  lemma {:induction false} StoresGrow(w: World, s: State, a: Action, i: nat)
    requires Good(w) && Sound(s) && Enabled(s, a) && i < |s.stores|
    ensures i < |Do(w, s, a).stores| && |Do(w, s, a).stores[i].excluded| ==
      |s.stores[i].excluded| + if a.Store? && s.mem.held[a.pub] == i then 1 else 0
  {
  }

  lemma {:induction false} ObjectGrows(w: World, s: State, a: B.Action, i: nat)
    requires Good(w) && B.Good(s.mem) && B.Enabled(s.mem, a) && i < |s.mem.objects|
    requires OnlyAdds(s.mem.objects[i].ops) && (a.Append? ==> a.op.Add?)
    ensures var after := B.Do(w.config, s.mem, a);
      && i < |after.objects| && OnlyAdds(after.objects[i].ops)
      && Log(w, s.mem.objects[i]) <= Log(w, after.objects[i])
      && |Log(w, after.objects[i])| ==
         |Log(w, s.mem.objects[i])| + if a.Append? && s.mem.held[a.caller] == i then 1 else 0
  {
    B.LogGrows(w.config, s.mem, a, i);
  }

  lemma {:induction false} LogStep(w: World, s: State, a: Action, i: nat)
    requires Good(w) && Sound(s) && Enabled(s, a) && i < |s.stores| && LogMatches(w, s, i)
    ensures Sound(Do(w, s, a)) && i < |Do(w, s, a).stores| && LogMatches(w, Do(w, s, a), i)
    ensures Log(w, s.mem.objects[i]) <= Log(w, Do(w, s, a).mem.objects[i])
  {
    SoundStep(w, s, a);
    BrokerMoves(w, s, a);
    StoresGrow(w, s, a, i);
    if BrokerStep(s, a).Some? {
      ObjectGrows(w, s, BrokerStep(s, a).value, i);
    }
  }

  lemma LogsStep(w: World, s: State, a: Action)
    requires Good(w) && LogsMatch(w, s) && Sound(s) && Enabled(s, a)
    ensures LogsMatch(w, Do(w, s, a))
  {
    SoundStep(w, s, a);
    var s' := Do(w, s, a);
    forall i | 0 <= i < |s'.stores|
      ensures LogMatches(w, s', i)
    {
      if i < |s.stores| {
        LogStep(w, s, a, i);
      }
    }
  }

  lemma {:induction false} RunKeeps(w: World, gates: nat, acts: seq<Action>, ss: seq<State>, k: nat)
    requires Good(w) && IsRun(w, gates, acts, ss) && k < |ss|
    ensures Sound(ss[k]) && AllFaithful(ss[k]) && LogsMatch(w, ss[k])
  {
    RunSound(w, gates, acts, ss, k);
    if k > 0 {
      RunKeeps(w, gates, acts, ss, k - 1);
      FaithfulStep(w, ss[k - 1], acts[k - 1]);
      LogsStep(w, ss[k - 1], acts[k - 1]);
    }
  }

  /** The subscription is there in every state from `from` to `till`. */
  ghost predicate Subscribed(ss: seq<State>, from: nat, till: nat, t: Hub.Triple) {
    forall m :: from <= m <= till && m < |ss| ==> t in ss[m].rel
  }

  /** Everything stored under a name after a session subscribed to it, in whichever stream object, is covered for
      as long as the session stays subscribed. */
  lemma {:induction false} StoredSinceCovered(
      w: World, gates: nat, acts: seq<Action>, ss: seq<State>, from: nat, till: nat, stream: Name, to: (Name, Name),
      place: Place)
    requires Good(w) && IsRun(w, gates, acts, ss) && from <= till < |ss|
    requires Subscribed(ss, from, till, (stream, to.0, to.1))
    requires IsStored(ss[till], place) && ss[till].stores[place.0].owner == stream && !IsStored(ss[from], place)
    ensures Covered(ss[till], place, to)
    decreases till
  {
    if from < till {
      var s, a := ss[till - 1], acts[till - 1];
      RunKeeps(w, gates, acts, ss, till - 1);
      ExtendsStep(w, s, a);
      if IsStored(s, place) {
        StoredSinceCovered(w, gates, acts, ss, from, till - 1, stream, to, place);
      }
      StoredOrCovered(w, s, a, place, to);
    }
  }

  lemma {:induction false} LogsOnlyGrow(
      w: World, gates: nat, acts: seq<Action>, ss: seq<State>, from: nat, till: nat, i: nat)
    requires Good(w) && IsRun(w, gates, acts, ss) && from <= till < |ss| && i < |ss[from].mem.objects|
    ensures i < |ss[till].mem.objects| && Log(w, ss[from].mem.objects[i]) <= Log(w, ss[till].mem.objects[i])
    decreases till
  {
    if from < till {
      LogsOnlyGrow(w, gates, acts, ss, from, till - 1, i);
      RunKeeps(w, gates, acts, ss, till - 1);
      LogStep(w, ss[till - 1], acts[till - 1], i);
    }
  }

  lemma {:induction false} OnlyAddsNoGap(c: History.Config, ops: seq<History.Op>)
    requires c.limit >= 1 && OnlyAdds(ops)
    ensures History.NoGap(c, ops)
  {
    if ops != [] {
      OnlyAddsNoGap(c, ops[..|ops| - 1]);
    }
  }

  lemma {:induction false} InAfter(s: seq<History.Entry>, o: History.uint64, i: nat)
    requires i < |s| && s[i].offset > o
    ensures s[i] in History.After(s, o)
  {
    History.FilterSplit((e: History.Entry) => e.offset > o, s, i);
    assert s[i..][0] == s[i];
  }

  /** What the object held when it was read is in the reply, or at or before the offset asked for. */
  lemma InReply(w: World, o: B.Object, offset: History.uint64, j: nat)
    requires Good(w) && OnlyAdds(o.ops) && History.NoWrap(w.config, o.ops) && HistoryOf(w, o, offset).Ok?
    requires j < |Log(w, o)|
    ensures Log(w, o)[j].offset <= offset || Log(w, o)[j] in HistoryOf(w, o, offset).value
  {
    OnlyAddsNoGap(w.config, o.ops);
    History.ResumeExact(w.config, o.ops, offset);
    if Log(w, o)[j].offset > offset {
      InAfter(Log(w, o), offset, j);
    }
  }

  /** Catch-up has no gap. A session subscribes to a stream, is answered a history request at step `k`, and stays
      subscribed. Then, after every interleaving, every message ever stored under the stream's name, in whichever
      stream object,
      - has been sent to the session, is on its way to it, or excludes it; or
      - was stored before the reply was read, in the object it was read from, and is in the reply, or not after
        the offset asked for; or
      - was stored before the session subscribed, in another object of that name. */
  lemma NothingMissed(
      w: World, gates: nat, acts: seq<Action>, ss: seq<State>, from: nat, k: nat, r: nat, place: Place)
    requires Good(w) && IsRun(w, gates, acts, ss) && from <= k < |acts| && acts[k] == Read(r)
    requires var rd, s := ss[k].readers[r], ss[|acts|];
      && rd.obj < |ss[k].mem.objects| && rd.obj < |ss[k].stores|
      && HistoryOf(w, ss[k].mem.objects[rd.obj], rd.offset).Ok?
      && History.NoWrap(w.config, ss[k].mem.objects[rd.obj].ops)
      && Subscribed(ss, from, |acts|, (ss[k].stores[rd.obj].owner, rd.session, rd.identifier))
      && IsStored(s, place) && s.stores[place.0].owner == ss[k].stores[rd.obj].owner
    ensures var rd, s := ss[k].readers[r], ss[|acts|];
      && place.0 < |s.mem.objects| && place.1 < |Log(w, s.mem.objects[place.0])|
      && var e := Log(w, s.mem.objects[place.0])[place.1];
         || Covered(s, place, (rd.session, rd.identifier))
         || (place.0 == rd.obj && IsStored(ss[k], place) && e.offset <= rd.offset)
         || (place.0 == rd.obj && e in HistoryOf(w, ss[k].mem.objects[rd.obj], rd.offset).value)
         || (place.0 != rd.obj && IsStored(ss[from], place))
  {
    var rd, s := ss[k].readers[r], ss[|acts|];
    var to := (rd.session, rd.identifier);
    RunKeeps(w, gates, acts, ss, k);
    RunKeeps(w, gates, acts, ss, |acts|);
    assert LogMatches(w, s, place.0);
    if place.0 != rd.obj {
      if !IsStored(ss[from], place) {
        StoredSinceCovered(w, gates, acts, ss, from, |acts|, ss[k].stores[rd.obj].owner, to, place);
      }
    } else if IsStored(ss[k], place) {
      assert LogMatches(w, ss[k], rd.obj);
      LogsOnlyGrow(w, gates, acts, ss, k, |acts|, rd.obj);
      InReply(w, ss[k].mem.objects[rd.obj], rd.offset, place.1);
    } else {
      StoredSinceCovered(w, gates, acts, ss, k, |acts|, ss[k].stores[rd.obj].owner, to, place);
    }
  }

  // From the request to the reply.

  /** A session asks for a stream's history from an offset on: it looks the stream up at step `l`, and reads it at
      step `k`. */
  ghost predicate Requests(
      acts: seq<Action>, l: nat, k: nat, r: nat, session: Name, stream: Name, identifier: Name, offset: History.uint64)
  {
    && l < k < |acts| && acts[l] == ReadLookup(r, session, stream, identifier, offset) && acts[k] == Read(r)
    && forall m :: l < m < k ==> acts[m] != Read(r)
  }

  lemma {:induction false} ReaderStep(w: World, s: State, a: Action, r: nat)
    requires Good(w) && Sound(s) && Enabled(s, a) && r in s.readers && a != Read(r)
    ensures r in Do(w, s, a).readers && Do(w, s, a).readers[r] == s.readers[r]
  {
  }

  lemma {:induction false} ReaderStays(
      w: World, gates: nat, acts: seq<Action>, ss: seq<State>, from: nat, till: nat, r: nat)
    requires Good(w) && IsRun(w, gates, acts, ss) && from <= till < |ss| && r in ss[from].readers
    requires forall m :: from <= m < till ==> acts[m] != Read(r)
    ensures r in ss[till].readers && ss[till].readers[r] == ss[from].readers[r]
    decreases till - from
  {
    if from < till {
      ReaderStep(w, ss[from], acts[from], r);
      ReaderStays(w, gates, acts, ss, from + 1, till, r);
    }
  }

  lemma {:induction false} OwnerStays(
      w: World, gates: nat, acts: seq<Action>, ss: seq<State>, from: nat, till: nat, i: nat)
    requires Good(w) && IsRun(w, gates, acts, ss) && from <= till < |ss| && i < |ss[from].stores|
    ensures i < |ss[till].stores| && ss[till].stores[i].owner == ss[from].stores[i].owner
    decreases till - from
  {
    if from < till {
      ExtendsStep(w, ss[from], acts[from]);
      OwnerStays(w, gates, acts, ss, from + 1, till, i);
    }
  }

  /** The object that is read is the one the stream had when it was looked up, for the session, the channel and the
      offset of the request. */
  lemma {:induction false} ReadsWhatWasFound(
      w: World, gates: nat, acts: seq<Action>, ss: seq<State>, l: nat, k: nat, r: nat, session: Name, stream: Name,
      identifier: Name, offset: History.uint64)
    requires Good(w) && IsRun(w, gates, acts, ss)
    requires Requests(acts, l, k, r, session, stream, identifier, offset)
    ensures stream in ss[l].mem.current && r in ss[k].readers
    ensures ss[k].readers[r] == Reader(session, identifier, offset, ss[l].mem.current[stream])
    ensures ss[k].readers[r].obj < |ss[k].stores| && ss[k].stores[ss[k].readers[r].obj].owner == stream
  {
    ReaderStays(w, gates, acts, ss, l + 1, k, r);
    RunSound(w, gates, acts, ss, l);
    OwnerStays(w, gates, acts, ss, l, k, ss[l].mem.current[stream]);
  }

  /** Catch-up has no gap, from the request to the reply. A session subscribes to a stream, asks for its history, is
      answered, and stays subscribed. Then, after every interleaving, every message ever stored under the stream's name
      has been sent to the session, is on its way to it, or excludes it; or it was stored before the reply was read, in
      the object the stream had when it was looked up, and is in the reply, or not after the offset asked for; or it
      was stored before the session subscribed, in another object of that name. */
  lemma {:induction false} RequestMissesNothing(
      w: World, gates: nat, acts: seq<Action>, ss: seq<State>, from: nat, l: nat, k: nat, r: nat, session: Name,
      stream: Name, identifier: Name, offset: History.uint64, place: Place)
    requires Good(w) && IsRun(w, gates, acts, ss) && from <= l
    requires Requests(acts, l, k, r, session, stream, identifier, offset)
    requires Subscribed(ss, from, |acts|, (stream, session, identifier))
    requires stream in ss[l].mem.current && ss[l].mem.current[stream] < |ss[k].mem.objects|
    requires var o := ss[k].mem.objects[ss[l].mem.current[stream]];
      HistoryOf(w, o, offset).Ok? && History.NoWrap(w.config, o.ops)
    requires IsStored(ss[|acts|], place) && ss[|acts|].stores[place.0].owner == stream
    ensures var s, i := ss[|acts|], ss[l].mem.current[stream];
      && place.0 < |s.mem.objects| && place.1 < |Log(w, s.mem.objects[place.0])|
      && var e := Log(w, s.mem.objects[place.0])[place.1];
         || Covered(s, place, (session, identifier))
         || (place.0 == i && IsStored(ss[k], place) && e.offset <= offset)
         || (place.0 == i && e in HistoryOf(w, ss[k].mem.objects[i], offset).value)
         || (place.0 != i && IsStored(ss[from], place))
  {
    ReadsWhatWasFound(w, gates, acts, ss, l, k, r, session, stream, identifier, offset);
    NothingMissed(w, gates, acts, ss, from, k, r, place);
  }
}
