/**
 Live sends and the log: publishers store a message and hand it to the hub in two steps, so what is sent
 follows the order of enqueueing, which is the order of the log if and only if no publisher overtakes another.
 */
module LogOrder {
  import opened Basics
  import opened Names
  import opened Pipeline
  import opened CatchUp
  import B = BrokerSteps
  import Delivery
  import History
  import Hub

  // A broadcast keeps its number and its message.

  ghost predicate IsRecorded(enqueued: seq<Msg>, item: Item) {
    item.no < |enqueued| && enqueued[item.no] == item.msg
  }

  ghost predicate ItemsRecorded(enqueued: seq<Msg>, items: seq<Item>) {
    forall i :: 0 <= i < |items| ==> IsRecorded(enqueued, items[i])
  }

  ghost predicate GateRecorded(enqueued: seq<Msg>, gate: Gate) {
    ItemsRecorded(enqueued, gate.queue) && (gate.hand.GateIdle? || IsRecorded(enqueued, gate.hand.item))
  }

  ghost predicate SendsRecorded(enqueued: seq<Msg>, sent: seq<Sent>) {
    forall k :: 0 <= k < |sent| ==> IsRecorded(enqueued, sent[k].item)
  }

  ghost predicate Recorded(s: State) {
    && ItemsRecorded(s.enqueued, s.hubQueue)
    && (s.hubHand.HubIdle? || IsRecorded(s.enqueued, s.hubHand.item))
    && (forall g :: 0 <= g < |s.gates| ==> GateRecorded(s.enqueued, s.gates[g]))
    && SendsRecorded(s.enqueued, s.sent)
  }

  lemma RecordedLonger(s: State, msg: Msg)
    requires Recorded(s)
    ensures Recorded(s.(enqueued := s.enqueued + [msg]))
  {
    var longer := s.enqueued + [msg];
    forall item | IsRecorded(s.enqueued, item)
      ensures IsRecorded(longer, item)
    {
      assert longer[item.no] == s.enqueued[item.no];
    }
    forall g | 0 <= g < |s.gates|
      ensures GateRecorded(longer, s.gates[g])
    {
      assert GateRecorded(s.enqueued, s.gates[g]);
    }
  }

  lemma RecordedStep(w: World, s: State, a: Action)
    requires Good(w) && Sound(s) && Enabled(s, a) && Recorded(s)
    ensures Recorded(Do(w, s, a))
  {
    var s' := Do(w, s, a);
    if a.Enqueue? {
      RecordedLonger(s, s.pubs[a.pub].msg);
    } else if a.HubForward? || OnGate(a) {
      var g := if a.HubForward? then Hub.Index(w.hash, s.hubHand.item.msg.stream, |s.gates|) else a.gate;
      assert GateRecorded(s.enqueued, s.gates[g]);
      assert GateRecorded(s.enqueued, s'.gates[g]);
      assert forall h :: 0 <= h < |s.gates| && h != g ==> s'.gates[h] == s.gates[h];
    }
  }

  // The order of a log.

  predicate InLog(msg: Msg, i: nat) {
    msg.origin.Some? && msg.origin.value.0 == i
  }

  function Index(msg: Msg): nat
    requires msg.origin.Some?
  {
    msg.origin.value.1
  }

  /** The publisher has stored a message in stream object `i`, and not enqueued it. */
  predicate Between(s: State, p: nat, i: nat) {
    p in s.pubs && s.pubs[p].Ready? && InLog(s.pubs[p].msg, i)
  }

  /** A message is enqueued while one stored before it in the same log is still waiting. */
  ghost predicate Overtakes(s: State, a: Action, i: nat) {
    && a.Enqueue? && Between(s, a.pub, i)
    && exists q :: Between(s, q, i) && Index(s.pubs[q].msg) < Index(s.pubs[a.pub].msg)
  }

  ghost predicate NoOvertaking(acts: seq<Action>, ss: seq<State>, i: nat, till: nat) {
    forall m :: 0 <= m < till && m < |acts| && m < |ss| ==> !Overtakes(ss[m], acts[m], i)
  }

  predicate Follows(a: Msg, b: Msg, i: nat) {
    InLog(a, i) && InLog(b, i) ==> Index(a) < Index(b)
  }

  /** What was enqueued of the log is in its order. */
  ghost predicate InOrder(enqueued: seq<Msg>, i: nat) {
    forall a, b :: 0 <= a < b < |enqueued| ==> Follows(enqueued[a], enqueued[b], i)
  }

  ghost predicate WaitingBehind(s: State, i: nat) {
    forall a, p :: 0 <= a < |s.enqueued| && Between(s, p, i) ==> Follows(s.enqueued[a], s.pubs[p].msg, i)
  }

  ghost predicate EnqueuedStored(s: State) {
    forall a :: 0 <= a < |s.enqueued| ==> Faithful(s.stores, s.enqueued[a])
  }

  /** No two publishers have the same message. */
  ghost predicate Apart(s: State, i: nat) {
    forall p, q :: Between(s, p, i) && Between(s, q, i) && Index(s.pubs[p].msg) == Index(s.pubs[q].msg) ==> p == q
  }

  lemma {:induction false} EnqueuedFaithful(w: World, s: State, a: Action)
    requires Good(w) && Sound(s) && Enabled(s, a) && AllFaithful(s)
    requires EnqueuedStored(s)
    ensures EnqueuedStored(Do(w, s, a))
  {
    ExtendsStep(w, s, a);
    var s' := Do(w, s, a);
    forall e | 0 <= e < |s'.enqueued|
      ensures Faithful(s'.stores, s'.enqueued[e])
    {
      if e < |s.enqueued| {
        assert s'.enqueued[e] == s.enqueued[e];
        StillFaithful(s.stores, s'.stores, s.enqueued[e]);
      } else {
        assert PubFaithful(s.stores, s.pubs[a.pub]);
      }
    }
  }

  /** Who waits after a step waited before, or has just stored, at the end of the log. */
  lemma {:induction false} WhoWaits(w: World, s: State, a: Action, i: nat, p: nat)
    requires Good(w) && Sound(s) && Enabled(s, a) && Between(Do(w, s, a), p, i)
    ensures !(a.Store? && a.pub == p) ==> Between(s, p, i) && Do(w, s, a).pubs[p] == s.pubs[p] && a != Enqueue(p)
    ensures a.Store? && a.pub == p ==> i < |s.stores| && Index(Do(w, s, a).pubs[p].msg) == |s.stores[i].excluded|
  {
  }

  lemma {:induction false} WaitingIsStored(s: State, i: nat, p: nat)
    requires AllFaithful(s) && Between(s, p, i)
    ensures i < |s.stores| && Index(s.pubs[p].msg) < |s.stores[i].excluded|
  {
    assert PubFaithful(s.stores, s.pubs[p]);
  }

  lemma {:induction false} ApartStep(w: World, s: State, a: Action, i: nat)
    requires Good(w) && Sound(s) && Enabled(s, a) && AllFaithful(s) && Apart(s, i)
    ensures Apart(Do(w, s, a), i)
  {
    var s' := Do(w, s, a);
    forall p, q | Between(s', p, i) && Between(s', q, i) && Index(s'.pubs[p].msg) == Index(s'.pubs[q].msg)
      ensures p == q
    {
      WhoWaits(w, s, a, i, p);
      WhoWaits(w, s, a, i, q);
      if Between(s, p, i) {
        WaitingIsStored(s, i, p);
      }
      if Between(s, q, i) {
        WaitingIsStored(s, i, q);
      }
    }
  }

  lemma {:induction false} WaitingStep(w: World, s: State, a: Action, i: nat)
    requires Good(w) && Sound(s) && Enabled(s, a) && AllFaithful(s) && EnqueuedStored(s) && Apart(s, i)
    requires WaitingBehind(s, i) && !Overtakes(s, a, i)
    ensures WaitingBehind(Do(w, s, a), i)
  {
    var s' := Do(w, s, a);
    forall e, p | 0 <= e < |s'.enqueued| && Between(s', p, i)
      ensures Follows(s'.enqueued[e], s'.pubs[p].msg, i)
    {
      WhoWaits(w, s, a, i, p);
      if e < |s.enqueued| {
        assert s'.enqueued[e] == s.enqueued[e] && Faithful(s.stores, s.enqueued[e]);
      } else if InLog(s'.enqueued[e], i) {
        assert Between(s, a.pub, i) && Between(s, p, i);
      }
    }
  }

  lemma {:induction false} OrderStep(w: World, s: State, a: Action, i: nat)
    requires Good(w) && Sound(s) && Enabled(s, a) && InOrder(s.enqueued, i) && WaitingBehind(s, i)
    ensures InOrder(Do(w, s, a).enqueued, i)
  {
    var s' := Do(w, s, a);
    if a.Enqueue? && InLog(s.pubs[a.pub].msg, i) {
      assert Between(s, a.pub, i);
    }
  }

  /** What every reachable state keeps about a log. */
  ghost predicate Records(s: State, i: nat) {
    Recorded(s) && EnqueuedStored(s) && Apart(s, i)
  }

  lemma {:induction false} RecordsStep(w: World, s: State, a: Action, i: nat)
    requires Good(w) && Sound(s) && Enabled(s, a) && AllFaithful(s) && Records(s, i)
    ensures Records(Do(w, s, a), i)
  {
    RecordedStep(w, s, a);
    EnqueuedFaithful(w, s, a);
    ApartStep(w, s, a, i);
  }

  lemma {:induction false} RunRecords(w: World, gates: nat, acts: seq<Action>, ss: seq<State>, i: nat, k: nat)
    requires Good(w) && IsRun(w, gates, acts, ss) && k < |ss|
    ensures Records(ss[k], i)
  {
    if k > 0 {
      RunRecords(w, gates, acts, ss, i, k - 1);
      RunKeeps(w, gates, acts, ss, k - 1);
      RecordsStep(w, ss[k - 1], acts[k - 1], i);
    }
  }

  lemma {:induction false} RunRecorded(w: World, gates: nat, acts: seq<Action>, ss: seq<State>, i: nat, k: nat)
    requires Good(w) && IsRun(w, gates, acts, ss) && k < |ss|
    ensures Recorded(ss[k]) && EnqueuedStored(ss[k]) && Apart(ss[k], i)
  {
    RunRecords(w, gates, acts, ss, i, k);
  }

  lemma {:induction false} RunInOrder(w: World, gates: nat, acts: seq<Action>, ss: seq<State>, i: nat, k: nat)
    requires Good(w) && IsRun(w, gates, acts, ss) && k < |ss| && NoOvertaking(acts, ss, i, k)
    ensures InOrder(ss[k].enqueued, i) && WaitingBehind(ss[k], i)
  {
    if k > 0 {
      RunInOrder(w, gates, acts, ss, i, k - 1);
      RunRecorded(w, gates, acts, ss, i, k - 1);
      RunKeeps(w, gates, acts, ss, k - 1);
      WaitingStep(w, ss[k - 1], acts[k - 1], i);
      OrderStep(w, ss[k - 1], acts[k - 1], i);
    }
  }

  ghost predicate FoundFrom(enqueued: seq<Msg>, k: nat, msg: Msg) {
    exists b :: k <= b < |enqueued| && enqueued[b] == msg
  }

  /** The publisher's message is still waiting, or it was enqueued at place `k` or later. */
  ghost predicate WaitsOrFollows(s: State, q: nat, i: nat, msg: Msg, k: nat) {
    && k <= |s.enqueued|
    && ((Between(s, q, i) && s.pubs[q].msg == msg) || FoundFrom(s.enqueued, k, msg))
  }

  lemma {:induction false} FollowsStep(w: World, s: State, a: Action, q: nat, i: nat, msg: Msg, k: nat)
    requires Good(w) && Sound(s) && Enabled(s, a) && WaitsOrFollows(s, q, i, msg, k)
    ensures WaitsOrFollows(Do(w, s, a), q, i, msg, k) && s.enqueued <= Do(w, s, a).enqueued
  {
    var s' := Do(w, s, a);
    assert s.enqueued <= s'.enqueued;
    if FoundFrom(s.enqueued, k, msg) {
      var b :| k <= b < |s.enqueued| && s.enqueued[b] == msg;
      assert s'.enqueued[b] == msg;
    } else if a == Enqueue(q) {
      assert s'.enqueued[|s.enqueued|] == msg;
    }
  }

  lemma {:induction false} FollowsOn(
      w: World, gates: nat, acts: seq<Action>, ss: seq<State>, from: nat, till: nat, q: nat, i: nat, msg: Msg, k: nat)
    requires Good(w) && IsRun(w, gates, acts, ss) && from <= till < |ss| && WaitsOrFollows(ss[from], q, i, msg, k)
    ensures WaitsOrFollows(ss[till], q, i, msg, k) && ss[from].enqueued <= ss[till].enqueued
    decreases till - from
  {
    if from < till {
      FollowsStep(w, ss[from], acts[from], q, i, msg, k);
      FollowsOn(w, gates, acts, ss, from + 1, till, q, i, msg, k);
    }
  }

  /** What waits is enqueued later, or waits still. */
  lemma {:induction false} WaitsUntilEnqueued(
      w: World, gates: nat, acts: seq<Action>, ss: seq<State>, from: nat, till: nat, q: nat, i: nat)
    requires Good(w) && IsRun(w, gates, acts, ss) && from <= till < |ss| && Between(ss[from], q, i)
    ensures WaitsOrFollows(ss[till], q, i, ss[from].pubs[q].msg, |ss[from].enqueued|)
    ensures ss[from].enqueued <= ss[till].enqueued
  {
    FollowsOn(w, gates, acts, ss, from, till, q, i, ss[from].pubs[q].msg, |ss[from].enqueued|);
  }

  lemma {:induction false} OvertakenOutOfOrder(
      w: World, gates: nat, acts: seq<Action>, ss: seq<State>, i: nat, m: nat)
    requires Good(w) && IsRun(w, gates, acts, ss) && m < |acts| && Overtakes(ss[m], acts[m], i)
    requires forall p :: !Between(ss[|acts|], p, i)
    ensures !InOrder(ss[|acts|].enqueued, i)
  {
    var s, a, last := ss[m], acts[m], ss[|acts|];
    var q :| Between(s, q, i) && Index(s.pubs[q].msg) < Index(s.pubs[a.pub].msg);
    assert Between(ss[m + 1], q, i) && ss[m + 1].pubs[q] == s.pubs[q];
    WaitsUntilEnqueued(w, gates, acts, ss, m + 1, |acts|, q, i);
    var b :| |ss[m + 1].enqueued| <= b < |last.enqueued| && last.enqueued[b] == s.pubs[q].msg;
    assert last.enqueued[|s.enqueued|] == ss[m + 1].enqueued[|s.enqueued|] == s.pubs[a.pub].msg;
    assert !Follows(last.enqueued[|s.enqueued|], last.enqueued[b], i);
  }

  /** With nothing of a log waiting, its messages have been enqueued in its order if and only if no step overtook. */
  lemma {:induction false} InLogOrderIff(w: World, gates: nat, acts: seq<Action>, ss: seq<State>, i: nat)
    requires Good(w) && IsRun(w, gates, acts, ss) && forall p :: !Between(ss[|acts|], p, i)
    ensures InOrder(ss[|acts|].enqueued, i) <==> NoOvertaking(acts, ss, i, |acts|)
  {
    if NoOvertaking(acts, ss, i, |acts|) {
      RunInOrder(w, gates, acts, ss, i, |acts|);
    } else {
      var m :| 0 <= m < |acts| && Overtakes(ss[m], acts[m], i);
      OvertakenOutOfOrder(w, gates, acts, ss, i, m);
    }
  }

  /** When nothing overtakes, the sends of a log follow it: in every interleaving, of two messages sent that are in
      the same log, the one sent first comes first there. */
  lemma {:induction false} SendsFollowLog(
      w: World, gates: nat, acts: seq<Action>, ss: seq<State>, i: nat, j: nat, k: nat)
    requires Good(w) && gates >= 1 && IsRun(w, gates, acts, ss) && NoOvertaking(acts, ss, i, |acts|)
    requires var sent := ss[|acts|].sent;
      j < k < |sent| && InLog(sent[j].item.msg, i) && InLog(sent[k].item.msg, i)
    ensures var sent := ss[|acts|].sent;
      && Index(sent[j].item.msg) <= Index(sent[k].item.msg)
      && ((sent[j].session, sent[j].identifier) == (sent[k].session, sent[k].identifier) ==>
            Index(sent[j].item.msg) < Index(sent[k].item.msg))
  {
    var s := ss[|acts|];
    RunInOrder(w, gates, acts, ss, i, |acts|);
    RunRecorded(w, gates, acts, ss, i, |acts|);
    var a, b := s.sent[j].item, s.sent[k].item;
    assert IsRecorded(s.enqueued, a) && IsRecorded(s.enqueued, b);
    assert Faithful(s.stores, a.msg) && Faithful(s.stores, b.msg);
    Delivery.SendsFollowEnqueueOrder(w, gates, acts, ss, j, k);
    if a.no < b.no {
      assert Follows(s.enqueued[a.no], s.enqueued[b.no], i);
    }
  }

  // What a message carries.

  /** The message carries what the log has at its place. */
  predicate Carries(w: World, objects: seq<B.Object>, msg: Msg)
    requires Good(w)
  {
    msg.origin.Some? ==>
      var (i, j) := msg.origin.value;
      && i < |objects| && objects[i].owner == msg.stream
      && j < |Log(w, objects[i])| && Log(w, objects[i])[j].data == msg.data
  }

  ghost predicate AllCarry(w: World, s: State)
    requires Good(w)
  {
    && (forall e :: 0 <= e < |s.enqueued| ==> Carries(w, s.mem.objects, s.enqueued[e]))
    && (forall p :: p in s.pubs && s.pubs[p].Ready? ==> Carries(w, s.mem.objects, s.pubs[p].msg))
  }

  lemma {:induction false} CarriesStep(w: World, s: State, a: Action, msg: Msg)
    requires Good(w) && Sound(s) && Enabled(s, a) && LogsMatch(w, s) && Carries(w, s.mem.objects, msg)
    ensures Carries(w, Do(w, s, a).mem.objects, msg)
  {
    if msg.origin.Some? {
      assert LogMatches(w, s, msg.origin.value.0);
      LogStep(w, s, a, msg.origin.value.0);
      SoundStep(w, s, a);
      ExtendsStep(w, s, a);
    }
  }

  lemma {:induction false} StoredCarries(w: World, s: State, p: nat, now: int)
    requires Good(w) && Sound(s) && Enabled(s, Store(p, now)) && LogsMatch(w, s)
    ensures var s' := Do(w, s, Store(p, now)); s'.pubs[p].Ready? && Carries(w, s'.mem.objects, s'.pubs[p].msg)
  {
    var i := s.mem.held[p];
    assert LogMatches(w, s, i);
    History.RunSnoc(w.config, s.mem.objects[i].ops, History.Add(s.pubs[p].data, now));
  }

  lemma {:induction false} AllCarryStep(w: World, s: State, a: Action)
    requires Good(w) && Sound(s) && Enabled(s, a) && LogsMatch(w, s) && AllCarry(w, s)
    ensures AllCarry(w, Do(w, s, a))
  {
    var s' := Do(w, s, a);
    forall e | 0 <= e < |s'.enqueued|
      ensures Carries(w, s'.mem.objects, s'.enqueued[e])
    {
      CarriesStep(w, s, a, s'.enqueued[e]);
    }
    forall p | p in s'.pubs && s'.pubs[p].Ready?
      ensures Carries(w, s'.mem.objects, s'.pubs[p].msg)
    {
      if a.Store? && a.pub == p {
        StoredCarries(w, s, p, a.now);
      } else if !(a.Whisper? && a.pub == p) {
        CarriesStep(w, s, a, s'.pubs[p].msg);
      }
    }
  }

  lemma {:induction false} RunCarries(w: World, gates: nat, acts: seq<Action>, ss: seq<State>, k: nat)
    requires Good(w) && IsRun(w, gates, acts, ss) && k < |ss|
    ensures AllCarry(w, ss[k])
  {
    if k > 0 {
      RunCarries(w, gates, acts, ss, k - 1);
      RunKeeps(w, gates, acts, ss, k - 1);
      AllCarryStep(w, ss[k - 1], acts[k - 1]);
    }
  }

  /** In every interleaving, what is sent of a stored message is what the log of its stream has at its place. */
  lemma {:induction false} SentIsLogged(w: World, gates: nat, acts: seq<Action>, ss: seq<State>, k: nat)
    requires Good(w) && IsRun(w, gates, acts, ss)
    requires k < |ss[|acts|].sent| && ss[|acts|].sent[k].item.msg.origin.Some?
    ensures var s := ss[|acts|];
      var msg := s.sent[k].item.msg;
      var (i, j) := msg.origin.value;
      && i < |s.mem.objects| && s.mem.objects[i].owner == msg.stream
      && j < |Log(w, s.mem.objects[i])| && Log(w, s.mem.objects[i])[j].data == msg.data
  {
    var s := ss[|acts|];
    RunCarries(w, gates, acts, ss, |acts|);
    RunRecorded(w, gates, acts, ss, 0, |acts|);
    assert IsRecorded(s.enqueued, s.sent[k].item);
    assert Carries(w, s.mem.objects, s.enqueued[s.sent[k].item.no]);
  }

  // A client that comes back.

  lemma {:induction false} RunDeliversAt(w: World, gates: nat, acts: seq<Action>, ss: seq<State>, k: nat)
    requires Good(w) && gates >= 1 && IsRun(w, gates, acts, ss) && k < |ss|
    ensures |ss[k].gates| == gates && Delivery.Ordered(w, ss[k])
  {
    Delivery.RunDelivers(w, gates, acts[..k], ss[..k + 1]);
  }

  /** Everything in a gate's lane or behind it was enqueued no earlier than what that gate has sent. */
  lemma {:induction false} AheadOfPath(w: World, s: State, g: nat, k: nat, e: nat)
    requires Delivery.Ordered(w, s) && g < |s.gates| && k < |s.sent|
    requires Delivery.GateOf(w, |s.gates|, s.sent[k].item) == g
    requires e < |Delivery.Lane(s.gates[g]) + Delivery.Behind(s)|
    ensures s.sent[k].item.no <= (Delivery.Lane(s.gates[g]) + Delivery.Behind(s))[e].no
  {
    assert Delivery.LaneOk(w, |s.gates|, g, s.gates[g], Delivery.Behind(s), |s.enqueued|, s.sent);
    assert Delivery.Before(Delivery.Lane(s.gates[g]) + Delivery.Behind(s), s.gates[g].hand, s.sent[k].item);
  }

  ghost predicate OnItsWay(s: State, item: Item) {
    item in Delivery.Behind(s) || exists g :: 0 <= g < |s.gates| && item in Delivery.Lane(s.gates[g])
  }

  /** Nothing on its way was enqueued before something already sent of the same stream. */
  lemma {:induction false} SentComesFirst(w: World, s: State, k: nat, item: Item)
    requires Delivery.Ordered(w, s) && k < |s.sent| && s.sent[k].item.msg.stream == item.msg.stream
    requires OnItsWay(s, item)
    ensures s.sent[k].item.no <= item.no
  {
    var h := Delivery.GateOf(w, |s.gates|, s.sent[k].item);
    var behind := Delivery.Behind(s);
    if item in behind {
      var e :| 0 <= e < |behind| && behind[e] == item;
      AheadOfPath(w, s, h, k, |Delivery.Lane(s.gates[h])| + e);
    } else {
      var g :| 0 <= g < |s.gates| && item in Delivery.Lane(s.gates[g]);
      var e :| 0 <= e < |Delivery.Lane(s.gates[g])| && Delivery.Lane(s.gates[g])[e] == item;
      assert Delivery.LaneOk(w, |s.gates|, g, s.gates[g], behind, |s.enqueued|, s.sent);
      assert (Delivery.Lane(s.gates[g]) + behind)[e] == item;
      AheadOfPath(w, s, g, k, e);
    }
  }

  /** What is in flight is with a publisher or on its way. */
  lemma {:induction false} WhereInFlight(s: State, place: Place, to: (Name, Name)) returns (item: Item)
    requires InFlight(s, place, to) && !AmongPublishers(s.pubs, place)
    ensures OnItsWay(s, item) && At(item.msg, place)
  {
    if AmongItems(s.hubQueue, place) {
      var e :| 0 <= e < |s.hubQueue| && At(s.hubQueue[e].msg, place);
      item := s.hubQueue[e];
      assert item in Delivery.Behind(s);
    } else if InHubHand(s.hubHand, place) {
      item := s.hubHand.item;
      assert Delivery.Behind(s)[0] == item;
    } else {
      var g :| 0 <= g < |s.gates| && InGate(s.gates[g], place, to);
      item := InLane(s.gates[g], place, to);
    }
  }

  lemma {:induction false} InLane(gate: Gate, place: Place, to: (Name, Name)) returns (item: Item)
    requires InGate(gate, place, to)
    ensures item in Delivery.Lane(gate) && At(item.msg, place)
  {
    if AmongItems(gate.queue, place) {
      var e :| 0 <= e < |gate.queue| && At(gate.queue[e].msg, place);
      item := gate.queue[e];
    } else {
      item := gate.hand.item;
      assert Delivery.Lane(gate)[0] == item;
    }
  }

  lemma {:induction false} OnItsWayRecorded(s: State, item: Item)
    requires Recorded(s) && OnItsWay(s, item)
    ensures IsRecorded(s.enqueued, item)
  {
    if item !in Delivery.Behind(s) {
      var g :| 0 <= g < |s.gates| && item in Delivery.Lane(s.gates[g]);
      assert GateRecorded(s.enqueued, s.gates[g]);
    }
  }

  lemma {:induction false} WaitingComesLater(s: State, k: nat, p: nat, i: nat)
    requires Recorded(s) && WaitingBehind(s, i) && k < |s.sent| && InLog(s.sent[k].item.msg, i) && Between(s, p, i)
    ensures Index(s.sent[k].item.msg) < Index(s.pubs[p].msg)
  {
    assert IsRecorded(s.enqueued, s.sent[k].item);
    assert Follows(s.enqueued[s.sent[k].item.no], s.pubs[p].msg, i);
  }

  lemma {:induction false} OnItsWayComesLater(w: World, s: State, k: nat, item: Item, i: nat)
    requires Delivery.Ordered(w, s) && Recorded(s) && EnqueuedStored(s) && InOrder(s.enqueued, i)
    requires k < |s.sent| && InLog(s.sent[k].item.msg, i) && OnItsWay(s, item) && InLog(item.msg, i)
    ensures Index(s.sent[k].item.msg) <= Index(item.msg)
  {
    var sent := s.sent[k].item;
    OnItsWayRecorded(s, item);
    assert IsRecorded(s.enqueued, sent);
    assert Faithful(s.stores, s.enqueued[sent.no]) && Faithful(s.stores, s.enqueued[item.no]);
    SentComesFirst(w, s, k, item);
    assert sent.no < item.no ==> Follows(s.enqueued[sent.no], s.enqueued[item.no], i);
  }

  /** When nothing overtook, what is in flight of a log is not before anything that was sent of it. */
  lemma {:induction false} InFlightComesLater(w: World, s: State, i: nat, j: nat, later: nat, to: (Name, Name))
    requires Delivery.Ordered(w, s) && Recorded(s) && EnqueuedStored(s)
    requires InOrder(s.enqueued, i) && WaitingBehind(s, i)
    requires Delivered(s.sent, (i, j), to) && InFlight(s, (i, later), to)
    ensures j <= later
  {
    var k :| 0 <= k < |s.sent| && At(s.sent[k].item.msg, (i, j));
    if AmongPublishers(s.pubs, (i, later)) {
      var p :| p in s.pubs && s.pubs[p].Ready? && At(s.pubs[p].msg, (i, later));
      WaitingComesLater(s, k, p, i);
    } else {
      var item := WhereInFlight(s, (i, later), to);
      OnItsWayComesLater(w, s, k, item, i);
    }
  }

  ghost predicate SentOrExcluded(s: State, place: Place, to: (Name, Name)) {
    Delivered(s.sent, place, to) || Excludes(s.stores, place, to.0)
  }

  ghost predicate SentAs(s: State, k: nat, sent: Sent) {
    k < |s.sent| && s.sent[k] == sent
  }

  ghost predicate StoredAs(s: State, place: Place, owner: Name, exclude: Option<Name>) {
    IsStored(s, place) && s.stores[place.0].owner == owner && s.stores[place.0].excluded[place.1] == exclude
  }

  lemma {:induction false} SentAsStep(w: World, s: State, a: Action, k: nat, sent: Sent)
    requires Good(w) && Sound(s) && Enabled(s, a) && SentAs(s, k, sent)
    ensures SentAs(Do(w, s, a), k, sent)
  {
  }

  lemma {:induction false} StaysSent(
      w: World, gates: nat, acts: seq<Action>, ss: seq<State>, from: nat, till: nat, k: nat, sent: Sent)
    requires Good(w) && IsRun(w, gates, acts, ss) && from <= till < |ss| && SentAs(ss[from], k, sent)
    ensures SentAs(ss[till], k, sent)
    decreases till - from
  {
    if from < till {
      SentAsStep(w, ss[from], acts[from], k, sent);
      StaysSent(w, gates, acts, ss, from + 1, till, k, sent);
    }
  }

  lemma {:induction false} StoredAsStep(
      w: World, s: State, a: Action, place: Place, owner: Name, exclude: Option<Name>)
    requires Good(w) && Sound(s) && Enabled(s, a) && StoredAs(s, place, owner, exclude)
    ensures StoredAs(Do(w, s, a), place, owner, exclude)
  {
    ExtendsStep(w, s, a);
  }

  lemma {:induction false} StaysStored(
      w: World, gates: nat, acts: seq<Action>, ss: seq<State>, from: nat, till: nat, place: Place, owner: Name,
      exclude: Option<Name>)
    requires Good(w) && IsRun(w, gates, acts, ss) && from <= till < |ss| && StoredAs(ss[from], place, owner, exclude)
    ensures StoredAs(ss[till], place, owner, exclude)
    decreases till
  {
    if from < till {
      StaysStored(w, gates, acts, ss, from, till - 1, place, owner, exclude);
      StoredAsStep(w, ss[till - 1], acts[till - 1], place, owner, exclude);
    }
  }

  /** What was sent, and who is excluded, stays so. */
  lemma {:induction false} SentOrExcludedStays(
      w: World, gates: nat, acts: seq<Action>, ss: seq<State>, from: nat, till: nat, place: Place, to: (Name, Name))
    requires Good(w) && IsRun(w, gates, acts, ss) && from <= till < |ss| && SentOrExcluded(ss[from], place, to)
    ensures SentOrExcluded(ss[till], place, to)
  {
    var s := ss[from];
    if Delivered(s.sent, place, to) {
      var k :| 0 <= k < |s.sent| && At(s.sent[k].item.msg, place) &&
        (s.sent[k].session, s.sent[k].identifier) == to;
      StaysSent(w, gates, acts, ss, from, till, k, s.sent[k]);
    } else {
      StaysStored(w, gates, acts, ss, from, till, place, s.stores[place.0].owner, Some(to.0));
    }
  }

  /** When nothing overtakes, a client subscribed since `from` and sent a message by step `t` has been sent everything
      stored before it in the log since then, unless it is excluded. */
  lemma {:induction false} SentUpTo(
      w: World, gates: nat, acts: seq<Action>, ss: seq<State>, from: nat, t: nat, i: nat, j: nat, earlier: nat,
      to: (Name, Name))
    requires Good(w) && gates >= 1 && IsRun(w, gates, acts, ss) && from <= t < |ss| && NoOvertaking(acts, ss, i, t)
    requires Delivered(ss[t].sent, (i, j), to) && i < |ss[t].stores|
    requires Subscribed(ss, from, t, (ss[t].stores[i].owner, to.0, to.1))
    requires earlier < j && IsStored(ss[t], (i, earlier)) && !IsStored(ss[from], (i, earlier))
    ensures SentOrExcluded(ss[t], (i, earlier), to)
  {
    StoredSinceCovered(w, gates, acts, ss, from, t, ss[t].stores[i].owner, to, (i, earlier));
    if InFlight(ss[t], (i, earlier), to) {
      RunInOrder(w, gates, acts, ss, i, t);
      RunRecorded(w, gates, acts, ss, i, t);
      RunDeliversAt(w, gates, acts, ss, t);
      InFlightComesLater(w, ss[t], i, j, earlier, to);
    }
  }

  lemma {:induction false} SentIsStored(
      w: World, gates: nat, acts: seq<Action>, ss: seq<State>, t: nat, place: Place, to: (Name, Name))
    requires Good(w) && IsRun(w, gates, acts, ss) && t < |ss| && Delivered(ss[t].sent, place, to)
    ensures IsStored(ss[t], place)
  {
    RunRecorded(w, gates, acts, ss, place.0, t);
    var k :| 0 <= k < |ss[t].sent| && At(ss[t].sent[k].item.msg, place);
    var item := ss[t].sent[k].item;
    assert IsRecorded(ss[t].enqueued, item);
    assert Faithful(ss[t].stores, ss[t].enqueued[item.no]);
  }

  /** The n-th message of a log has offset n + 1. */
  lemma {:induction false} OffsetsFollowLog(w: World, o: B.Object, j: nat, k: nat)
    requires Good(w) && History.NoWrap(w.config, o.ops) && j < k < |Log(w, o)|
    ensures Log(w, o)[j].offset < Log(w, o)[k].offset
  {
    History.NumberedIffNoWrap(w.config, o.ops);
  }

  /** A client has been subscribed from step `from` to step `t`, when it has been sent message `j` of log `i`. It is
      subscribed again since step `again`, and at step `k` answered a resume from the offset of that message. */
  ghost predicate CameBack(
      w: World, acts: seq<Action>, ss: seq<State>, from: nat, t: nat, again: nat, k: nat, r: nat, j: nat)
    requires Good(w) && |ss| == |acts| + 1
  {
    && from <= t <= k && again <= k < |acts| && acts[k] == Read(r) && r in ss[k].readers
    && var rd := ss[k].readers[r];
       var i, to := rd.obj, (rd.session, rd.identifier);
       && i < |ss[t].stores| && i < |ss[k].mem.objects|
       && Subscribed(ss, from, t, (ss[t].stores[i].owner, to.0, to.1))
       && Delivered(ss[t].sent, (i, j), to)
       && Subscribed(ss, again, |acts|, (ss[t].stores[i].owner, to.0, to.1))
       && History.NoWrap(w.config, ss[k].mem.objects[i].ops)
       && HistoryOf(w, ss[k].mem.objects[i], rd.offset).Ok?
       && j < |Log(w, ss[k].mem.objects[i])| && rd.offset == Log(w, ss[k].mem.objects[i])[j].offset
  }

  lemma {:induction false} BeforeLastSent(
      w: World, gates: nat, acts: seq<Action>, ss: seq<State>, from: nat, t: nat, again: nat, k: nat, r: nat, j: nat,
      n: nat)
    requires Good(w) && gates >= 1 && IsRun(w, gates, acts, ss) && CameBack(w, acts, ss, from, t, again, k, r, j)
    requires NoOvertaking(acts, ss, ss[k].readers[r].obj, t)
    requires n <= j && !IsStored(ss[from], (ss[k].readers[r].obj, n))
    ensures var rd := ss[k].readers[r];
      SentOrExcluded(ss[|acts|], (rd.obj, n), (rd.session, rd.identifier))
  {
    var rd := ss[k].readers[r];
    var i, to := rd.obj, (rd.session, rd.identifier);
    if n < j {
      SentIsStored(w, gates, acts, ss, t, (i, j), to);
      SentUpTo(w, gates, acts, ss, from, t, i, j, n, to);
    }
    SentOrExcludedStays(w, gates, acts, ss, t, |acts|, (i, n), to);
  }

  lemma {:induction false} AfterLastSent(
      w: World, gates: nat, acts: seq<Action>, ss: seq<State>, from: nat, t: nat, again: nat, k: nat, r: nat, j: nat,
      n: nat)
    requires Good(w) && IsRun(w, gates, acts, ss) && CameBack(w, acts, ss, from, t, again, k, r, j)
    requires n > j && IsStored(ss[|acts|], (ss[k].readers[r].obj, n))
    ensures var rd, s := ss[k].readers[r], ss[|acts|];
      && rd.obj < |s.mem.objects| && n < |Log(w, s.mem.objects[rd.obj])|
      && (|| Covered(s, (rd.obj, n), (rd.session, rd.identifier))
          || Log(w, s.mem.objects[rd.obj])[n] in HistoryOf(w, ss[k].mem.objects[rd.obj], rd.offset).value)
  {
    var rd, s := ss[k].readers[r], ss[|acts|];
    var i, to := rd.obj, (rd.session, rd.identifier);
    var owner := ss[t].stores[i].owner;
    SentIsStored(w, gates, acts, ss, t, (i, j), to);
    var exclude := ss[t].stores[i].excluded[j];
    StaysStored(w, gates, acts, ss, t, k, (i, j), owner, exclude);
    StaysStored(w, gates, acts, ss, t, |acts|, (i, j), owner, exclude);
    NothingMissed(w, gates, acts, ss, again, k, r, (i, n));
    if IsStored(ss[k], (i, n)) {
      RunKeeps(w, gates, acts, ss, k);
      assert LogMatches(w, ss[k], i);
      LogsOnlyGrow(w, gates, acts, ss, k, |acts|, i);
      OffsetsFollowLog(w, ss[k].mem.objects[i], j, n);
    }
  }

  /** When nothing overtakes, a client that comes back and asks for what followed the last message it was sent misses
      nothing: everything stored in the log since it first subscribed has been sent to it, is on its way, excludes it,
      or is in the reply. */
  lemma {:induction false} ComesBackWhole(
      w: World, gates: nat, acts: seq<Action>, ss: seq<State>, from: nat, t: nat, again: nat, k: nat, r: nat, j: nat,
      n: nat)
    requires Good(w) && gates >= 1 && IsRun(w, gates, acts, ss) && CameBack(w, acts, ss, from, t, again, k, r, j)
    requires var i := ss[k].readers[r].obj;
      NoOvertaking(acts, ss, i, t) && IsStored(ss[|acts|], (i, n)) && !IsStored(ss[from], (i, n))
    ensures var rd, s := ss[k].readers[r], ss[|acts|];
      && rd.obj < |s.mem.objects| && n < |Log(w, s.mem.objects[rd.obj])|
      && (|| Covered(s, (rd.obj, n), (rd.session, rd.identifier))
          || Log(w, s.mem.objects[rd.obj])[n] in HistoryOf(w, ss[k].mem.objects[rd.obj], rd.offset).value)
  {
    if n <= j {
      BeforeLastSent(w, gates, acts, ss, from, t, again, k, r, j, n);
      RunKeeps(w, gates, acts, ss, |acts|);
      assert LogMatches(w, ss[|acts|], ss[k].readers[r].obj);
    } else {
      AfterLastSent(w, gates, acts, ss, from, t, again, k, r, j, n);
    }
  }

  // Publishers that overtake.

  ghost predicate Reached(w: World, acts: seq<Action>, ss: seq<State>, s: State)
    requires Good(w)
  {
    IsRun(w, 1, acts, ss) && ss[|acts|] == s && Sound(s)
  }

  lemma Then(w: World, acts: seq<Action>, ss: seq<State>, s: State, a: Action, s': State)
    requires Good(w) && Reached(w, acts, ss, s) && Enabled(s, a) && s' == Do(w, s, a)
    ensures Reached(w, acts + [a], ss + [s'], s')
  {
    SoundStep(w, s, a);
  }

  /** One stream, one gate: the broker with the stream's operations, and nothing on its way yet. */
  function Stage(
      e: Name, stream: Name, ops: seq<History.Op>, excluded: seq<Option<Name>>, held: map<nat, nat>,
      pubs: map<nat, Publisher>): State
  {
    State(B.State(e, [B.Object(stream, ops)], map[stream := 0], held, None), [Stored(stream, excluded)], pubs,
      [], [], HubIdle, [Gate([], GateIdle)], {}, [], map[], map[])
  }

  function Message(stream: Name, data: string, k: nat): Msg {
    Msg(stream, data, None, Some((0, k)))
  }

  /** A publisher has looked the stream up. */
  lemma OneFound(w: World, e: Name, stream: Name) returns (acts: seq<Action>, ss: seq<State>)
    requires Good(w)
    ensures Reached(w, acts, ss, Stage(e, stream, [], [], map[0 := 0], map[0 := Found(stream, "a", None)]))
  {
    var start := State(B.Initial(e), [], map[], [], [], HubIdle, [Gate([], GateIdle)], {}, [], map[], map[]);
    assert start.gates == seq(1, i => Gate([], GateIdle));
    var a, one :=
      Lookup(0, stream, "a", None), Stage(e, stream, [], [], map[0 := 0], map[0 := Found(stream, "a", None)]);
    Then(w, [], [start], start, a, one);
    acts, ss := [] + [a], [start] + [one];
  }

  /** Another one has, too. */
  lemma BothFound(w: World, e: Name, stream: Name) returns (acts: seq<Action>, ss: seq<State>)
    requires Good(w)
    ensures Reached(w, acts, ss, Stage(e, stream, [], [], map[0 := 0, 1 := 0],
      map[0 := Found(stream, "a", None), 1 := Found(stream, "b", None)]))
  {
    acts, ss := OneFound(w, e, stream);
    var b := Lookup(1, stream, "b", None);
    var one := Stage(e, stream, [], [], map[0 := 0], map[0 := Found(stream, "a", None)]);
    var two := Stage(e, stream, [], [], map[0 := 0, 1 := 0],
      map[0 := Found(stream, "a", None), 1 := Found(stream, "b", None)]);
    Then(w, acts, ss, one, b, two);
    acts, ss := acts + [b], ss + [two];
  }

  /** The first one has stored its message. */
  lemma FirstStored(w: World, e: Name, stream: Name, now: int) returns (acts: seq<Action>, ss: seq<State>)
    requires Good(w)
    ensures Reached(w, acts, ss, Stage(e, stream, [History.Add("a", now)], [None], map[1 := 0],
      map[0 := Ready(Message(stream, "a", 0)), 1 := Found(stream, "b", None)]))
  {
    acts, ss := BothFound(w, e, stream);
    var two := Stage(e, stream, [], [], map[0 := 0, 1 := 0],
      map[0 := Found(stream, "a", None), 1 := Found(stream, "b", None)]);
    var three := Stage(e, stream, [History.Add("a", now)], [None], map[1 := 0],
      map[0 := Ready(Message(stream, "a", 0)), 1 := Found(stream, "b", None)]);
    assert [] + [History.Add("a", now)] == [History.Add("a", now)] && map[0 := 0, 1 := 0] - {0} == map[1 := 0];
    assert two.stores[0].excluded + [None] == [None];
    Then(w, acts, ss, two, Store(0, now), three);
    acts, ss := acts + [Store(0, now)], ss + [three];
  }

  /** And then the second one. */
  lemma BothStored(w: World, e: Name, stream: Name, now: int) returns (acts: seq<Action>, ss: seq<State>)
    requires Good(w)
    ensures Reached(w, acts, ss, Stage(e, stream, [History.Add("a", now), History.Add("b", now)], [None, None], map[],
      map[0 := Ready(Message(stream, "a", 0)), 1 := Ready(Message(stream, "b", 1))]))
  {
    acts, ss := FirstStored(w, e, stream, now);
    var three := Stage(e, stream, [History.Add("a", now)], [None], map[1 := 0],
      map[0 := Ready(Message(stream, "a", 0)), 1 := Found(stream, "b", None)]);
    var four := Stage(e, stream, [History.Add("a", now), History.Add("b", now)], [None, None], map[],
      map[0 := Ready(Message(stream, "a", 0)), 1 := Ready(Message(stream, "b", 1))]);
    assert map[1 := 0] - {1} == map[] && three.stores[0].excluded + [None] == [None, None];
    assert three.mem.objects[0].ops + [History.Add("b", now)] == four.mem.objects[0].ops;
    Then(w, acts, ss, three, Store(1, now), four);
    acts, ss := acts + [Store(1, now)], ss + [four];
  }

  /** Both messages are stored, and this is what is on its way. */
  function Way(
      e: Name, stream: Name, now: int, pubs: map<nat, Publisher>, enqueued: seq<Msg>, hubQueue: seq<Item>,
      hubHand: HubHand, gate: Gate, rel: set<Hub.Triple>, sent: seq<Sent>,
        snapshots: map<nat, set<(Name, Name)>>): State
  {
    State(B.State(e, [B.Object(stream, [History.Add("a", now), History.Add("b", now)])], map[stream := 0], map[], None),
      [Stored(stream, [None, None])], pubs, enqueued, hubQueue, hubHand, [gate], rel, sent, snapshots, map[])
  }

  /** The second message is enqueued first, with one subscriber there. */
  lemma SecondEnqueued(w: World, e: Name, stream: Name, now: int, to: (Name, Name))
      returns (acts: seq<Action>, ss: seq<State>)
    requires Good(w)
    ensures var b := Message(stream, "b", 1);
      Reached(w, acts, ss, Way(e, stream, now, map[0 := Ready(Message(stream, "a", 0))], [b], [Item(0, b)], HubIdle,
        Gate([], GateIdle), {(stream, to.0, to.1)}, [], map[]))
  {
    acts, ss := BothStored(w, e, stream, now);
    var a, b, t := Message(stream, "a", 0), Message(stream, "b", 1), (stream, to.0, to.1);
    var four :=
      Way(e, stream, now, map[0 := Ready(a), 1 := Ready(b)], [], [], HubIdle, Gate([], GateIdle), {}, [], map[]);
    var five := four.(rel := {t});
    Then(w, acts, ss, four, Subscribe(t), five);
    acts, ss := acts + [Subscribe(t)], ss + [five];
    var six := five.(pubs := map[0 := Ready(a)], enqueued := [b], hubQueue := [Item(0, b)]);
    assert map[0 := Ready(a), 1 := Ready(b)] - {1} == map[0 := Ready(a)];
    Then(w, acts, ss, five, Enqueue(1), six);
    acts, ss := acts + [Enqueue(1)], ss + [six];
  }

  /** It reaches the gate. */
  lemma SecondForwarded(w: World, e: Name, stream: Name, now: int, to: (Name, Name))
      returns (acts: seq<Action>, ss: seq<State>)
    requires Good(w)
    ensures var b := Message(stream, "b", 1);
      Reached(w, acts, ss, Way(e, stream, now, map[0 := Ready(Message(stream, "a", 0))], [b], [], HubIdle,
        Gate([Item(0, b)], GateIdle), {(stream, to.0, to.1)}, [], map[]))
  {
    acts, ss := SecondEnqueued(w, e, stream, now, to);
    var a, b, t := Message(stream, "a", 0), Message(stream, "b", 1), (stream, to.0, to.1);
    var s := Way(e, stream, now, map[0 := Ready(a)], [b], [Item(0, b)], HubIdle, Gate([], GateIdle), {t}, [], map[]);
    var next := s.(hubQueue := [], hubHand := Taken(Item(0, b)));
    Then(w, acts, ss, s, HubTake, next);
    acts, ss, s := acts + [HubTake], ss + [next], next;
    assert t in s.rel && t.0 == stream;
    next := s.(hubHand := Passed(Item(0, b)));
    Then(w, acts, ss, s, HubCheck, next);
    acts, ss, s := acts + [HubCheck], ss + [next], next;
    next := s.(hubHand := HubIdle, gates := [Gate([Item(0, b)], GateIdle)]);
    assert s.gates[0].queue + [Item(0, b)] == [Item(0, b)];
    Then(w, acts, ss, s, HubForward, next);
    acts, ss := acts + [HubForward], ss + [next];
  }

  /** It is sent. */
  lemma SecondSent(w: World, e: Name, stream: Name, now: int, to: (Name, Name))
      returns (acts: seq<Action>, ss: seq<State>)
    requires Good(w)
    ensures var b := Message(stream, "b", 1);
      Reached(w, acts, ss, Way(e, stream, now, map[0 := Ready(Message(stream, "a", 0))], [b], [], HubIdle,
        Gate([], GateIdle), {(stream, to.0, to.1)}, [Sent(to.0, to.1, Item(0, b))], map[0 := {to}]))
  {
    acts, ss := SecondForwarded(w, e, stream, now, to);
    var a, b, t := Message(stream, "a", 0), Message(stream, "b", 1), (stream, to.0, to.1);
    var s := Way(e, stream, now, map[0 := Ready(a)], [b], [], HubIdle, Gate([Item(0, b)], GateIdle), {t}, [], map[]);
    var next := s.(gates := [Gate([], Took(Item(0, b)))]);
    assert s.gates[0].queue[1..] == [];
    Then(w, acts, ss, s, GateTake(0), next);
    acts, ss, s := acts + [GateTake(0)], ss + [next], next;
    OnlyListener(b, t);
    next := s.(gates := [Gate([], Sending(Item(0, b), {to}))], snapshots := map[0 := {to}]);
    Then(w, acts, ss, s, GateSnapshot(0), next);
    acts, ss, s := acts + [GateSnapshot(0)], ss + [next], next;
    assert {to} - {to} == {};
    next := s.(gates := [Gate([], Sending(Item(0, b), {}))], sent := [Sent(to.0, to.1, Item(0, b))]);
    Then(w, acts, ss, s, GateSend(0, to), next);
    acts, ss, s := acts + [GateSend(0, to)], ss + [next], next;
    next := s.(gates := [Gate([], GateIdle)]);
    Then(w, acts, ss, s, GateDone(0), next);
    acts, ss := acts + [GateDone(0)], ss + [next];
  }

  lemma OnlyListener(msg: Msg, t: Hub.Triple)
    requires msg.exclude.None? && t.0 == msg.stream
    ensures Audience({t}, msg) == {(t.1, t.2)}
  {
  }

  /** A run in which the session is sent the second message before the first, drops its subscription, and
      subscribes again when the first has passed. Nothing is on its way any more. A resume from the offset it
      saw is answered with nothing, and the first message is lost to it. */
  lemma ResumeMissesOvertaken(w: World, e: Name, stream: Name, now: int, to: (Name, Name))
      returns (acts: seq<Action>, ss: seq<State>)
    requires Good(w) && w.config.limit >= 2
    ensures IsRun(w, 1, acts, ss)
    ensures var s := ss[|acts|];
      && (stream, to.0, to.1) in s.rel && Delivered(s.sent, (0, 1), to) && !Covered(s, (0, 0), to)
      && |s.mem.objects| == 1 && HistoryOf(w, s.mem.objects[0], 2) == History.Ok([])
      && |Log(w, s.mem.objects[0])| == 2
      && Log(w, s.mem.objects[0])[0].offset == 1 && Log(w, s.mem.objects[0])[1].offset == 2
  {
    acts, ss := SecondSent(w, e, stream, now, to);
    var a, b, t := Message(stream, "a", 0), Message(stream, "b", 1), (stream, to.0, to.1);
    var sent := [Sent(to.0, to.1, Item(0, b))];
    var s := Way(e, stream, now, map[0 := Ready(a)], [b], [], HubIdle, Gate([], GateIdle), {t}, sent, map[0 := {to}]);
    var next := s.(rel := {});
    assert {t} - {t} == {};
    Then(w, acts, ss, s, Unsubscribe(t), next);
    acts, ss, s := acts + [Unsubscribe(t)], ss + [next], next;
    next := s.(pubs := map[], enqueued := [b] + [a], hubQueue := [Item(1, a)]);
    assert map[0 := Ready(a)] - {0} == map[];
    Then(w, acts, ss, s, Enqueue(0), next);
    acts, ss, s := acts + [Enqueue(0)], ss + [next], next;
    acts, ss := FirstIgnored(w, e, stream, now, to, acts, ss);
    TwoInLog(w, stream, now);
  }

  lemma FirstIgnored(
      w: World, e: Name, stream: Name, now: int, to: (Name, Name), acts: seq<Action>, ss: seq<State>)
      returns (acts': seq<Action>, ss': seq<State>)
    requires Good(w)
    requires var a, b := Message(stream, "a", 0), Message(stream, "b", 1);
      Reached(w, acts, ss, Way(e, stream, now, map[], [b] + [a], [Item(1, a)], HubIdle, Gate([], GateIdle), {},
        [Sent(to.0, to.1, Item(0, b))], map[0 := {to}]))
    ensures var a, b := Message(stream, "a", 0), Message(stream, "b", 1);
      var s := Way(e, stream, now, map[], [b] + [a], [], HubIdle, Gate([], GateIdle), {(stream, to.0, to.1)},
        [Sent(to.0, to.1, Item(0, b))], map[0 := {to}]);
      Reached(w, acts', ss', s) && Delivered(s.sent, (0, 1), to) && !Covered(s, (0, 0), to)
  {
    var a, b, t := Message(stream, "a", 0), Message(stream, "b", 1), (stream, to.0, to.1);
    var sent := [Sent(to.0, to.1, Item(0, b))];
    var s := Way(e, stream, now, map[], [b] + [a], [Item(1, a)], HubIdle, Gate([], GateIdle), {}, sent, map[0 := {to}]);
    var next := s.(hubQueue := [], hubHand := Taken(Item(1, a)));
    Then(w, acts, ss, s, HubTake, next);
    acts', ss', s := acts + [HubTake], ss + [next], next;
    next := s.(hubHand := HubIdle);
    Then(w, acts', ss', s, HubCheck, next);
    acts', ss', s := acts' + [HubCheck], ss' + [next], next;
    next := s.(rel := {t});
    Then(w, acts', ss', s, Subscribe(t), next);
    acts', ss' := acts' + [Subscribe(t)], ss' + [next];
    assert At(sent[0].item.msg, (0, 1));
  }

  lemma TwoInLog(w: World, stream: Name, now: int)
    requires Good(w) && w.config.limit >= 2
    ensures var o := B.Object(stream, [History.Add("a", now), History.Add("b", now)]);
      && HistoryOf(w, o, 2) == History.Ok([])
      && |Log(w, o)| == 2 && Log(w, o)[0].offset == 1 && Log(w, o)[1].offset == 2
  {
    var x, y := History.Add("a", now), History.Add("b", now);
    History.RunOne(w.config, x);
    History.RunSnoc(w.config, [x], y);
    assert [x] + [y] == [x, y];
    var data := [History.Entry(now, 1, "a")] + [History.Entry(now, 2, "b")];
    assert History.Run(w.config, [x, y]).data == data && data[2..] == [];
  }
}
