/**
 The hub at the granularity of its locks (`hub/hub.go`): a subscribe and an unsubscribe change a gate first
 and the session's list afterwards, and a removal takes three turns. Operations of many callers interleave.
 */
module HubSteps {
  import opened Names
  import opened SessionStreams
  import H = Hub

  /** What a caller is in the middle of: a gate is changed and the list is next, or a removal has found the
      session registered, or has cleared the gates. */
  datatype Doing =
    | Listing(session: Name, pair: Pair)
    | Unlisting(session: Name, pair: Pair)
    | Removing(session: Name)
    | Swept(session: Name)

  datatype State = State(hub: H.Flat, doing: map<nat, Doing>)

  datatype Action =
    | Add(session: Name)
    | SubscribeGate(caller: nat, session: Name, pair: Pair)
    | UnsubscribeGate(caller: nat, session: Name, pair: Pair)
    | Channel(session: Name, identifier: Name)
    | RemoveCheck(caller: nat, session: Name)
    | Continue(caller: nat)

  const START := State(H.Flat({}, map[]), map[])

  predicate Enabled(s: State, a: Action) {
    match a
    case Add(_) => true
    case SubscribeGate(h, _, _) => h !in s.doing
    case UnsubscribeGate(h, _, _) => h !in s.doing
    case Channel(_, _) => true
    case RemoveCheck(h, x) => h !in s.doing && x in s.hub.lists
    case Continue(h) => h in s.doing
  }

  function Triple(x: Name, p: Pair): H.Triple {
    (p.0, x, p.1)
  }

  /** The critical section a caller goes on with. */
  function Finish(s: State, h: nat, d: Doing): State {
    var hub, left := s.hub, s.doing - {h};
    match d
    case Listing(x, p) => State(hub.(lists := hub.lists[x := H.ListOf(hub, x) + [p]]), left)
    case Unlisting(x, p) =>
      State(if x in hub.lists then hub.(lists := hub.lists[x := RemoveFirst(hub.lists[x], p)]) else hub, left)
    case Removing(x) =>
      State(hub.(rel := hub.rel - H.Triples(x, H.ElementsOf(H.ListOf(hub, x)))), s.doing[h := Swept(x)])
    case Swept(x) => State(hub.(lists := hub.lists - {x}), left)
  }

  function Do(s: State, a: Action): State
    requires Enabled(s, a)
  {
    match a
    case Add(x) => s.(hub := H.Step(s.hub, H.AddSession(x)))
    case SubscribeGate(h, x, p) => State(s.hub.(rel := s.hub.rel + {Triple(x, p)}), s.doing[h := Listing(x, p)])
    case UnsubscribeGate(h, x, p) => State(s.hub.(rel := s.hub.rel - {Triple(x, p)}), s.doing[h := Unlisting(x, p)])
    case Channel(x, id) => s.(hub := H.Step(s.hub, H.UnsubscribeChannel(x, id)))
    case RemoveCheck(h, x) => s.(doing := s.doing[h := Removing(x)])
    case Continue(h) => Finish(s, h, s.doing[h])
  }

  ghost predicate Busy(s: State, x: Name) {
    exists h :: h in s.doing && s.doing[h].session == x
  }

  /** An operation on `x` begins only when none is in progress, and `x` is added only while no gate mentions it. */
  ghost predicate InTurn(s: State, a: Action, x: Name) {
    && (!a.Continue? && a.session == x ==> !Busy(s, x))
    && (a.Add? && a.session == x ==> forall p :: Triple(x, p) !in s.hub.rel)
  }

  ghost predicate IsRun(acts: seq<Action>, ss: seq<State>) {
    && |ss| == |acts| + 1 && ss[0] == START
    && forall i :: 0 <= i < |acts| ==> Enabled(ss[i], acts[i]) && ss[i + 1] == Do(ss[i], acts[i])
  }

  ghost predicate TakesTurns(acts: seq<Action>, ss: seq<State>, x: Name) {
    forall i :: 0 <= i < |acts| && i < |ss| ==> InTurn(ss[i], acts[i], x)
  }

  predicate IsListed(f: H.Flat, x: Name, p: Pair) {
    x in f.lists && p in f.lists[x]
  }

  /** Every subscription of `x` in a gate is on its list, or about to be; none is left when its gates are cleared. */
  ghost predicate Tracked(s: State, x: Name) {
    && (forall h, i :: h in s.doing && i in s.doing && s.doing[h].session == x && s.doing[i].session == x ==> h == i)
    && (forall p :: Triple(x, p) in s.hub.rel ==>
          IsListed(s.hub, x, p) || exists h :: h in s.doing && s.doing[h] == Listing(x, p))
    && (forall h, p :: h in s.doing && (s.doing[h] == Swept(x) || s.doing[h] == Unlisting(x, p)) ==>
          Triple(x, p) !in s.hub.rel)
  }

  lemma OthersKeep(s: State, a: Action, x: Name, p: Pair)
    requires Enabled(s, a) && !a.Continue? && a.session != x
    ensures Triple(x, p) in Do(s, a).hub.rel <==> Triple(x, p) in s.hub.rel
    ensures IsListed(Do(s, a).hub, x, p) <==> IsListed(s.hub, x, p)
  {
    if a.Channel? {
      H.OthersUntouched(s.hub, H.UnsubscribeChannel(a.session, a.identifier), p.0, x, p.1);
    }
  }

  lemma BeginElsewhere(s: State, a: Action, x: Name)
    requires Enabled(s, a) && !a.Continue? && a.session != x && Tracked(s, x)
    ensures Tracked(Do(s, a), x)
  {
    var s' := Do(s, a);
    forall p | Triple(x, p) in s'.hub.rel
      ensures IsListed(s'.hub, x, p) || exists h :: h in s'.doing && s'.doing[h] == Listing(x, p)
    {
      OthersKeep(s, a, x, p);
      if h :| h in s.doing && s.doing[h] == Listing(x, p) {
        assert h in s'.doing && s'.doing[h] == Listing(x, p);
      }
    }
    forall h, p | h in s'.doing && (s'.doing[h] == Swept(x) || s'.doing[h] == Unlisting(x, p))
      ensures Triple(x, p) !in s'.hub.rel
    {
      OthersKeep(s, a, x, p);
      assert h in s.doing && s.doing[h] == s'.doing[h];
    }
  }

  lemma BeginHere(s: State, a: Action, x: Name)
    requires Enabled(s, a) && !a.Continue? && a.session == x && Tracked(s, x) && InTurn(s, a, x)
    ensures Tracked(Do(s, a), x)
  {
    var s' := Do(s, a);
    forall h | h in s'.doing && s'.doing[h].session == x
      ensures !a.Add? && !a.Channel? && h == a.caller
    {
    }
    forall p | Triple(x, p) in s'.hub.rel
      ensures IsListed(s'.hub, x, p) || exists h :: h in s'.doing && s'.doing[h] == Listing(x, p)
    {
      if a.SubscribeGate? && p == a.pair {
        assert s'.doing[a.caller] == Listing(x, p);
      } else {
        BeginKeepsListed(s, a, x, p);
      }
    }
  }

  lemma BeginKeepsListed(s: State, a: Action, x: Name, p: Pair)
    requires Enabled(s, a) && !a.Continue? && a.session == x && Tracked(s, x) && InTurn(s, a, x)
    requires Triple(x, p) in Do(s, a).hub.rel && !(a.SubscribeGate? && p == a.pair)
    ensures IsListed(Do(s, a).hub, x, p)
  {
    if a.Channel? && x in s.hub.lists {
      var list := s.hub.lists[x];
      H.InTriples(x, Sweep(list, |list|, 0, a.identifier).1, p.0, x, p.1);
      SweepTouches(list, |list|, 0, a.identifier, list);
      assert list[..|list|] == list;
    }
    assert Triple(x, p) in s.hub.rel;
    if h :| h in s.doing && s.doing[h] == Listing(x, p) {
      assert Busy(s, x);
    }
  }

  lemma Continues(s: State, h: nat, x: Name)
    requires h in s.doing && Tracked(s, x)
    ensures Tracked(Do(s, Continue(h)), x)
  {
    var s', d := Do(s, Continue(h)), s.doing[h];
    forall p
      ensures Triple(x, p) in s'.hub.rel ==> Triple(x, p) in s.hub.rel
      ensures Triple(x, p) in s'.hub.rel && d == Removing(x) ==> !IsListed(s.hub, x, p)
    {
      if d.Removing? {
        H.InTriples(d.session, H.ElementsOf(H.ListOf(s.hub, d.session)), p.0, x, p.1);
      }
    }
    forall p | Triple(x, p) in s'.hub.rel
      ensures IsListed(s'.hub, x, p) || exists i :: i in s'.doing && s'.doing[i] == Listing(x, p)
    {
      ContinueKeepsListed(s, h, x, p);
    }
    if d == Removing(x) {
      forall p
        ensures Triple(x, p) !in s'.hub.rel
      {
        assert forall i :: i in s.doing && i != h ==> s.doing[i] != Listing(x, p);
      }
    }
  }

  lemma ContinueKeepsListed(s: State, h: nat, x: Name, p: Pair)
    requires h in s.doing && Tracked(s, x) && Triple(x, p) in Do(s, Continue(h)).hub.rel && Triple(x, p) in s.hub.rel
    ensures var s' := Do(s, Continue(h));
      IsListed(s'.hub, x, p) || exists i :: i in s'.doing && s'.doing[i] == Listing(x, p)
  {
    var s', d := Do(s, Continue(h)), s.doing[h];
    if IsListed(s.hub, x, p) {
      if d.Unlisting? && d.session == x {
        assert p != d.pair;
        RemoveFirstKeeps(s.hub.lists[x], d.pair, p);
      }
    } else {
      var i :| i in s.doing && s.doing[i] == Listing(x, p);
      if i == h {
        assert p in H.ListOf(s.hub, x) + [p];
      } else {
        assert i in s'.doing && s'.doing[i] == Listing(x, p);
      }
    }
  }

  lemma {:induction false} RunTracked(acts: seq<Action>, ss: seq<State>, x: Name, k: nat)
    requires IsRun(acts, ss) && TakesTurns(acts, ss, x) && k < |ss|
    ensures Tracked(ss[k], x)
  {
    if k > 0 {
      var s, a := ss[k - 1], acts[k - 1];
      RunTracked(acts, ss, x, k - 1);
      if a.Continue? {
        Continues(s, a.caller, x);
      } else if a.session == x {
        BeginHere(s, a, x);
      } else {
        BeginElsewhere(s, a, x);
      }
    }
  }

  /** However the operations of other sessions interleave: if those of `x` take turns, then between them every
      subscription of `x` in a gate is on its list, and when a removal of `x` ends no gate mentions it. */
  lemma SurvivesSplit(acts: seq<Action>, ss: seq<State>, x: Name, p: Pair)
    requires IsRun(acts, ss) && TakesTurns(acts, ss, x)
    ensures var s := ss[|acts|]; !Busy(s, x) && Triple(x, p) in s.hub.rel ==> IsListed(s.hub, x, p)
    ensures var n := |acts|;
      n > 0 && acts[n - 1].Continue? && ss[n - 1].doing[acts[n - 1].caller] == Swept(x) ==>
        Triple(x, p) !in ss[n].hub.rel
  {
    RunTracked(acts, ss, x, |acts|);
    var s, n := ss[|acts|], |acts|;
    if h :| h in s.doing && s.doing[h] == Listing(x, p) {
      assert Busy(s, x);
    }
    if n > 0 && acts[n - 1].Continue? && ss[n - 1].doing[acts[n - 1].caller] == Swept(x) {
      RunTracked(acts, ss, x, n - 1);
      assert ss[n].hub.rel == ss[n - 1].hub.rel;
    }
  }

  // The same steps, uninterrupted, are the operations of the hub.

  lemma {:induction false} BackAgain(doing: map<nat, Doing>, h: nat, d: Doing)
    requires h !in doing
    ensures doing[h := d] - {h} == doing
  {
  }

  lemma {:induction false} SubscribeAlone(s: State, h: nat, x: Name, p: Pair)
    requires Enabled(s, SubscribeGate(h, x, p))
    ensures var mid := Do(s, SubscribeGate(h, x, p));
      Enabled(mid, Continue(h)) && Do(mid, Continue(h)) == s.(hub := H.Step(s.hub, H.Subscribe(x, p.0, p.1)))
  {
    BackAgain(s.doing, h, Listing(x, p));
  }

  lemma {:induction false} UnsubscribeAlone(s: State, h: nat, x: Name, p: Pair)
    requires Enabled(s, UnsubscribeGate(h, x, p))
    ensures var mid := Do(s, UnsubscribeGate(h, x, p));
      Enabled(mid, Continue(h)) && Do(mid, Continue(h)) == s.(hub := H.Step(s.hub, H.Unsubscribe(x, p.0, p.1)))
  {
    BackAgain(s.doing, h, Unlisting(x, p));
  }

  /** What is one critical section in the code is one operation of the hub in any case. */
  lemma {:induction false} OneSection(s: State, x: Name, id: Name, t: H.Triple)
    ensures Do(s, Add(x)) == s.(hub := s.hub.(lists := s.hub.lists[x := []]))
    ensures var after := Do(s, Channel(x, id));
      && after.doing == s.doing
      && (t in after.hub.rel <==>
            t in s.hub.rel && !(t.1 == x && t.2 == id && x in s.hub.lists && (t.0, id) in Reads(s.hub.lists[x], id)))
  {
    var f := H.UnsubscribeChannel(x, id);
    if t.1 != x {
      H.OthersUntouched(s.hub, f, t.0, t.1, t.2);
    } else if t.2 != id {
      H.ChannelTouchesTarget(s.hub, x, id, t.0, t.2);
    } else if x in s.hub.lists {
      H.ChannelKeepsUnread(s.hub, x, id, t.0);
    }
    assert t == (t.0, t.1, t.2);
  }

  lemma {:induction false} RemoveAlone(s: State, h: nat, x: Name)
    requires Enabled(s, RemoveCheck(h, x))
    ensures var checked := Do(s, RemoveCheck(h, x));
      && Enabled(checked, Continue(h)) && Enabled(Do(checked, Continue(h)), Continue(h))
      && Do(Do(checked, Continue(h)), Continue(h)) == s.(hub := H.Step(s.hub, H.RemoveSession(x)))
  {
    BackAgain(s.doing, h, Swept(x));
    assert s.doing[h := Removing(x)][h := Swept(x)] == s.doing[h := Swept(x)];
  }

  // Which steps lose a subscription.

  ghost predicate Pending(s: State, x: Name, p: Pair) {
    exists h :: h in s.doing && s.doing[h] == Listing(x, p)
  }

  /** The subscription is not in a gate, or it is on the session's list, or about to be. */
  ghost predicate Findable(s: State, x: Name, p: Pair) {
    Triple(x, p) in s.hub.rel ==> IsListed(s.hub, x, p) || Pending(s, x, p)
  }

  ghost predicate AllFindable(s: State, x: Name) {
    forall p :: Findable(s, x, p)
  }

  /** The subscription is in a gate, and only the list knows of it. */
  ghost predicate OnlyListed(s: State, x: Name, p: Pair) {
    Triple(x, p) in s.hub.rel && !Pending(s, x, p)
  }

  /** A new list is begun, or the list is deleted, or its last mention of a subscription is, while the subscription
      is in a gate and nobody is about to list it. */
  ghost predicate Loses(s: State, a: Action, x: Name)
    requires Enabled(s, a)
  {
    || (a == Add(x) && exists p :: OnlyListed(s, x, p))
    || (a.Continue? && s.doing[a.caller] == Swept(x) && exists p :: OnlyListed(s, x, p))
    || (&& a.Continue? && s.doing[a.caller].Unlisting? && s.doing[a.caller].session == x && x in s.hub.lists
        && var p := s.doing[a.caller].pair; OnlyListed(s, x, p) && p !in RemoveFirst(s.hub.lists[x], p))
  }

  lemma {:induction false} StillPending(s: State, a: Action, x: Name, p: Pair)
    requires Enabled(s, a)
    ensures Pending(s, x, p) && !(a.Continue? && s.doing[a.caller] == Listing(x, p)) ==> Pending(Do(s, a), x, p)
    ensures Pending(Do(s, a), x, p) ==> Pending(s, x, p) || (a.SubscribeGate? && (a.session, a.pair) == (x, p))
  {
    var s' := Do(s, a);
    if h :| h in s.doing && s.doing[h] == Listing(x, p) {
      if a != Continue(h) {
        assert h in s'.doing && s'.doing[h] == Listing(x, p);
      }
    }
    if h :| h in s'.doing && s'.doing[h] == Listing(x, p) {
      assert (a.SubscribeGate? && h == a.caller) || s.doing[h] == Listing(x, p);
    }
  }

  lemma {:induction false} ChannelKeepsListed(s: State, x: Name, id: Name, p: Pair)
    requires Triple(x, p) in Do(s, Channel(x, id)).hub.rel && IsListed(s.hub, x, p)
    ensures IsListed(Do(s, Channel(x, id)).hub, x, p)
  {
    var list := s.hub.lists[x];
    H.InTriples(x, Sweep(list, |list|, 0, id).1, p.0, x, p.1);
    SweepTouches(list, |list|, 0, id, list);
    assert list[..|list|] == list;
  }

  /** A step that loses nothing keeps every subscription findable. */
  lemma {:induction false} KeepsFindable(s: State, a: Action, x: Name, p: Pair)
    requires Enabled(s, a) && Findable(s, x, p) && !Loses(s, a, x)
    ensures Findable(Do(s, a), x, p)
  {
    StillPending(s, a, x, p);
    var s' := Do(s, a);
    if Triple(x, p) in s'.hub.rel {
      if a.Continue? {
        ContinueKeepsFindable(s, a.caller, x, p);
      } else if a.session != x {
        OthersKeep(s, a, x, p);
      } else if a.Channel? {
        if IsListed(s.hub, x, p) {
          ChannelKeepsListed(s, x, a.identifier, p);
        }
      } else if a.SubscribeGate? && a.pair == p {
        assert s'.doing[a.caller] == Listing(x, p);
      } else if a.Add? {
        assert !OnlyListed(s, x, p);
      }
    }
  }

  lemma {:induction false} ContinueKeepsFindable(s: State, h: nat, x: Name, p: Pair)
    requires h in s.doing && Findable(s, x, p) && !Loses(s, Continue(h), x)
    ensures Findable(Do(s, Continue(h)), x, p)
  {
    StillPending(s, Continue(h), x, p);
    var s', d := Do(s, Continue(h)), s.doing[h];
    if d == Listing(x, p) {
      assert p in H.ListOf(s.hub, x) + [p];
    } else if d == Swept(x) {
      assert !OnlyListed(s, x, p);
    } else if d.Unlisting? && d.session == x && IsListed(s.hub, x, p) && p != d.pair {
      RemoveFirstKeeps(s.hub.lists[x], d.pair, p);
    }
  }

  /** A step that loses something leaves a subscription in a gate that is on no list, nor about to be. */
  lemma {:induction false} LosesFindable(s: State, a: Action, x: Name) returns (p: Pair)
    requires Enabled(s, a) && Loses(s, a, x)
    ensures !Findable(Do(s, a), x, p)
  {
    if a.Continue? && s.doing[a.caller].Unlisting? {
      p := s.doing[a.caller].pair;
    } else {
      p :| OnlyListed(s, x, p);
    }
    StillPending(s, a, x, p);
  }

  /** A subscription is lost by exactly these steps. */
  lemma {:induction false} LosesIff(s: State, a: Action, x: Name)
    requires Enabled(s, a) && AllFindable(s, x)
    ensures AllFindable(Do(s, a), x) <==> !Loses(s, a, x)
  {
    if Loses(s, a, x) {
      var p := LosesFindable(s, a, x);
    } else {
      forall p
        ensures Findable(Do(s, a), x, p)
      {
        KeepsFindable(s, a, x, p);
      }
    }
  }

  /** Over a whole run, however operations interleave, those of one session included: its subscriptions are findable
      throughout if and only if no step loses one. */
  lemma {:induction false} NeverLostIff(acts: seq<Action>, ss: seq<State>, x: Name)
    requires IsRun(acts, ss)
    ensures (forall k :: 0 <= k < |ss| ==> AllFindable(ss[k], x)) <==>
      (forall k :: 0 <= k < |acts| ==> !Loses(ss[k], acts[k], x))
  {
    if forall k :: 0 <= k < |ss| ==> AllFindable(ss[k], x) {
      forall k | 0 <= k < |acts|
        ensures !Loses(ss[k], acts[k], x)
      {
        LosesIff(ss[k], acts[k], x);
        assert AllFindable(ss[k + 1], x);
      }
    }
    if forall k :: 0 <= k < |acts| ==> !Loses(ss[k], acts[k], x) {
      forall k | 0 <= k < |ss|
        ensures AllFindable(ss[k], x)
      {
        FindableSoFar(acts, ss, x, k);
      }
    }
  }

  lemma {:induction false} FindableSoFar(acts: seq<Action>, ss: seq<State>, x: Name, k: nat)
    requires IsRun(acts, ss) && k < |ss| && forall m :: 0 <= m < |acts| ==> !Loses(ss[m], acts[m], x)
    ensures AllFindable(ss[k], x)
  {
    if k > 0 {
      FindableSoFar(acts, ss, x, k - 1);
      LosesIff(ss[k - 1], acts[k - 1], x);
    }
  }

  // Operations of one session that do not take turns.

  ghost predicate Reached(acts: seq<Action>, ss: seq<State>, s: State) {
    IsRun(acts, ss) && ss[|acts|] == s
  }

  lemma Then(acts: seq<Action>, ss: seq<State>, s: State, a: Action, s': State)
    requires Reached(acts, ss, s) && Enabled(s, a) && s' == Do(s, a)
    ensures Reached(acts + [a], ss + [s'], s')
  {
  }

  lemma RemovalUnderWay(x: Name) returns (acts: seq<Action>, ss: seq<State>)
    ensures Reached(acts, ss, State(H.Flat({}, map[x := []]), map[0 := Swept(x)]))
  {
    var s1, s2 := State(H.Flat({}, map[x := []]), map[]), State(H.Flat({}, map[x := []]), map[0 := Removing(x)]);
    var s3 := s2.(doing := map[0 := Swept(x)]);
    Then([], [START], START, Add(x), s1);
    Then([] + [Add(x)], [START] + [s1], s1, RemoveCheck(0, x), s2);
    acts, ss := [] + [Add(x)] + [RemoveCheck(0, x)], [START] + [s1] + [s2];
    assert {} - H.Triples(x, H.ElementsOf([])) == {};
    Then(acts, ss, s2, Continue(0), s3);
    acts, ss := acts + [Continue(0)], ss + [s3];
  }

  /** A subscribe between the clearing of the gates and the deletion of the list leaves a subscription in a gate
      that is on no list, and no later removal will find it. */
  lemma SubscribeDuringRemovalLost(x: Name, p: Pair) returns (acts: seq<Action>, ss: seq<State>)
    ensures Reached(acts, ss, State(H.Flat({Triple(x, p)}, map[]), map[]))
  {
    acts, ss := RemovalUnderWay(x);
    var s := State(H.Flat({}, map[x := []]), map[0 := Swept(x)]);
    var next := State(H.Flat({Triple(x, p)}, map[x := []]), map[0 := Swept(x), 1 := Listing(x, p)]);
    Then(acts, ss, s, SubscribeGate(1, x, p), next);
    acts, ss, s := acts + [SubscribeGate(1, x, p)], ss + [next], next;
    next := State(H.Flat({Triple(x, p)}, map[x := [p]]), map[0 := Swept(x)]);
    assert s.doing - {1} == map[0 := Swept(x)] && H.ListOf(s.hub, x) + [p] == [p];
    Then(acts, ss, s, Continue(1), next);
    acts, ss, s := acts + [Continue(1)], ss + [next], next;
    next := State(H.Flat({Triple(x, p)}, map[]), map[]);
    assert s.doing - {0} == map[] && s.hub.lists - {x} == map[];
    Then(acts, ss, s, Continue(0), next);
    acts, ss := acts + [Continue(0)], ss + [next];
  }
}
