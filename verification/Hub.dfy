/**
 The hub (`hub/hub.go`): subscriptions split over a number of gates by a hash of the stream name, and a
 list of (stream, identifier) pairs per session.
 */
module Hub {
  import opened Basics
  import opened Names
  import opened SessionStreams
  import Gate

  /** (stream, session, identifier). */
  type Triple = (Name, Name, Name)

  /** What the hub is meant to be: one relation, and a list for every known session. */
  datatype Flat = Flat(rel: set<Triple>, lists: map<Name, seq<Pair>>)

  function Index(hash: Name -> nat, s: Name, n: nat): (i: nat)
    requires n >= 1
    ensures i < n
  {
    if n == 1 then 0 else hash(s) % n
  }

  // The gates hold the relation, every stream in its own gate.

  ghost predicate Sharding(view: seq<Gate.Streams>, hash: Name -> nat, rel: set<Triple>) {
    && |view| >= 1
    && (forall i :: 0 <= i < |view| ==> Gate.NoEmpty(view[i]))
    && (forall i, s :: 0 <= i < |view| && s in view[i] ==> Index(hash, s, |view|) == i)
    && (forall s, x, id :: (s, x, id) in rel <==> id in Gate.Ids(view[Index(hash, s, |view|)], s, x))
  }

  lemma SubscribeKeeps(view: seq<Gate.Streams>, hash: Name -> nat, rel: set<Triple>, s: Name, x: Name, id: Name)
    requires Sharding(view, hash, rel)
    ensures var i := Index(hash, s, |view|);
      Sharding(view[i := Gate.Subscribed(view[i], s, x, id)], hash, rel + {(s, x, id)})
  {
    var i := Index(hash, s, |view|);
    Gate.SubscribedIds(view[i], s, x, id);
    var view' := view[i := Gate.Subscribed(view[i], s, x, id)];
    forall t, y, j
      ensures (t, y, j) in rel + {(s, x, id)} <==> j in Gate.Ids(view'[Index(hash, t, |view|)], t, y)
    {
      assert (t, y, j) in rel <==> j in Gate.Ids(view[Index(hash, t, |view|)], t, y);
    }
  }

  lemma UnsubscribeKeeps(view: seq<Gate.Streams>, hash: Name -> nat, rel: set<Triple>, s: Name, x: Name, id: Name)
    requires Sharding(view, hash, rel)
    ensures var i := Index(hash, s, |view|);
      Sharding(view[i := Gate.Unsubscribed(view[i], s, x, id)], hash, rel - {(s, x, id)})
  {
    var i := Index(hash, s, |view|);
    Gate.UnsubscribedIds(view[i], s, x, id);
    var view' := view[i := Gate.Unsubscribed(view[i], s, x, id)];
    forall t, y, j
      ensures (t, y, j) in rel - {(s, x, id)} <==> j in Gate.Ids(view'[Index(hash, t, |view|)], t, y)
    {
      assert (t, y, j) in rel <==> j in Gate.Ids(view[Index(hash, t, |view|)], t, y);
    }
  }

  // What the operations mean.

  function ListOf(f: Flat, x: Name): seq<Pair> {
    if x in f.lists then f.lists[x] else []
  }

  function Triples(x: Name, ps: set<Pair>): set<Triple> {
    set p | p in ps :: (p.0, x, p.1)
  }

  function ElementsOf(ps: seq<Pair>): set<Pair> {
    set i | 0 <= i < |ps| :: ps[i]
  }

  datatype Op =
    | AddSession(session: Name)
    | RemoveSession(session: Name)
    | Subscribe(session: Name, stream: Name, identifier: Name)
    | Unsubscribe(session: Name, stream: Name, identifier: Name)
    | UnsubscribeChannel(session: Name, identifier: Name)

  function Step(f: Flat, op: Op): Flat {
    match op
    case AddSession(x) => f.(lists := f.lists[x := []])
    case RemoveSession(x) =>
      if x in f.lists then Flat(f.rel - Triples(x, ElementsOf(f.lists[x])), f.lists - {x}) else f
    case Subscribe(x, s, id) => Flat(f.rel + {(s, x, id)}, f.lists[x := ListOf(f, x) + [(s, id)]])
    case Unsubscribe(x, s, id) =>
      Flat(f.rel - {(s, x, id)}, if x in f.lists then f.lists[x := RemoveFirst(f.lists[x], (s, id))] else f.lists)
    case UnsubscribeChannel(x, id) =>
      if x !in f.lists then f
      else
        var r := Sweep(f.lists[x], |f.lists[x]|, 0, id);
        Flat(f.rel - Triples(x, r.1), f.lists[x := r.0])
  }

  class Hub {
    const gates: seq<Gate.Shard>
    const hash: Name -> nat
    var sessions: map<Name, seq<Pair>>
    ghost var rel: set<Triple>

    ghost function View(): seq<Gate.Streams>
      reads gates
    {
      seq(|gates|, i requires 0 <= i < |gates| reads gates => gates[i].streams)
    }

    /** The gates are distinct objects and hold the relation. */
    ghost predicate Valid()
      reads this, gates
    {
      && (forall i, j :: 0 <= i < j < |gates| ==> gates[i] != gates[j])
      && Sharding(View(), hash, rel)
    }

    ghost function Model(): Flat
      reads this
    {
      Flat(rel, sessions)
    }

    constructor (num: nat, hash: Name -> nat)
      requires num >= 1
      ensures Valid() && Model() == Flat({}, map[]) && |gates| == num && fresh(gates)
    {
      var built: seq<Gate.Shard> := [];
      for i := 0 to num
        invariant |built| == i && forall j :: 0 <= j < i ==> fresh(built[j]) && built[j].streams == map[]
        invariant forall j, k :: 0 <= j < k < i ==> built[j] != built[k]
      {
        var g := new Gate.Shard();
        built := built + [g];
      }
      this.gates, this.hash := built, hash;
      sessions, rel := map[], {};
      new;
      assert forall i :: 0 <= i < num ==> View()[i] == map[];
    }

    /** Adds the triple to its gate. */
    method SubscribeGate(session: Name, stream: Name, identifier: Name)
      requires Valid()
      modifies gates, this`rel
      ensures Valid() && rel == old(rel) + {(stream, session, identifier)}
    {
      SubscribeKeeps(View(), hash, rel, stream, session, identifier);
      ghost var was := View();
      var i := Index(hash, stream, |gates|);
      gates[i].Subscribe(session, stream, identifier);
      assert View() == was[i := Gate.Subscribed(was[i], stream, session, identifier)];
      rel := rel + {(stream, session, identifier)};
    }

    /** Removes the triple from its gate. */
    method UnsubscribeGate(session: Name, stream: Name, identifier: Name)
      requires Valid()
      modifies gates, this`rel
      ensures Valid() && rel == old(rel) - {(stream, session, identifier)}
    {
      UnsubscribeKeeps(View(), hash, rel, stream, session, identifier);
      ghost var was := View();
      var i := Index(hash, stream, |gates|);
      assert Gate.NoEmpty(was[i]);
      gates[i].Unsubscribe(session, stream, identifier);
      assert View() == was[i := Gate.Unsubscribed(was[i], stream, session, identifier)];
      rel := rel - {(stream, session, identifier)};
    }

    method AddSession(session: Name)
      requires Valid()
      modifies this`sessions
      ensures Valid() && Model() == Step(old(Model()), Op.AddSession(session))
    {
      sessions := sessions[session := []];
    }

    method AddStream(session: Name, stream: Name, identifier: Name)
      modifies this`sessions
      ensures sessions == old(sessions)[session := old(ListOf(Model(), session)) + [(stream, identifier)]]
    {
      if session !in sessions {
        sessions := sessions[session := []];
      }
      sessions := sessions[session := sessions[session] + [(stream, identifier)]];
    }

    method RemoveStream(session: Name, stream: Name, identifier: Name)
      modifies this`sessions
      ensures session !in old(sessions) ==> sessions == old(sessions)
      ensures session in old(sessions) ==>
        sessions == old(sessions)[session := RemoveFirst(old(sessions)[session], (stream, identifier))]
    {
      if session in sessions {
        sessions := sessions[session := RemoveFirst(sessions[session], (stream, identifier))];
      }
    }

    method SubscribeSession(session: Name, stream: Name, identifier: Name)
      requires Valid()
      modifies this, gates
      ensures Valid() && Model() == Step(old(Model()), Op.Subscribe(session, stream, identifier))
    {
      SubscribeGate(session, stream, identifier);
      AddStream(session, stream, identifier);
    }

    method UnsubscribeSession(session: Name, stream: Name, identifier: Name)
      requires Valid()
      modifies this, gates
      ensures Valid() && Model() == Step(old(Model()), Op.Unsubscribe(session, stream, identifier))
    {
      UnsubscribeGate(session, stream, identifier);
      RemoveStream(session, stream, identifier);
    }

    /** `unsubscribeSessionFromAllChannels`, on the pairs listed for the session. */
    method UnsubscribeAll(session: Name, list: seq<Pair>)
      requires Valid()
      modifies gates, this`rel
      ensures Valid() && rel == old(rel) - Triples(session, ElementsOf(list))
    {
      for k := 0 to |list|
        invariant Valid() && rel == old(rel) - Triples(session, ElementsOf(list[..k]))
      {
        UnsubscribeGate(session, list[k].0, list[k].1);
        OneMore(old(rel), session, list, k);
      }
      assert list[..|list|] == list;
    }

    method RemoveSession(session: Name)
      requires Valid()
      modifies this, gates
      ensures Valid() && Model() == Step(old(Model()), Op.RemoveSession(session))
    {
      if session !in sessions {
        return;
      }
      UnsubscribeAll(session, sessions[session]);
      sessions := sessions - {session};
    }

    /** One round of the loop below: the gate first, then the list. */
    method UnsubscribeRound(session: Name, a: array<Pair>, len: nat, pair: Pair) returns (len': nat)
      requires Valid() && len <= a.Length
      modifies a, gates, this`rel
      ensures Valid() && rel == old(rel) - {(pair.0, session, pair.1)}
      ensures len' <= len && (a[..], len') == Shifted(old(a[..]), len, pair)
    {
      ghost var cells := a[..];
      UnsubscribeGate(session, pair.0, pair.1);
      assert a[..] == cells;
      len' := RemoveInPlace(a, len, pair);
      ShiftedIs(cells, len, pair, a[..], len');
    }

    /** One cell of the loop below, which has taken the pairs in `removed` out of `base`. */
    method SweepCell(session: Name, a: array<Pair>, len: nat, k: nat, target: Name,
                     ghost base: set<Triple>, ghost removed: set<Pair>)
      returns (len': nat, ghost removed': set<Pair>)
      requires Valid() && len <= a.Length && k < a.Length && rel == base - Triples(session, removed)
      modifies a, gates, this`rel
      ensures Valid() && len' <= a.Length && rel == base - Triples(session, removed')
      ensures SweepLeft(a[..], len', k + 1, target, removed') == old(SweepLeft(a[..], len, k, target, removed))
    {
      SweepRound(a[..], len, k, target, removed);
      var pair := a[k];
      len', removed' := len, removed;
      if target == pair.1 {
        TriplesPlus(session, removed, pair);
        len' := UnsubscribeRound(session, a, len, pair);
        removed' := removed + {pair};
      }
    }

    /** Ranges over the backing array of a session's list while `RemoveStream` shifts it. */
    method SweepArray(session: Name, a: array<Pair>, target: Name) returns (len: nat, ghost removed: set<Pair>)
      requires Valid()
      modifies a, gates, this`rel
      ensures Valid() && rel == old(rel) - Triples(session, removed)
      ensures len <= a.Length && (a[..len], removed) == Sweep(old(a[..]), a.Length, 0, target)
    {
      ghost var all := Sweep(a[..], a.Length, 0, target);
      len, removed := a.Length, {};
      assert all.1 + removed == all.1;
      for k := 0 to a.Length
        invariant Valid() && len <= a.Length && rel == old(rel) - Triples(session, removed)
        invariant SweepLeft(a[..], len, k, target, removed) == all
      {
        len, removed := SweepCell(session, a, len, k, target, old(rel), removed);
      }
    }

    method UnsubscribeSessionFromChannel(session: Name, target: Name)
      requires Valid()
      modifies this, gates
      ensures Valid() && Model() == Step(old(Model()), UnsubscribeChannel(session, target))
    {
      if session !in sessions {
        return;
      }
      var list := sessions[session];
      var a := new Pair[|list|](i requires 0 <= i < |list| => list[i]);
      assert a[..] == list;
      var len, removed := SweepArray(session, a, target);
      sessions := sessions[session := a[..len]];
    }

    method CountStreams(ghost keys: seq<set<Name>>) returns (size: nat)
      requires |keys| == |gates| && forall i :: 0 <= i < |gates| ==> keys[i] == gates[i].streams.Keys
      ensures size == CountUpTo(keys, |keys|)
    {
      size := 0;
      for i := 0 to |gates|
        invariant size == CountUpTo(keys, i)
      {
        var n := gates[i].Size();
        size := size + n;
      }
    }

    method StreamsSize() returns (size: nat)
      requires Valid()
      ensures size == |StreamsOf(rel)|
    {
      ghost var keys := KeySets(View());
      AllKeys(View(), hash, rel);
      CountIsKeys(keys, hash, |keys|);
      size := CountStreams(keys);
    }
  }

  function StreamsOf(rel: set<Triple>): set<Name> {
    set t | t in rel :: t.0
  }

  /** The streams held by every gate. */
  ghost function KeySets(view: seq<Gate.Streams>): seq<set<Name>> {
    seq(|view|, i requires 0 <= i < |view| => view[i].Keys)
  }

  ghost function KeysUpTo(keys: seq<set<Name>>, n: nat): set<Name>
    requires n <= |keys|
  {
    if n == 0 then {} else KeysUpTo(keys, n - 1) + keys[n - 1]
  }

  ghost function CountUpTo(keys: seq<set<Name>>, n: nat): nat
    requires n <= |keys|
  {
    if n == 0 then 0 else CountUpTo(keys, n - 1) + |keys[n - 1]|
  }

  /** Every stream is in its own gate. */
  ghost predicate Placed(keys: seq<set<Name>>, hash: Name -> nat) {
    |keys| >= 1 && forall i, s :: 0 <= i < |keys| && s in keys[i] ==> Index(hash, s, |keys|) == i
  }

  lemma {:induction false} KeyInGate(keys: seq<set<Name>>, hash: Name -> nat, n: nat, s: Name)
    requires Placed(keys, hash) && n <= |keys|
    ensures var i := Index(hash, s, |keys|); s in KeysUpTo(keys, n) <==> i < n && s in keys[i]
  {
    if n > 0 {
      KeyInGate(keys, hash, n - 1, s);
    }
  }

  lemma {:induction false} CountIsKeys(keys: seq<set<Name>>, hash: Name -> nat, n: nat)
    requires Placed(keys, hash) && n <= |keys|
    ensures CountUpTo(keys, n) == |KeysUpTo(keys, n)|
  {
    if n > 0 {
      CountIsKeys(keys, hash, n - 1);
      var before := KeysUpTo(keys, n - 1);
      forall s | s in before
        ensures s !in keys[n - 1]
      {
        KeyInGate(keys, hash, n - 1, s);
      }
      CardDisjoint(before, keys[n - 1]);
    }
  }

  lemma CardDisjoint(a: set<Name>, b: set<Name>)
    requires a !! b
    ensures |a + b| == |a| + |b|
  {
  }

  lemma {:induction false} AllKeys(view: seq<Gate.Streams>, hash: Name -> nat, rel: set<Triple>)
    requires Sharding(view, hash, rel)
    ensures Placed(KeySets(view), hash) && KeysUpTo(KeySets(view), |view|) == StreamsOf(rel)
  {
    var keys := KeySets(view);
    forall s
      ensures s in KeysUpTo(keys, |keys|) <==> s in StreamsOf(rel)
    {
      var i := Index(hash, s, |view|);
      KeyInGate(keys, hash, |keys|, s);
      if s in KeysUpTo(keys, |keys|) {
        assert s in view[i] && Gate.NoEmpty(view[i]);
        var x :| x in view[i][s];
        var id :| id in view[i][s][x];
        assert (s, x, id) in rel;
      }
      if s in StreamsOf(rel) {
        var t :| t in rel && t.0 == s;
        assert (t.0, t.1, t.2) in rel;
        assert s in view[i];
      }
    }
  }

  lemma OneMore(rel: set<Triple>, x: Name, list: seq<Pair>, k: nat)
    requires k < |list|
    ensures rel - Triples(x, ElementsOf(list[..k])) - {(list[k].0, x, list[k].1)} ==
      rel - Triples(x, ElementsOf(list[..k + 1]))
  {
    assert ElementsOf(list[..k + 1]) == ElementsOf(list[..k]) + {list[k]};
    TriplesPlus(x, ElementsOf(list[..k]), list[k]);
  }

  lemma {:induction false} ShiftedIs(cells: seq<Pair>, len: nat, p: Pair, after: seq<Pair>, len': nat)
    requires len <= |cells| == |after| && len' <= len
    requires after[..len'] == RemoveFirst(cells[..len], p) && after[len'..] == cells[len'..]
    ensures Shifted(cells, len, p) == (after, len')
  {
    assert after == after[..len'] + after[len'..];
  }

  lemma TriplesPlus(x: Name, ps: set<Pair>, p: Pair)
    ensures Triples(x, ps + {p}) == Triples(x, ps) + {(p.0, x, p.1)}
  {
    assert p in ps + {p};
  }

  // Every run.

  /** Every subscription in a gate is on its session's list, which is how it is found again. */
  ghost predicate Tracked(f: Flat) {
    forall s, x, id :: (s, x, id) in f.rel ==> x in f.lists && (s, id) in f.lists[x]
  }

  /** A session is only added while no gate mentions it: `AddSession` starts a new list. */
  predicate Fresh(f: Flat, op: Op) {
    op.AddSession? ==> forall t :: t in f.rel ==> t.1 != op.session
  }

  function Run(ops: seq<Op>): Flat {
    if ops == [] then Flat({}, map[]) else Step(Run(ops[..|ops| - 1]), ops[|ops| - 1])
  }

  predicate FreshRun(ops: seq<Op>) {
    ops != [] ==> FreshRun(ops[..|ops| - 1]) && Fresh(Run(ops[..|ops| - 1]), ops[|ops| - 1])
  }

  lemma InTriples(x: Name, ps: set<Pair>, s: Name, y: Name, id: Name)
    ensures (s, y, id) in Triples(x, ps) <==> y == x && (s, id) in ps
  {
    if y == x && (s, id) in ps {
      assert ((s, id).0, x, (s, id).1) in Triples(x, ps);
    }
  }

  lemma StepTracked(f: Flat, op: Op)
    requires Tracked(f) && Fresh(f, op)
    ensures Tracked(Step(f, op))
  {
    var after := Step(f, op);
    forall s, x, id | (s, x, id) in after.rel
      ensures x in after.lists && (s, id) in after.lists[x]
    {
      match op
      case AddSession(y) => assert (s, x, id).1 != y;
      case RemoveSession(y) =>
        if y in f.lists {
          InTriples(y, ElementsOf(f.lists[y]), s, x, id);
        }
      case Subscribe(y, t, i) =>
        assert (t, i) in after.lists[y];
      case Unsubscribe(y, t, i) =>
        if x == y {
          RemoveFirstKeeps(f.lists[y], (t, i), (s, id));
        }
      case UnsubscribeChannel(y, i) =>
        if y in f.lists {
          var list := f.lists[y];
          InTriples(y, Sweep(list, |list|, 0, i).1, s, x, id);
          SweepTouches(list, |list|, 0, i, list);
          assert list[..|list|] == list;
        }
    }
  }

  lemma {:induction false} RunTracked(ops: seq<Op>)
    requires FreshRun(ops)
    ensures Tracked(Run(ops))
  {
    if ops != [] {
      RunTracked(ops[..|ops| - 1]);
      StepTracked(Run(ops[..|ops| - 1]), ops[|ops| - 1]);
    }
  }

  /** Removing a session, after every run, removes exactly its subscriptions: no gate mentions it any
      more, and no other session loses one. */
  lemma {:induction false} RemoveSessionForgets(ops: seq<Op>, x: Name)
    requires FreshRun(ops)
    ensures var before, after := Run(ops), Run(ops + [RemoveSession(x)]);
      forall s, y, id :: (s, y, id) in after.rel <==> (s, y, id) in before.rel && y != x
  {
    assert (ops + [RemoveSession(x)])[..|ops|] == ops;
    RunTracked(ops);
    var before := Run(ops);
    forall s, y, id
      ensures (s, y, id) in Step(before, RemoveSession(x)).rel <==> (s, y, id) in before.rel && y != x
    {
      if x in before.lists {
        InTriples(x, ElementsOf(before.lists[x]), s, y, id);
      }
    }
  }

  /** Operations on one session leave the others alone. */
  lemma OthersUntouched(f: Flat, op: Op, s: Name, y: Name, id: Name)
    requires y != op.session
    ensures (s, y, id) in Step(f, op).rel <==> (s, y, id) in f.rel
    ensures y in Step(f, op).lists <==> y in f.lists
    ensures y in f.lists ==> Step(f, op).lists[y] == f.lists[y]
  {
    if op.RemoveSession? && op.session in f.lists {
      InTriples(op.session, ElementsOf(f.lists[op.session]), s, y, id);
    }
    if op.UnsubscribeChannel? && op.session in f.lists {
      var list := f.lists[op.session];
      InTriples(op.session, Sweep(list, |list|, 0, op.identifier).1, s, y, id);
    }
  }

  /** Unsubscribing a channel touches no subscription of another channel, whatever is on the list. */
  lemma ChannelTouchesTarget(f: Flat, x: Name, target: Name, s: Name, id: Name)
    requires id != target
    ensures var after := Step(f, UnsubscribeChannel(x, target));
      && ((s, x, id) in after.rel <==> (s, x, id) in f.rel)
      && (x in f.lists ==> x in after.lists && ((s, id) in f.lists[x] <==> (s, id) in after.lists[x]))
  {
    if x in f.lists {
      var list := f.lists[x];
      InTriples(x, Sweep(list, |list|, 0, target).1, s, x, id);
      SweepTouches(list, |list|, 0, target, list);
      assert list[..|list|] == list;
    }
  }

  /** For every list, repeats included: it leaves a subscription of the channel if and only if it does not read it. */
  lemma ChannelKeepsUnread(f: Flat, x: Name, target: Name, s: Name)
    requires x in f.lists
    ensures (s, x, target) in Step(f, UnsubscribeChannel(x, target)).rel <==>
      (s, x, target) in f.rel && (s, target) !in Reads(f.lists[x], target)
  {
    var list := f.lists[x];
    SweepReadsExactly(list, target);
    InTriples(x, Sweep(list, |list|, 0, target).1, s, x, target);
  }

  /** It removes the whole channel if its pairs are spaced out in the list, repeats included. */
  lemma ChannelRemovedIfSpaced(f: Flat, x: Name, target: Name, s: Name)
    requires Tracked(f) && x in f.lists && Spaced(f.lists[x], target)
    ensures (s, x, target) !in Step(f, UnsubscribeChannel(x, target)).rel
  {
    ChannelKeepsUnread(f, x, target, s);
    if (s, x, target) in f.rel {
      SpacedAllRead(f.lists[x], target, (s, target));
    }
  }

  /** For a session whose list has no repeats and is all subscribed, the converse holds too. */
  lemma ChannelRemovedIffSpaced(f: Flat, x: Name, target: Name)
    requires Tracked(f) && x in f.lists && NoDup(f.lists[x])
    requires forall s, id :: (s, id) in f.lists[x] ==> (s, x, id) in f.rel
    ensures (forall s :: (s, x, target) !in Step(f, UnsubscribeChannel(x, target)).rel) <==> Spaced(f.lists[x], target)
  {
    var list := f.lists[x];
    var removed := Sweep(list, |list|, 0, target).1;
    ChannelClearedIffSpaced(list, target);
    forall s
      ensures (s, x, target) in Step(f, UnsubscribeChannel(x, target)).rel <==>
        (s, target) in list && (s, target) !in removed
    {
      InTriples(x, removed, s, x, target);
    }
    if p :| p in list && p.1 == target && p !in removed {
      assert (p.0, target) == p;
    }
  }
}
