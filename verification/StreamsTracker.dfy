/**
 The tracker that decides when a broker subscribes to, and releases, a stream of its broadcaster
 (`broker/broker.go`, `StreamsTracker`, and `Memory.Subscribe`/`Unsubscribe`).
 */
module StreamsTracker {
  import opened Names

  /** The tracker's counts, and the streams the broadcaster has been told to be subscribed to. */
  datatype State = State(store: map<Name, nat>, subscribed: set<Name>)

  datatype Op = Subscribe(stream: Name) | Unsubscribe(stream: Name)

  function Step(s: State, op: Op): State {
    match op
    case Subscribe(x) =>
      if x in s.store then s.(store := s.store[x := s.store[x] + 1])
      else State(s.store[x := 1], s.subscribed + {x})
    case Unsubscribe(x) =>
      if x in s.store && s.store[x] == 1 then State(s.store - {x}, s.subscribed - {x}) else s
  }

  class Tracker {
    var store: map<Name, nat>
    ghost var subscribed: set<Name>

    ghost function View(): State
      reads this
    {
      State(store, subscribed)
    }

    constructor ()
      ensures View() == State(map[], {})
    {
      store, subscribed := map[], {};
    }

    method Add(name: Name) returns (isNew: bool)
      modifies this`store
      ensures isNew <==> name !in old(store)
      ensures store == old(store)[name := if isNew then 1 else old(store)[name] + 1]
    {
      if name !in store {
        store := store[name := 1];
        return true;
      }
      store := store[name := store[name] + 1];
      return false;
    }

    method Remove(name: Name) returns (isLast: bool)
      modifies this`store
      ensures isLast <==> name in old(store) && old(store)[name] == 1
      ensures store == if isLast then old(store) - {name} else old(store)
    {
      if name !in store {
        return false;
      }
      if store[name] == 1 {
        store := store - {name};
        return true;
      }
      return false;
    }

    method Subscribe(stream: Name)
      modifies this
      ensures View() == Step(old(View()), Op.Subscribe(stream))
    {
      var isNew := Add(stream);
      if isNew {
        subscribed := subscribed + {stream};
      }
    }

    method Unsubscribe(stream: Name)
      modifies this
      ensures View() == Step(old(View()), Op.Unsubscribe(stream))
    {
      var isLast := Remove(stream);
      if isLast {
        subscribed := subscribed - {stream};
      }
    }
  }

  function Run(ops: seq<Op>): State {
    if ops == [] then State(map[], {}) else Step(Run(ops[..|ops| - 1]), ops[|ops| - 1])
  }

  function Count(ops: seq<Op>, op: Op): nat {
    if ops == [] then 0 else Count(ops[..|ops| - 1], op) + if ops[|ops| - 1] == op then 1 else 0
  }

  /** Over every run the broadcaster's set is the tracker's domain, and a stream with more subscribes
      than unsubscribes so far is always in it: it is never released too early. */
  lemma {:induction false} NeverTooEarly(ops: seq<Op>, x: Name)
    ensures var s := Run(ops);
      && s.subscribed == s.store.Keys
      && Count(ops, Subscribe(x)) <= Count(ops, Unsubscribe(x)) + (if x in s.store then s.store[x] else 0)
      && (Count(ops, Subscribe(x)) > Count(ops, Unsubscribe(x)) ==> x in s.subscribed)
  {
    if ops != [] {
      NeverTooEarly(ops[..|ops| - 1], x);
    }
  }

  lemma {:induction false} CountsPositive(ops: seq<Op>, x: Name)
    ensures x in Run(ops).store ==> Run(ops).store[x] >= 1
  {
    if ops != [] {
      CountsPositive(ops[..|ops| - 1], x);
    }
  }

  lemma {:induction false} HighCountStays(ops: seq<Op>, more: seq<Op>, x: Name)
    requires x in Run(ops).store && Run(ops).store[x] >= 2
    ensures x in Run(ops + more).store && Run(ops + more).store[x] >= 2
  {
    if more == [] {
      assert ops + more == ops;
    } else {
      HighCountStays(ops, more[..|more| - 1], x);
      assert (ops + more)[..|ops + more| - 1] == ops + more[..|more| - 1];
    }
  }

  /** The other direction fails, and this says exactly when: a subscribed stream can still be released
      by some continuation if and only if its count is one, that is, it was subscribed once since the
      broadcaster last took it up. A count above one is never given back. */
  lemma {:induction false} ReleasableIffOnce(ops: seq<Op>, x: Name)
    requires x in Run(ops).store
    ensures (exists more :: x !in Run(ops + more).subscribed) <==> Run(ops).store[x] == 1
  {
    NeverTooEarly(ops, x);
    CountsPositive(ops, x);
    if Run(ops).store[x] == 1 {
      var more := [Unsubscribe(x)];
      assert (ops + more)[..|ops + more| - 1] == ops;
      assert x !in Run(ops + more).subscribed;
    } else {
      forall more
        ensures x in Run(ops + more).subscribed
      {
        HighCountStays(ops, more, x);
        NeverTooEarly(ops + more, x);
      }
    }
  }

  lemma {:induction false} RunSnoc(ops: seq<Op>, op: Op)
    ensures Run(ops + [op]) == Step(Run(ops), op)
  {
    assert (ops + [op])[..|ops|] == ops;
  }

  /** Two subscribes and two unsubscribes leave the broadcaster subscribed. */
  lemma TwiceStays(x: Name)
    ensures Run([] + [Subscribe(x)] + [Subscribe(x)] + [Unsubscribe(x)] + [Unsubscribe(x)]) == State(map[x := 2], {x})
  {
    var once := [] + [Subscribe(x)];
    RunSnoc([], Subscribe(x));
    RunSnoc(once, Subscribe(x));
    RunSnoc(once + [Subscribe(x)], Unsubscribe(x));
    RunSnoc(once + [Subscribe(x)] + [Unsubscribe(x)], Unsubscribe(x));
  }

  // Tracker and broadcaster one after the other, with many callers.

  /** `telling` holds what callers have learnt from the tracker and not told the broadcaster yet. */
  datatype Steps = Steps(store: map<Name, nat>, telling: map<nat, Op>, subscribed: set<Name>)

  datatype Action = Begin(caller: nat, op: Op) | Tell(caller: nat)

  predicate Enabled(s: Steps, a: Action) {
    match a
    case Begin(h, _) => h !in s.telling
    case Tell(h) => h in s.telling
  }

  function Do(s: Steps, a: Action): Steps
    requires Enabled(s, a)
  {
    match a
    case Begin(h, op) =>
      var tracked := Step(State(s.store, {}), op).store;
      s.(store := tracked, telling := if tracked.Keys == s.store.Keys then s.telling else s.telling[h := op])
    case Tell(h) =>
      var op := s.telling[h];
      s.(telling := s.telling - {h},
         subscribed := if op.Subscribe? then s.subscribed + {op.stream} else s.subscribed - {op.stream})
  }

  ghost predicate IsRun(acts: seq<Action>, ss: seq<Steps>) {
    && |ss| == |acts| + 1 && ss[0] == Steps(map[], map[], {})
    && forall i :: 0 <= i < |acts| ==> Enabled(ss[i], acts[i]) && ss[i + 1] == Do(ss[i], acts[i])
  }

  ghost predicate Told(s: Steps, x: Name) {
    forall h :: h in s.telling ==> s.telling[h].stream != x
  }

  /** A call about `x` begins only when no other one about `x` is unfinished. */
  ghost predicate TakeTurns(acts: seq<Action>, ss: seq<Steps>, x: Name) {
    forall i :: 0 <= i < |acts| && i < |ss| ==> (acts[i].Begin? && acts[i].op.stream == x ==> Told(ss[i], x))
  }

  function Begun(acts: seq<Action>): seq<Op> {
    if acts == [] then []
    else
      var last := acts[|acts| - 1];
      Begun(acts[..|acts| - 1]) + if last.Begin? then [last.op] else []
  }

  /** With nothing about `x` on its way the broadcaster has it exactly if the tracker does; what is on its way is
      one command, and asks for what the tracker has. */
  ghost predicate InStep(s: Steps, x: Name) {
    && (forall h, i :: h in s.telling && i in s.telling && s.telling[h].stream == x == s.telling[i].stream ==> h == i)
    && (forall h :: h in s.telling && s.telling[h].stream == x ==> s.telling[h].Subscribe? == (x in s.store))
    && (Told(s, x) ==> (x in s.subscribed <==> x in s.store))
  }

  lemma DoInStep(s: Steps, a: Action, x: Name)
    requires Enabled(s, a) && InStep(s, x) && (a.Begin? && a.op.stream == x ==> Told(s, x))
    ensures InStep(Do(s, a), x)
  {
    var s' := Do(s, a);
    if a.Begin? {
      if a.op.stream == x {
        assert s'.telling != s.telling ==> s'.telling[a.caller].stream == x;
        assert s'.telling == s.telling ==> (x in s'.store <==> x in s.store);
      } else {
        assert x in s'.store <==> x in s.store;
        assert forall h :: h in s.telling ==> h in s'.telling && s'.telling[h] == s.telling[h];
      }
    } else if s.telling[a.caller].stream != x {
      assert forall h :: h in s.telling && s.telling[h].stream == x ==> h in s'.telling;
    }
  }

  lemma {:induction false} RunInStep(acts: seq<Action>, ss: seq<Steps>, x: Name)
    requires IsRun(acts, ss) && TakeTurns(acts, ss, x)
    ensures InStep(ss[|acts|], x) && ss[|acts|].store == Run(Begun(acts)).store
    decreases |acts|
  {
    if acts != [] {
      var n := |acts| - 1;
      RunInStep(acts[..n], ss[..n + 1], x);
      DoInStep(ss[n], acts[n], x);
      if acts[n].Begin? {
        RunSnoc(Begun(acts[..n]), acts[n].op);
      } else {
        assert Begun(acts[..n]) + [] == Begun(acts[..n]);
      }
    }
  }

  /** If the calls about a stream take turns, whatever the others do: with none of them unfinished, the broadcaster
      has the stream exactly if the tracker does; in particular it has one with more subscribes than unsubscribes. */
  lemma {:induction false} NeverTooEarlyInTurn(acts: seq<Action>, ss: seq<Steps>, x: Name)
    requires IsRun(acts, ss) && TakeTurns(acts, ss, x)
    ensures var s := ss[|acts|];
      && (Told(s, x) ==> (x in s.subscribed <==> x in s.store))
      && (Count(Begun(acts), Subscribe(x)) > Count(Begun(acts), Unsubscribe(x)) ==>
            x in s.store && (Told(s, x) ==> x in s.subscribed))
  {
    RunInStep(acts, ss, x);
    NeverTooEarly(Begun(acts), x);
  }

  // Calls about a stream that overlap.

  function One(b: bool): nat {
    if b then 1 else 0
  }

  /** The callers that have `op` to tell. */
  function Tellers(telling: map<nat, Op>, op: Op): set<nat> {
    set h | h in telling && telling[h] == op
  }

  lemma {:induction false} OneMoreTeller(telling: map<nat, Op>, h: nat, last: Op, op: Op)
    requires h !in telling
    ensures |Tellers(telling[h := last], op)| == |Tellers(telling, op)| + One(last == op)
  {
    var before, after := Tellers(telling, op), Tellers(telling[h := last], op);
    assert after == if last == op then before + {h} else before;
  }

  lemma {:induction false} OneTellerLess(telling: map<nat, Op>, h: nat, op: Op)
    requires h in telling
    ensures |Tellers(telling - {h}, op)| + One(telling[h] == op) == |Tellers(telling, op)|
  {
    var rest := telling - {h};
    assert telling == rest[h := telling[h]];
    OneMoreTeller(rest, h, telling[h], op);
  }

  /** The broadcaster is told to subscribe to a stream it has, or to release one it has not. */
  predicate InVain(s: Steps, a: Action, op: Op) {
    a.Tell? && a.caller in s.telling && s.telling[a.caller] == op && (op.Subscribe? <==> op.stream in s.subscribed)
  }

  /** How often `op` was told in vain. */
  ghost function Vain(acts: seq<Action>, ss: seq<Steps>, op: Op): nat
    requires |acts| <= |ss|
  {
    if acts == [] then 0
    else
      var n := |acts| - 1;
      Vain(acts[..n], ss, op) + One(InVain(ss[n], acts[n], op))
  }

  /** What the broadcaster has, is about to be told and was told in vain adds up to what the tracker has. */
  ghost predicate Balanced(s: Steps, x: Name, vainOn: nat, vainOff: nat) {
    One(x in s.subscribed) + |Tellers(s.telling, Subscribe(x))| + vainOn ==
    One(x in s.store) + |Tellers(s.telling, Unsubscribe(x))| + vainOff
  }

  lemma {:induction false} TellersStep(s: Steps, a: Action, op: Op)
    requires Enabled(s, a)
    ensures |Tellers(Do(s, a).telling, op)| + One(a.Tell? && s.telling[a.caller] == op) ==
      |Tellers(s.telling, op)| + One(a.Begin? && a.op == op && Do(s, a).telling != s.telling)
  {
    if a.Tell? {
      OneTellerLess(s.telling, a.caller, op);
    } else {
      OneMoreTeller(s.telling, a.caller, a.op, op);
    }
  }

  /** The tracker has something to tell exactly when it takes up or gives up the stream. */
  lemma {:induction false} BeginTells(s: Steps, a: Action, x: Name)
    requires Enabled(s, a) && a.Begin?
    ensures var s', told := Do(s, a), Do(s, a).telling != s.telling;
      && s'.subscribed == s.subscribed
      && (a.op == Subscribe(x) ==> x in s'.store && told == (x !in s.store))
      && (a.op == Unsubscribe(x) ==> (x in s'.store <==> x in s.store && !told) && (told ==> x in s.store))
      && (a.op.stream != x ==> (x in s'.store <==> x in s.store))
  {
    var s' := Do(s, a);
    if s'.store.Keys != s.store.Keys {
      assert a.caller in s'.telling;
    } else {
      assert x in s'.store.Keys <==> x in s.store.Keys;
    }
    if a.op == Subscribe(x) && x !in s.store {
      assert x in s'.store.Keys;
    }
  }

  lemma {:induction false} BalancedStep(s: Steps, a: Action, x: Name, vainOn: nat, vainOff: nat)
    requires Enabled(s, a) && Balanced(s, x, vainOn, vainOff)
    ensures Balanced(Do(s, a), x, vainOn + One(InVain(s, a, Subscribe(x))), vainOff + One(InVain(s, a, Unsubscribe(x))))
  {
    TellersStep(s, a, Subscribe(x));
    TellersStep(s, a, Unsubscribe(x));
    if a.Begin? {
      BeginTells(s, a, x);
    }
  }

  lemma {:induction false} RunBalanced(acts: seq<Action>, ss: seq<Steps>, x: Name, k: nat)
    requires IsRun(acts, ss) && k <= |acts|
    ensures Balanced(ss[k], x, Vain(acts[..k], ss, Subscribe(x)), Vain(acts[..k], ss, Unsubscribe(x)))
  {
    if k == 0 {
      assert Tellers(ss[0].telling, Subscribe(x)) == {} && Tellers(ss[0].telling, Unsubscribe(x)) == {};
    } else {
      RunBalanced(acts, ss, x, k - 1);
      assert acts[..k][..k - 1] == acts[..k - 1];
      BalancedStep(ss[k - 1], acts[k - 1], x,
        Vain(acts[..k - 1], ss, Subscribe(x)), Vain(acts[..k - 1], ss, Unsubscribe(x)));
    }
  }

  /** For every run, however the calls overlap: with nothing about a stream on its way, the broadcaster has it
      exactly if the tracker does, if and only if as many subscribes as unsubscribes of it were told in vain. */
  lemma {:induction false} InStepIffVainEven(acts: seq<Action>, ss: seq<Steps>, x: Name)
    requires IsRun(acts, ss) && Told(ss[|acts|], x)
    ensures var s := ss[|acts|];
      (x in s.subscribed <==> x in s.store) <==> Vain(acts, ss, Subscribe(x)) == Vain(acts, ss, Unsubscribe(x))
  {
    RunBalanced(acts, ss, x, |acts|);
    assert acts[..|acts|] == acts;
    var s := ss[|acts|];
    assert Tellers(s.telling, Subscribe(x)) == {} && Tellers(s.telling, Unsubscribe(x)) == {};
  }

  lemma Then(acts: seq<Action>, ss: seq<Steps>, a: Action, s: Steps)
    requires IsRun(acts, ss) && Enabled(ss[|acts|], a) && s == Do(ss[|acts|], a)
    ensures IsRun(acts + [a], ss + [s])
  {
  }

  /** An unsubscribe that is told late, after a new subscribe, releases a stream that is in use. */
  lemma LateReleaseLoses(x: Name) returns (acts: seq<Action>, ss: seq<Steps>)
    ensures IsRun(acts, ss) && ss[|acts|] == Steps(map[x := 1], map[], {})
  {
    var on, off := Subscribe(x), Unsubscribe(x);
    var s := Steps(map[x := 1], map[0 := on], {});
    acts, ss := [], [Steps(map[], map[], {})];
    Then(acts, ss, Begin(0, on), s);
    acts, ss := acts + [Begin(0, on)], ss + [s];
    s := Steps(map[x := 1], map[], {x});
    assert map[0 := on] - {0} == map[];
    Then(acts, ss, Tell(0), s);
    acts, ss := acts + [Tell(0)], ss + [s];
    s := Steps(map[], map[0 := off], {x});
    assert map[x := 1] - {x} == map[];
    Then(acts, ss, Begin(0, off), s);
    acts, ss := acts + [Begin(0, off)], ss + [s];
    s := Steps(map[x := 1], map[0 := off, 1 := on], {x});
    Then(acts, ss, Begin(1, on), s);
    acts, ss := acts + [Begin(1, on)], ss + [s];
    s := Steps(map[x := 1], map[0 := off], {x});
    assert map[0 := off, 1 := on] - {1} == map[0 := off];
    Then(acts, ss, Tell(1), s);
    acts, ss := acts + [Tell(1)], ss + [s];
    assert map[0 := off] - {0} == map[] && {x} - {x} == {};
    s := Steps(map[x := 1], map[], {});
    Then(acts, ss, Tell(0), s);
    acts, ss := acts + [Tell(0)], ss + [s];
  }
}
