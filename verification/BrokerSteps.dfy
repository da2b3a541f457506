/**
 The history side of the in-memory broker at the granularity of its locks (`broker/memory.go`). A caller
 looks a stream up under the lock of the map and appends to it under the lock of the stream; the expiry
 pass holds the lock of the map from its first cut to its last deletion, and no stream's lock in between.
 */
module BrokerSteps {
  import opened Basics
  import opened Names
  import opened History
  import Common
  import MemoryBroker

  /** A stream object: the name it was created under, and the critical sections it has been through. It
      outlives its deletion from the map for as long as a caller has it. */
  datatype Object = Object(owner: Name, ops: seq<History.Op>)

  /** The pass: the clock it read, the streams it has yet to cut and to test, and for every stream it is
      going to delete how many critical sections that had been through when it was tested. */
  datatype Pass = Pass(now: int, uncut: set<Name>, untested: set<Name>, doomed: map<Name, nat>)

  datatype State = State(
    epoch: Name,
    objects: seq<Object>,
    current: map<Name, nat>,
    held: map<nat, nat>,
    pass: Option<Pass>)

  datatype Action =
    | Lookup(caller: nat, name: Name)
    | Append(caller: nat, op: History.Op)
    | PassBegin(now: int)
    | PassCut(name: Name, at: int)
    | PassTest(name: Name)
    | PassEnd
    | SetEpoch(epoch: Name)

  function Initial(epoch: Name): State {
    State(epoch, [], map[], map[], None)
  }

  /** The map and the callers refer to objects that exist, and the map to objects of the right name. */
  ghost predicate Good(s: State) {
    && (forall n :: n in s.current ==> s.current[n] < |s.objects| && s.objects[s.current[n]].owner == n)
    && (forall h :: h in s.held ==> s.held[h] < |s.objects|)
    && (s.pass.Some? ==> s.pass.value.uncut + s.pass.value.untested + s.pass.value.doomed.Keys <= s.current.Keys)
  }

  function Content(c: Config, o: Object): Stream
    requires c.limit >= 1
  {
    History.Run(c, o.ops)
  }

  predicate Enabled(s: State, a: Action) {
    match a
    case Lookup(h, _) => h !in s.held && s.pass.None?
    case Append(h, op) => h in s.held && !op.Expire?
    case PassBegin(_) => s.pass.None?
    case PassCut(n, _) => s.pass.Some? && n in s.pass.value.uncut
    case PassTest(n) => s.pass.Some? && n in s.pass.value.untested
    case PassEnd => s.pass.Some? && s.pass.value.uncut == {} && s.pass.value.untested == {}
    case SetEpoch(_) => true
  }

  function Grown(objects: seq<Object>, i: nat, op: History.Op): seq<Object>
    requires i < |objects|
  {
    objects[i := objects[i].(ops := objects[i].ops + [op])]
  }

  function Do(c: Config, s: State, a: Action): (s': State)
    requires c.limit >= 1 && Good(s) && Enabled(s, a)
  {
    match a
    case Lookup(h, n) =>
      if n in s.current then s.(held := s.held[h := s.current[n]])
      else
        var i := |s.objects|;
        s.(objects := s.objects + [Object(n, [])], current := s.current[n := i], held := s.held[h := i])
    case Append(h, op) => s.(objects := Grown(s.objects, s.held[h], op), held := s.held - {h})
    case PassBegin(now) => s.(pass := Some(Pass(now, s.current.Keys, {}, map[])))
    case PassCut(n, at) =>
      var p := s.pass.value;
      s.(objects := Grown(s.objects, s.current[n], Expire(at)),
         pass := Some(p.(uncut := p.uncut - {n}, untested := p.untested + {n})))
    case PassTest(n) =>
      var p, o := s.pass.value, s.objects[s.current[n]];
      var left := p.untested - {n};
      s.(pass := Some(if Content(c, o).deadline < p.now then p.(untested := left, doomed := p.doomed[n := |o.ops|])
                      else p.(untested := left)))
    case PassEnd => s.(current := s.current - s.pass.value.doomed.Keys, pass := None)
    case SetEpoch(e) => s.(epoch := e)
  }

  lemma DoGood(c: Config, s: State, a: Action)
    requires c.limit >= 1 && Good(s) && Enabled(s, a)
    ensures Good(Do(c, s, a))
  {
  }

  /** The states of a run that takes the given actions. */
  ghost predicate IsRun(c: Config, epoch: Name, acts: seq<Action>, ss: seq<State>) {
    && c.limit >= 1 && |ss| == |acts| + 1 && ss[0] == Initial(epoch)
    && (forall i :: 0 <= i < |acts| ==> Good(ss[i]) && Enabled(ss[i], acts[i]) && ss[i + 1] == Do(c, ss[i], acts[i]))
  }

  lemma RunGood(c: Config, epoch: Name, acts: seq<Action>, ss: seq<State>, k: nat)
    requires IsRun(c, epoch, acts, ss) && k < |ss|
    ensures Good(ss[k])
  {
    if k > 0 {
      DoGood(c, ss[k - 1], acts[k - 1]);
    }
  }

  /** What the broker looks like to a reader. */
  ghost function View(c: Config, s: State): MemoryBroker.Broker
    requires c.limit >= 1 && Good(s)
  {
    MemoryBroker.Broker(s.epoch, map n | n in s.current :: Content(c, s.objects[s.current[n]]))
  }

  predicate Held(st: Stream, o: uint64) {
    st.data != [] && Low(st.data) <= o <= st.offset
  }

  // Objects that leave the map.

  predicate InMap(s: State, name: Name, i: nat) {
    name in s.current && s.current[name] == i
  }

  predicate Drops(s: State, a: Action, name: Name) {
    a.PassEnd? && s.pass.Some? && name in s.pass.value.doomed
  }

  /** An object leaves the map by a deletion only, and never comes back. */
  lemma InMapStep(c: Config, s: State, a: Action, name: Name, i: nat)
    requires c.limit >= 1 && Good(s) && Enabled(s, a) && i < |s.objects|
    ensures |s.objects| <= |Do(c, s, a).objects| && Do(c, s, a).objects[i].owner == s.objects[i].owner
    ensures s.objects[i].ops <= Do(c, s, a).objects[i].ops
    ensures InMap(Do(c, s, a), name, i) <==> InMap(s, name, i) && !Drops(s, a, name)
  {
  }

  lemma {:induction false} StillInMapIff(
      c: Config, epoch: Name, acts: seq<Action>, ss: seq<State>, from: nat, till: nat, name: Name, i: nat)
    requires IsRun(c, epoch, acts, ss) && from <= till < |ss| && i < |ss[from].objects|
    ensures i < |ss[till].objects| && ss[till].objects[i].owner == ss[from].objects[i].owner
    ensures ss[from].objects[i].ops <= ss[till].objects[i].ops
    ensures InMap(ss[till], name, i) <==>
      InMap(ss[from], name, i) && forall m :: from <= m < till ==> !Drops(ss[m], acts[m], name)
    decreases till - from
  {
    if from < till {
      InMapStep(c, ss[from], acts[from], name, i);
      StillInMapIff(c, epoch, acts, ss, from + 1, till, name, i);
    }
  }

  /** The caller `h`, which looks `name` up at `l`, has not appended before `k`. */
  ghost predicate StillOut(acts: seq<Action>, l: nat, k: nat, h: nat, name: Name) {
    && l < k <= |acts| && acts[l] == Lookup(h, name)
    && forall m :: l < m < k ==> !(acts[m].Append? && acts[m].caller == h)
  }

  lemma {:induction false} StillHeld(
      c: Config, epoch: Name, acts: seq<Action>, ss: seq<State>, l: nat, k: nat, h: nat, name: Name)
    requires IsRun(c, epoch, acts, ss) && StillOut(acts, l, k, h, name)
    ensures h in ss[l + 1].held && InMap(ss[l + 1], name, ss[l + 1].held[h])
    ensures h in ss[k].held && ss[k].held[h] == ss[l + 1].held[h]
    decreases k
  {
    if l + 1 < k {
      StillHeld(c, epoch, acts, ss, l, k - 1, h, name);
    }
  }

  /** An entry is stored under its name if and only if its stream was not deleted between the lookup and the
      append. If it was, the entry is in an object that no later lookup finds. */
  lemma StoredIffNotDropped(
      c: Config, epoch: Name, acts: seq<Action>, ss: seq<State>, l: nat, k: nat, h: nat, name: Name, op: History.Op)
    requires IsRun(c, epoch, acts, ss) && StillOut(acts, l, k, h, name) && k < |acts| && acts[k] == Append(h, op)
    ensures h in ss[l + 1].held
    ensures var i := ss[l + 1].held[h];
      && i < |ss[k].objects| && ss[k + 1].objects == Grown(ss[k].objects, i, op) && ss[k].objects[i].owner == name
      && (InMap(ss[k + 1], name, i) <==> forall m :: l < m < k ==> !Drops(ss[m], acts[m], name))
      && (!InMap(ss[k + 1], name, i) ==> forall m :: k < m < |ss| ==> !InMap(ss[m], name, i))
  {
    StillHeld(c, epoch, acts, ss, l, k, h, name);
    var i := ss[l + 1].held[h];
    RunGood(c, epoch, acts, ss, l + 1);
    RunGood(c, epoch, acts, ss, k + 1);
    StillInMapIff(c, epoch, acts, ss, l + 1, k, name, i);
    StillInMapIff(c, epoch, acts, ss, l + 1, k + 1, name, i);
    forall m | k < m < |ss|
      ensures InMap(ss[m], name, i) ==> InMap(ss[k + 1], name, i)
    {
      StillInMapIff(c, epoch, acts, ss, k + 1, m, name, i);
    }
  }

  // What is stored under a name, whichever object it goes to.

  ghost function Entries(c: Config, s: State, a: Action, name: Name): seq<Entry>
    requires c.limit >= 1 && Good(s) && Enabled(s, a)
  {
    if a.Append? && s.objects[s.held[a.caller]].owner == name
    then Appended(Content(c, s.objects[s.held[a.caller]]), a.op) else []
  }

  ghost function StoredUnder(
      c: Config, epoch: Name, acts: seq<Action>, ss: seq<State>, from: nat, till: nat, name: Name): seq<Entry>
    requires IsRun(c, epoch, acts, ss) && from <= till < |ss|
    decreases till - from
  {
    if from == till then []
    else Entries(c, ss[from], acts[from], name) + StoredUnder(c, epoch, acts, ss, from + 1, till, name)
  }

  /** Something is stored under the name in another object than `i`. */
  ghost predicate Stray(c: Config, s: State, a: Action, name: Name, i: nat)
    requires c.limit >= 1 && Good(s) && Enabled(s, a)
  {
    a.Append? && s.held[a.caller] != i && Entries(c, s, a, name) != []
  }

  ghost predicate NoStray(
      c: Config, epoch: Name, acts: seq<Action>, ss: seq<State>, from: nat, till: nat, name: Name, i: nat)
    requires IsRun(c, epoch, acts, ss) && from <= till < |ss|
  {
    forall m :: from <= m < till ==> !Stray(c, ss[m], acts[m], name, i)
  }

  lemma {:induction false} LogGrows(c: Config, s: State, a: Action, i: nat)
    requires c.limit >= 1 && Good(s) && Enabled(s, a) && i < |s.objects|
    ensures var name, after := s.objects[i].owner, Do(c, s, a).objects;
      && i < |after| && after[i].owner == name
      && Log(c, after[i].ops) == Log(c, s.objects[i].ops) +
           if a.Append? && s.held[a.caller] == i then Entries(c, s, a, name) else []
  {
    if a.Append? && s.held[a.caller] == i {
      RunSnoc(c, s.objects[i].ops, a.op);
    } else if a.PassCut? && s.current[a.name] == i {
      RunSnoc(c, s.objects[i].ops, Expire(a.at));
    }
    assert Log(c, s.objects[i].ops) + [] == Log(c, s.objects[i].ops);
  }

  function LogOf(c: Config, s: State, i: nat): seq<Entry>
    requires c.limit >= 1 && i < |s.objects|
  {
    Log(c, s.objects[i].ops)
  }

  /** After `start` the log holds all of the entries, if and only if `none` of them strayed. */
  ghost predicate Holds(log: seq<Entry>, start: seq<Entry>, all: seq<Entry>, none: bool) {
    && start <= log && |log| - |start| <= |all|
    && (log[|start|..] == all <==> none) && (|log| - |start| == |all| <==> none)
  }

  lemma {:induction false} HoldsBefore(
      log: seq<Entry>, start: seq<Entry>, es: seq<Entry>, own: bool, all: seq<Entry>, none: bool)
    requires Holds(log, start + if own then es else [], all, none)
    ensures Holds(log, start, es + all, none && (own || es == []))
  {
    var next := start + if own then es else [];
    if own {
      assert log[|start|..] == es + log[|next|..];
      assert (es + log[|next|..])[|es|..] == log[|next|..] && (es + all)[|es|..] == all;
    } else {
      assert next == start;
      assert es == [] ==> es + all == all;
    }
  }

  /** `NoStray`, step by step. */
  ghost predicate NoneStrays(
      c: Config, epoch: Name, acts: seq<Action>, ss: seq<State>, from: nat, till: nat, name: Name, i: nat)
    requires IsRun(c, epoch, acts, ss) && from <= till < |ss|
    decreases till - from
  {
    from < till ==>
      !Stray(c, ss[from], acts[from], name, i) && NoneStrays(c, epoch, acts, ss, from + 1, till, name, i)
  }

  lemma {:induction false} NoneStraysIff(
      c: Config, epoch: Name, acts: seq<Action>, ss: seq<State>, from: nat, till: nat, name: Name, i: nat)
    requires IsRun(c, epoch, acts, ss) && from <= till < |ss|
    ensures NoneStrays(c, epoch, acts, ss, from, till, name, i) <==> NoStray(c, epoch, acts, ss, from, till, name, i)
    decreases till - from
  {
    if from < till {
      NoneStraysIff(c, epoch, acts, ss, from + 1, till, name, i);
    }
  }

  lemma {:induction false} LogIsAll(
      c: Config, epoch: Name, acts: seq<Action>, ss: seq<State>, from: nat, till: nat, name: Name, i: nat)
    requires IsRun(c, epoch, acts, ss) && from <= till < |ss|
    requires i < |ss[from].objects| && ss[from].objects[i].owner == name
    ensures i < |ss[till].objects| && ss[till].objects[i].owner == name
    ensures Holds(LogOf(c, ss[till], i), LogOf(c, ss[from], i), StoredUnder(c, epoch, acts, ss, from, till, name),
              NoneStrays(c, epoch, acts, ss, from, till, name, i))
    decreases till - from
  {
    if from < till {
      var s, a := ss[from], acts[from];
      LogGrows(c, s, a, i);
      LogIsAll(c, epoch, acts, ss, from + 1, till, name, i);
      HoldsBefore(LogOf(c, ss[till], i), LogOf(c, s, i), Entries(c, s, a, name), a.Append? && s.held[a.caller] == i,
        StoredUnder(c, epoch, acts, ss, from + 1, till, name), NoneStrays(c, epoch, acts, ss, from + 1, till, name, i));
    }
  }

  /** What an object logs is all that is stored under its name, if and only if nothing strays. */
  lemma {:induction false} LogIsAllIff(
      c: Config, epoch: Name, acts: seq<Action>, ss: seq<State>, from: nat, till: nat, name: Name, i: nat)
    requires IsRun(c, epoch, acts, ss) && from <= till < |ss|
    requires i < |ss[from].objects| && ss[from].objects[i].owner == name
    ensures i < |ss[till].objects| && ss[till].objects[i].owner == name
    ensures Holds(LogOf(c, ss[till], i), LogOf(c, ss[from], i), StoredUnder(c, epoch, acts, ss, from, till, name),
              NoStray(c, epoch, acts, ss, from, till, name, i))
  {
    LogIsAll(c, epoch, acts, ss, from, till, name, i);
    NoneStraysIff(c, epoch, acts, ss, from, till, name, i);
  }

  /** What an object logs is stored under its name since, but for what it had. */
  lemma {:induction false} GrownLogStored(
      c: Config, epoch: Name, acts: seq<Action>, ss: seq<State>, from: nat, till: nat, i: nat, e: Entry)
    requires IsRun(c, epoch, acts, ss) && from <= till < |ss|
    requires i < |ss[from].objects| && i < |ss[till].objects| && e in LogOf(c, ss[till], i)
    ensures e in LogOf(c, ss[from], i) || e in StoredUnder(c, epoch, acts, ss, from, till, ss[from].objects[i].owner)
    decreases till - from
  {
    if from < till {
      LogGrows(c, ss[from], acts[from], i);
      GrownLogStored(c, epoch, acts, ss, from + 1, till, i, e);
    }
  }

  lemma {:induction false} NewIsEmpty(c: Config, s: State, a: Action, i: nat)
    requires c.limit >= 1 && Good(s) && Enabled(s, a) && |s.objects| <= i < |Do(c, s, a).objects|
    ensures LogOf(c, Do(c, s, a), i) == []
  {
  }

  lemma {:induction false} OwnerStays(
      c: Config, epoch: Name, acts: seq<Action>, ss: seq<State>, from: nat, till: nat, i: nat)
    requires IsRun(c, epoch, acts, ss) && from <= till < |ss| && i < |ss[from].objects|
    ensures i < |ss[till].objects| && ss[till].objects[i].owner == ss[from].objects[i].owner
  {
    StillInMapIff(c, epoch, acts, ss, from, till, ss[from].objects[i].owner, i);
  }

  /** Everything a new object logs is stored under its name since. */
  lemma {:induction false} NewLogStored(
      c: Config, epoch: Name, acts: seq<Action>, ss: seq<State>, from: nat, till: nat, i: nat, e: Entry)
    requires IsRun(c, epoch, acts, ss) && from <= till < |ss|
    requires |ss[from].objects| <= i < |ss[till].objects| && e in LogOf(c, ss[till], i)
    ensures e in StoredUnder(c, epoch, acts, ss, from, till, ss[till].objects[i].owner)
    decreases till - from
  {
    if from < till {
      if i < |ss[from + 1].objects| {
        NewIsEmpty(c, ss[from], acts[from], i);
        OwnerStays(c, epoch, acts, ss, from + 1, till, i);
        GrownLogStored(c, epoch, acts, ss, from + 1, till, i, e);
      } else {
        NewLogStored(c, epoch, acts, ss, from + 1, till, i, e);
      }
    }
  }

  // A reader in three steps.

  /** A reader checks the epoch in one state, looks the stream up in a later one, outside any pass, and reads the
      object it has found in a still later one, which may be in the middle of a pass. */
  ghost predicate IsRead(c: Config, epoch: Name, acts: seq<Action>, ss: seq<State>, e: nat, l: nat, till: nat) {
    IsRun(c, epoch, acts, ss) && e <= l <= till < |ss| && ss[l].pass.None?
  }

  lemma {:induction false} ObjectsStay(c: Config, epoch: Name, acts: seq<Action>, ss: seq<State>, l: nat, till: nat)
    requires IsRun(c, epoch, acts, ss) && l <= till < |ss|
    ensures Good(ss[l]) && forall n :: n in ss[l].current ==> ss[l].current[n] < |ss[till].objects|
  {
    RunGood(c, epoch, acts, ss, l);
    forall n | n in ss[l].current
      ensures ss[l].current[n] < |ss[till].objects|
    {
      StillInMapIff(c, epoch, acts, ss, l, till, n, ss[l].current[n]);
    }
  }

  /** The epoch is the one last set, or the first one. */
  lemma {:induction false} EpochLastSet(c: Config, epoch: Name, acts: seq<Action>, ss: seq<State>, k: nat, n: nat)
    requires IsRun(c, epoch, acts, ss) && k <= n < |ss|
    requires forall m :: k <= m < n ==> !acts[m].SetEpoch?
    ensures ss[n].epoch == ss[k].epoch
    ensures ss[0].epoch == epoch && (k > 0 && acts[k - 1].SetEpoch? ==> ss[n].epoch == acts[k - 1].epoch)
    decreases n
  {
    if k < n {
      EpochLastSet(c, epoch, acts, ss, k, n - 1);
    }
  }

  /** What `HistoryFrom` returns. */
  function Answer(c: Config, current: Name, found: map<Name, nat>, objects: seq<Object>, name: Name, wanted: Name,
                  o: uint64): Result<seq<Common.StreamMessage>>
    requires c.limit >= 1 && forall n :: n in found ==> found[n] < |objects|
  {
    if wanted != current || name !in found then Err
    else
      var es := From(Content(c, objects[found[name]]).data, o);
      if es == Err then Err else Ok(MemoryBroker.Messages(name, current, es.value))
  }

  /** With nothing in between it is one operation of the broker. */
  lemma {:induction false} ReadAlone(c: Config, s: State, name: Name, wanted: Name, o: uint64)
    requires c.limit >= 1 && Good(s)
    ensures Answer(c, s.epoch, s.current, s.objects, name, wanted, o) ==
      MemoryBroker.ReadFrom(View(c, s), name, wanted, o)
  {
  }

  /** However the three steps are spread over a run: a resume is answered if and only if the epoch was the current one
      when it was checked, the stream was there when it was looked up, and the offset is held when it is read. The
      answer is all that the object found has logged after the offset by then. */
  lemma {:induction false} SplitReadExact(
      c: Config, epoch: Name, acts: seq<Action>, ss: seq<State>, e: nat, l: nat, till: nat, name: Name, wanted: Name,
      o: uint64)
    requires IsRead(c, epoch, acts, ss, e, l, till)
    requires name in ss[l].current && ss[l].current[name] < |ss[till].objects| ==>
      var ops := ss[till].objects[ss[l].current[name]].ops; NoWrap(c, ops) && NoGap(c, ops)
    ensures forall n :: n in ss[l].current ==> ss[l].current[n] < |ss[till].objects|
    ensures Answer(c, ss[e].epoch, ss[l].current, ss[till].objects, name, wanted, o) ==
      if && wanted == ss[e].epoch && name in ss[l].current
         && Held(Content(c, ss[till].objects[ss[l].current[name]]), o)
      then Ok(MemoryBroker.Messages(name, wanted, After(LogOf(c, ss[till], ss[l].current[name]), o))) else Err
  {
    ObjectsStay(c, epoch, acts, ss, l, till);
    if name in ss[l].current {
      ResumeExact(c, ss[till].objects[ss[l].current[name]].ops, o);
    }
  }

  /** The same message by message: from the offset asked for to the last one of the object found, in order, each with
      the data logged under its offset, under the stream's name and the epoch asked for. */
  lemma {:induction false} ReplyMessageByMessage(
      c: Config, epoch: Name, acts: seq<Action>, ss: seq<State>, e: nat, l: nat, till: nat, name: Name, wanted: Name,
      o: uint64)
    requires IsRead(c, epoch, acts, ss, e, l, till)
    requires forall n :: n in ss[l].current ==> ss[l].current[n] < |ss[till].objects|
    requires Answer(c, ss[e].epoch, ss[l].current, ss[till].objects, name, wanted, o).Ok?
    requires var ops := ss[till].objects[ss[l].current[name]].ops; NoWrap(c, ops) && NoGap(c, ops)
    ensures var ms := Answer(c, ss[e].epoch, ss[l].current, ss[till].objects, name, wanted, o).value;
      var i := ss[l].current[name];
      var log := LogOf(c, ss[till], i);
      |ms| == Content(c, ss[till].objects[i]).offset - o && CarryEnd(ms, log, o, name, wanted)
  {
    ResumeNumbered(c, ss[till].objects[ss[l].current[name]].ops, o);
    MessagesNumbered(name, wanted, From(Content(c, ss[till].objects[ss[l].current[name]]).data, o).value,
      LogOf(c, ss[till], ss[l].current[name]), o);
  }

  /** The messages carry the end of the log, in order, numbered on from `o`. */
  predicate CarryEnd(ms: seq<Common.StreamMessage>, log: seq<Entry>, o: int, name: Name, epoch: Name) {
    && |ms| <= |log|
    && forall k :: 0 <= k < |ms| ==>
         && ms[k].offset == o + 1 + k == log[|log| - |ms| + k].offset && ms[k].data == log[|log| - |ms| + k].data
         && ms[k].stream == name && ms[k].epoch == Some(epoch) && ms[k].meta == None
  }

  lemma {:induction false} MessagesNumbered(name: Name, epoch: Name, es: seq<Entry>, log: seq<Entry>, o: int)
    requires NumberedEnd(es, log, o)
    ensures |MemoryBroker.Messages(name, epoch, es)| == |es|
    ensures CarryEnd(MemoryBroker.Messages(name, epoch, es), log, o, name, epoch)
  {
  }

  // A client that resumes from the last offset it has seen.

  lemma {:induction false} SameObjectAnswers(c: Config, before: seq<History.Op>, ops: seq<History.Op>, o: uint64)
    requires c.limit >= 1 && NoWrap(c, ops) && NoGap(c, ops) && Log(c, before) <= Log(c, ops)
    requires o == History.Run(c, before).offset && From(History.Run(c, ops).data, o).Ok?
    ensures From(History.Run(c, ops).data, o).value == Log(c, ops)[|Log(c, before)|..]
  {
    RunEndsLog(c, before);
    NumberedIffNoWrap(c, ops);
    ResumeExact(c, ops, o);
    AfterIsSuffix(Log(c, ops), |Log(c, before)|, o);
  }

  lemma {:induction false} LowestMissed(c: Config, ops: seq<History.Op>, o: uint64)
    requires c.limit >= 1 && NoWrap(c, ops) && From(History.Run(c, ops).data, o).Ok?
    ensures var data := History.Run(c, ops).data;
      data != [] && data[0] in Log(c, ops) && data[0] !in From(data, o).value
  {
    RunEndsLog(c, ops);
    ResumeWithGaps(c, ops, o);
    var data, log := History.Run(c, ops).data, Log(c, ops);
    assert data[0] == log[|log| - |data|];
  }

  lemma NewObject(
      c: Config, epoch: Name, acts: seq<Action>, ss: seq<State>, from: nat, till: nat, name: Name, i: nat, j: nat)
    requires IsRun(c, epoch, acts, ss) && from <= till < |ss|
    requires InMap(ss[from], name, i) && InMap(ss[till], name, j) && i != j
    ensures |ss[from].objects| <= j < |ss[till].objects| && ss[till].objects[j].owner == name
  {
    RunGood(c, epoch, acts, ss, till);
    if j < |ss[from].objects| {
      StillInMapIff(c, epoch, acts, ss, from, till, name, j);
    }
  }

  /** A client has seen everything up to the stream's last offset at `from` and resumes from it later: it looks the
      stream up at `l` and reads it at `till`. If it is answered, the answer is all that was stored under the name
      since `from` if and only if the stream was not deleted before the lookup and nothing strayed to another object. */
  lemma {:induction false} OldOffsetCompleteIff(
      c: Config, epoch: Name, acts: seq<Action>, ss: seq<State>, from: nat, e: nat, l: nat, till: nat, name: Name,
      i: nat, j: nat, o: uint64)
    requires IsRead(c, epoch, acts, ss, e, l, till) && from <= l
    requires InMap(ss[from], name, i) && InMap(ss[l], name, j)
    requires i < |ss[from].objects| && j < |ss[till].objects| && o == Content(c, ss[from].objects[i]).offset
    requires var ops := ss[till].objects[j].ops;
      NoWrap(c, ops) && NoGap(c, ops) && From(History.Run(c, ops).data, o).Ok?
    ensures var answer := From(Content(c, ss[till].objects[j]).data, o).value;
      answer == StoredUnder(c, epoch, acts, ss, from, till, name) <==>
      && (forall m :: from <= m < l ==> !Drops(ss[m], acts[m], name))
      && NoStray(c, epoch, acts, ss, from, till, name, i)
  {
    RunGood(c, epoch, acts, ss, from);
    StillInMapIff(c, epoch, acts, ss, from, l, name, i);
    if i == j {
      LogIsAllIff(c, epoch, acts, ss, from, till, name, i);
      SameObjectAnswers(c, ss[from].objects[i].ops, ss[till].objects[j].ops, o);
    } else {
      NewObject(c, epoch, acts, ss, from, l, name, i, j);
      StillInMapIff(c, epoch, acts, ss, l, till, name, j);
      LowestMissed(c, ss[till].objects[j].ops, o);
      NewLogStored(c, epoch, acts, ss, from, till, j, Content(c, ss[till].objects[j]).data[0]);
    }
  }

  // What a pass loses.

  /** What was overdue when it was tested. */
  ghost predicate Overdue(c: Config, s: State)
    requires c.limit >= 1 && Good(s)
  {
    s.pass.Some? ==> forall n :: n in s.pass.value.doomed ==>
      var ops, t := s.objects[s.current[n]].ops, s.pass.value.doomed[n];
      t <= |ops| && History.Run(c, ops[..t]).deadline < s.pass.value.now
  }

  lemma DoOverdue(c: Config, s: State, a: Action)
    requires c.limit >= 1 && Good(s) && Enabled(s, a) && Overdue(c, s)
    ensures Good(Do(c, s, a)) && Overdue(c, Do(c, s, a))
  {
    DoGood(c, s, a);
    var s' := Do(c, s, a);
    if s'.pass.Some? {
      forall n | n in s'.pass.value.doomed
        ensures var ops, t := s'.objects[s'.current[n]].ops, s'.pass.value.doomed[n];
          t <= |ops| && History.Run(c, ops[..t]).deadline < s'.pass.value.now
      {
        var i, t := s'.current[n], s'.pass.value.doomed[n];
        if a.PassTest? && a.name == n && Content(c, s.objects[i]).deadline < s.pass.value.now {
          assert s'.objects[i].ops[..t] == s.objects[i].ops;
        } else {
          InMapStep(c, s, a, n, i);
          assert s'.objects[i].ops[..t] == s.objects[i].ops[..t];
        }
      }
    }
  }

  lemma {:induction false} RunOverdue(c: Config, epoch: Name, acts: seq<Action>, ss: seq<State>, k: nat)
    requires IsRun(c, epoch, acts, ss) && k < |ss|
    ensures Good(ss[k]) && Overdue(c, ss[k])
  {
    if k > 0 {
      RunOverdue(c, epoch, acts, ss, k - 1);
      DoOverdue(c, ss[k - 1], acts[k - 1]);
    }
  }

  /** The entries held that were appended after the first `t` operations. */
  function Fresh(c: Config, ops: seq<History.Op>, t: nat): seq<Entry>
    requires c.limit >= 1 && t <= |ops|
  {
    Latest(History.Run(c, ops).data, |Log(c, ops)| - |Log(c, ops[..t])|)
  }

  function Latest(data: seq<Entry>, n: int): seq<Entry> {
    LastN(data, if n < 0 then 0 else n)
  }

  lemma {:induction false} DataSince(c: Config, ops: seq<History.Op>, t: nat)
    requires c.limit >= 1 && t <= |ops|
    ensures Log(c, ops[..t]) <= Log(c, ops)
    ensures IsSuffix(History.Run(c, ops).data, History.Run(c, ops[..t]).data + Log(c, ops)[|Log(c, ops[..t])|..])
    decreases |ops|
  {
    if t == |ops| {
      assert ops[..t] == ops;
    } else {
      var init, op := ops[..|ops| - 1], ops[|ops| - 1];
      assert init[..t] == ops[..t];
      DataSince(c, init, t);
      var was, k, es := History.Run(c, ops[..t]).data, |Log(c, ops[..t])|, Appended(History.Run(c, init), op);
      DataStep(c, History.Run(c, init), op, was + Log(c, init)[k..]);
      Regroup(was, Log(c, init), es, k);
    }
  }

  lemma Regroup(was: seq<Entry>, log: seq<Entry>, es: seq<Entry>, k: nat)
    requires k <= |log|
    ensures was + log[k..] + es == was + (log + es)[k..]
  {
  }

  lemma DataStep(c: Config, st: Stream, op: History.Op, all: seq<Entry>)
    requires c.limit >= 1 && IsSuffix(st.data, all)
    ensures IsSuffix(Apply(c, st, op).data, all + Appended(st, op))
  {
    if op.Expire? {
      DropStaleSuffix(st.data, op.now - c.ttl);
    } else if Appended(st, op) != [] {
      AppendEndsLog(st.data, all, Appended(st, op)[0], c.limit);
    }
  }

  /** All of `data` but its end `late` is stale. */
  predicate OnlyEndLive(data: seq<Entry>, late: seq<Entry>, bound: int) {
    && |late| <= |data| && data[|data| - |late|..] == late
    && forall m :: 0 <= m < |data| - |late| ==> data[m].timestamp < bound
  }

  lemma OnlyTheEndIsLive(data: seq<Entry>, was: seq<Entry>, log: seq<Entry>, start: seq<Entry>, bound: int)
    requires start <= log && IsSuffix(data, was + log[|start|..])
    requires forall m :: 0 <= m < |was| ==> was[m].timestamp < bound
    ensures OnlyEndLive(data, Latest(data, |log| - |start|), bound)
  {
    var all, late := was + log[|start|..], Latest(data, |log| - |start|);
    forall m | 0 <= m < |data| - |late|
      ensures data[m].timestamp < bound
    {
      assert data[m] == all[|all| - |data| + m] == was[|all| - |data| + m];
    }
  }

  lemma {:induction false} StaleBy(c: Config, ops: seq<History.Op>, t: nat, at: int)
    requires c.limit >= 1 && c.ttl >= 0 && t <= |ops| && Clocked(c, ops) && History.Run(c, ops[..t]).deadline < at
    ensures var was := History.Run(c, ops[..t]).data; forall m :: 0 <= m < |was| ==> was[m].timestamp < at - c.ttl
  {
    assert Clocked(c, ops[..t]);
    RunCovered(c, ops[..t]);
  }

  lemma {:induction false} OnlyFreshIsLive(c: Config, ops: seq<History.Op>, t: nat, at: int)
    requires c.limit >= 1 && c.ttl >= 0 && t <= |ops| && Clocked(c, ops) && History.Run(c, ops[..t]).deadline < at
    ensures OnlyEndLive(History.Run(c, ops).data, Fresh(c, ops, t), at - c.ttl)
  {
    DataSince(c, ops, t);
    StaleBy(c, ops, t, at);
    OnlyTheEndIsLive(
      History.Run(c, ops).data, History.Run(c, ops[..t]).data, Log(c, ops), Log(c, ops[..t]), at - c.ttl);
  }

  /** Of what the stream holds, only what was appended after its first `t` operations is live; without any such
      append, nothing is. */
  ghost predicate LosesFresh(c: Config, ops: seq<History.Op>, t: nat, at: int)
    requires c.limit >= 1
  {
    && t <= |ops| && OnlyEndLive(History.Run(c, ops).data, Fresh(c, ops, t), at - c.ttl)
    && (t == |ops| ==> Fresh(c, ops, t) == [])
  }

  /** A pass that deletes a stream finds everything in it stale but what was appended to it after its test; so it
      loses nothing live if nothing was. */
  lemma {:induction false} PassLosesFresh(
      c: Config, epoch: Name, acts: seq<Action>, ss: seq<State>, k: nat, name: Name, at: int)
    requires IsRun(c, epoch, acts, ss) && k < |acts| && Drops(ss[k], acts[k], name)
    requires c.ttl >= 0 && ss[k].pass.value.now <= at
    requires Good(ss[k]) && Clocked(c, ss[k].objects[ss[k].current[name]].ops)
    ensures name !in ss[k + 1].current
    ensures LosesFresh(c, ss[k].objects[ss[k].current[name]].ops, ss[k].pass.value.doomed[name], at)
  {
    RunOverdue(c, epoch, acts, ss, k);
    DropLosesFresh(c, ss[k], name, at);
  }

  lemma {:induction false} DropLosesFresh(c: Config, s: State, name: Name, at: int)
    requires c.limit >= 1 && c.ttl >= 0 && Good(s) && Overdue(c, s) && Drops(s, PassEnd, name) && s.pass.value.now <= at
    requires Clocked(c, s.objects[s.current[name]].ops)
    ensures LosesFresh(c, s.objects[s.current[name]].ops, s.pass.value.doomed[name], at)
  {
    var ops, t := s.objects[s.current[name]].ops, s.pass.value.doomed[name];
    OnlyFreshIsLive(c, ops, t, at);
    NothingFresh(c, ops, t);
  }

  lemma NothingFresh(c: Config, ops: seq<History.Op>, t: nat)
    requires c.limit >= 1 && t <= |ops|
    ensures t == |ops| ==> Fresh(c, ops, t) == []
  {
    assert t == |ops| ==> ops[..t] == ops;
  }

  /** A cut changes one object. */
  lemma {:induction false} CutOne(c: Config, s: State, name: Name, at: int)
    requires c.limit >= 1 && Good(s) && Enabled(s, PassCut(name, at))
    ensures var s' := Do(c, s, PassCut(name, at));
      && Good(s') && s'.current == s.current && s'.epoch == s.epoch && |s'.objects| == |s.objects|
      && Content(c, s'.objects[s.current[name]]) == Apply(c, Content(c, s.objects[s.current[name]]), Expire(at))
      && forall n :: n in s.current && n != name ==> s'.objects[s.current[n]] == s.objects[s.current[n]]
  {
    DoGood(c, s, PassCut(name, at));
    RunSnoc(c, s.objects[s.current[name]].ops, Expire(at));
  }

  /** A cut keeps every entry that is live when it is made. */
  lemma {:induction false} CutKeepsLive(c: Config, s: State, name: Name, at: int)
    requires c.limit >= 1 && Good(s) && Enabled(s, PassCut(name, at))
    ensures var i := s.current[name];
      Since(Content(c, Do(c, s, PassCut(name, at)).objects[i]).data, at - c.ttl) ==
      Since(Content(c, s.objects[i]).data, at - c.ttl)
  {
    CutOne(c, s, name, at);
    ExpireKeepsLive(Content(c, s.objects[s.current[name]]).data, at - c.ttl);
  }

  ghost predicate Reached(c: Config, epoch: Name, acts: seq<Action>, ss: seq<State>, s: State) {
    IsRun(c, epoch, acts, ss) && ss[|acts|] == s && Good(s)
  }

  lemma Then(c: Config, epoch: Name, acts: seq<Action>, ss: seq<State>, s: State, a: Action, s': State)
    requires Reached(c, epoch, acts, ss, s) && Enabled(s, a) && s' == Do(c, s, a)
    ensures Reached(c, epoch, acts + [a], ss + [s'], s')
  {
    DoGood(c, s, a);
  }

  /** What the run below goes through. */
  function Idle(epoch: Name, name: Name, ops: seq<History.Op>, held: map<nat, nat>, pass: Option<Pass>): State {
    State(epoch, [Object(name, ops)], map[name := 0], held, pass)
  }

  lemma AppendedOnce(c: Config, epoch: Name, name: Name, a: History.Op) returns (acts: seq<Action>, ss: seq<State>)
    requires c.limit >= 1 && !a.Expire?
    ensures Reached(c, epoch, acts, ss, Idle(epoch, name, [a], map[], None))
  {
    var s0 := Initial(epoch);
    Then(c, epoch, [], [s0], s0, Lookup(0, name), Idle(epoch, name, [], map[0 := 0], None));
    acts, ss := [Lookup(0, name)], [s0] + [Idle(epoch, name, [], map[0 := 0], None)];
    assert [] + [Lookup(0, name)] == acts;
    assert map[0 := 0] - {0} == map[] && [] + [a] == [a];
    Then(c, epoch, acts, ss, ss[1], Append(0, a), Idle(epoch, name, [a], map[], None));
    acts, ss := acts + [Append(0, a)], ss + [Idle(epoch, name, [a], map[], None)];
  }

  lemma TestedOverdue(c: Config, epoch: Name, name: Name, now: int, later: int)
      returns (acts: seq<Action>, ss: seq<State>)
    requires c.limit >= 1 && now + 10 * c.ttl < later
    ensures Reached(c, epoch, acts, ss,
      Idle(epoch, name, [Add("a", now)] + [Expire(later)], map[1 := 0], Some(Pass(later, {}, {}, map[name := 2]))))
  {
    var a, cut := Add("a", now), Expire(later);
    acts, ss := AppendedOnce(c, epoch, name, a);
    var s := Idle(epoch, name, [a], map[], None);
    var next := s.(held := map[1 := 0]);
    Then(c, epoch, acts, ss, s, Lookup(1, name), next);
    acts, ss, s := acts + [Lookup(1, name)], ss + [next], next;
    next := s.(pass := Some(Pass(later, {name}, {}, map[])));
    assert s.current.Keys == {name};
    Then(c, epoch, acts, ss, s, PassBegin(later), next);
    acts, ss, s := acts + [PassBegin(later)], ss + [next], next;
    assert {name} - {name} == {} && {} + {name} == {name};
    next := Idle(epoch, name, [a] + [cut], map[1 := 0], Some(Pass(later, {}, {name}, map[])));
    Then(c, epoch, acts, ss, s, PassCut(name, later), next);
    acts, ss, s := acts + [PassCut(name, later)], ss + [next], next;
    AfterCut(c, now, later);
    next := s.(pass := Some(Pass(later, {}, {}, map[name := 2])));
    Then(c, epoch, acts, ss, s, PassTest(name), next);
    acts, ss := acts + [PassTest(name)], ss + [next];
  }

  lemma {:induction false} JustAppendedIsLive(c: Config, st: Stream, text: string, now: int)
    requires c.limit >= 1 && c.ttl >= 0
    ensures LiveAt(c, Apply(c, st, Add(text, now)), now)
  {
    var data := Apply(c, st, Add(text, now)).data;
    assert data[|data| - 1].timestamp == now;
    LastIsLive(data, now - c.ttl);
  }

  lemma {:induction false} CutDeadline(c: Config, now: int, later: int)
    requires c.limit >= 1
    ensures History.Run(c, [Add("a", now)] + [Expire(later)]).deadline == now + 10 * c.ttl
  {
    RunOne(c, Add("a", now));
    RunSnoc(c, [Add("a", now)], Expire(later));
  }

  lemma {:induction false} AfterCut(c: Config, now: int, later: int)
    requires c.limit >= 1
    ensures var cut := [Add("a", now)] + [Expire(later)];
      && History.Run(c, cut).deadline == now + 10 * c.ttl
      && (c.ttl >= 0 ==> LiveAt(c, History.Run(c, cut + [Add("b", later)]), later))
  {
    var cut := [Add("a", now)] + [Expire(later)];
    CutDeadline(c, now, later);
    RunSnoc(c, cut, Add("b", later));
    if c.ttl >= 0 {
      JustAppendedIsLive(c, History.Run(c, cut), "b", later);
    }
  }

  /** A run in which a pass tests an idle stream, a caller that has looked it up before appends to it, and the
      pass then deletes it. The entry is not stale, and it is lost. */
  lemma AppendDuringPassLost(c: Config, epoch: Name, name: Name, now: int)
      returns (acts: seq<Action>, ss: seq<State>, ops: seq<History.Op>)
    requires c.limit >= 1 && c.ttl >= 0
    ensures var later := now + 10 * c.ttl + 1;
      var s := Idle(epoch, name, ops, map[], Some(Pass(later, {}, {}, map[name := 2])));
      && Reached(c, epoch, acts, ss, s) && Enabled(s, PassEnd) && name !in Do(c, s, PassEnd).current
      && LiveAt(c, History.Run(c, ops), later)
  {
    var later := now + 10 * c.ttl + 1;
    var b, cut := Add("b", later), [Add("a", now)] + [Expire(later)];
    acts, ss := TestedOverdue(c, epoch, name, now, later);
    var s := Idle(epoch, name, cut, map[1 := 0], Some(Pass(later, {}, {}, map[name := 2])));
    ops := cut + [b];
    var next := Idle(epoch, name, ops, map[], s.pass);
    assert map[1 := 0] - {1} == map[];
    Then(c, epoch, acts, ss, s, Append(1, b), next);
    acts, ss := acts + [Append(1, b)], ss + [next];
    AfterCut(c, now, later);
  }

  // The same steps, uninterrupted, are the operations of the broker.

  lemma ViewIs(c: Config, s: State, m: map<Name, Stream>)
    requires c.limit >= 1 && Good(s) && m.Keys == s.current.Keys
    requires forall n :: n in m ==> Content(c, s.objects[s.current[n]]) == m[n]
    ensures View(c, s).streams == m
  {
  }

  lemma LookupFinds(c: Config, s: State, h: nat, name: Name)
    requires c.limit >= 1 && Good(s) && Enabled(s, Lookup(h, name))
    ensures var mid := Do(c, s, Lookup(h, name));
      && Good(mid) && h in mid.held && mid.pass.None? && mid.epoch == s.epoch && InMap(mid, name, mid.held[h])
      && Content(c, mid.objects[mid.held[h]]) == MemoryBroker.Get(View(c, s), name)
      && mid.current.Keys == s.current.Keys + {name}
      && forall n :: n in s.current && n != name ==>
           (mid.current[n] == s.current[n] != mid.held[h] && mid.objects[s.current[n]] == s.objects[s.current[n]])
  {
    DoGood(c, s, Lookup(h, name));
  }

  /** An append changes one object. */
  lemma {:induction false} AppendOne(c: Config, s: State, h: nat, op: History.Op)
    requires c.limit >= 1 && Good(s) && Enabled(s, Append(h, op))
    ensures var s', i := Do(c, s, Append(h, op)), s.held[h];
      && Good(s') && s'.current == s.current && s'.epoch == s.epoch && |s'.objects| == |s.objects|
      && Content(c, s'.objects[i]) == Apply(c, Content(c, s.objects[i]), op)
      && forall k :: 0 <= k < |s.objects| && k != i ==> s'.objects[k] == s.objects[k]
  {
    DoGood(c, s, Append(h, op));
    RunSnoc(c, s.objects[s.held[h]].ops, op);
  }

  /** From one state to the other, one stream has changed, or is new. */
  ghost predicate OneChanged(c: Config, s: State, s': State, name: Name, content: Stream)
    requires c.limit >= 1 && Good(s) && Good(s')
  {
    && s'.epoch == s.epoch && s'.current.Keys == s.current.Keys + {name}
    && Content(c, s'.objects[s'.current[name]]) == content
    && forall n :: n in s.current && n != name ==>
         Content(c, s'.objects[s'.current[n]]) == Content(c, s.objects[s.current[n]])
  }

  lemma {:induction false} OneChangedView(c: Config, s: State, s': State, name: Name, content: Stream)
    requires c.limit >= 1 && Good(s) && Good(s') && OneChanged(c, s, s', name, content)
    ensures View(c, s') == View(c, s).(streams := View(c, s).streams[name := content])
  {
    ViewIs(c, s', View(c, s).streams[name := content]);
  }

  /** A lookup and an append with nothing in between are one operation of the broker on its own stream. */
  lemma {:induction false} AppendAlone(c: Config, s: State, h: nat, name: Name, op: History.Op)
    requires c.limit >= 1 && Good(s) && Enabled(s, Lookup(h, name)) && !op.Expire?
    ensures var mid := Do(c, s, Lookup(h, name));
      && Good(mid) && Enabled(mid, Append(h, op)) && Good(Do(c, mid, Append(h, op)))
      && View(c, Do(c, mid, Append(h, op))) ==
         View(c, s).(streams := View(c, s).streams[name := History.Apply(c, MemoryBroker.Get(View(c, s), name), op)])
  {
    LookupFinds(c, s, h, name);
    var mid, content := Do(c, s, Lookup(h, name)), History.Apply(c, MemoryBroker.Get(View(c, s), name), op);
    AppendOne(c, mid, h, op);
    OneChangedView(c, s, Do(c, mid, Append(h, op)), name, content);
  }

  function CutSoFar(
      c: Config, v: MemoryBroker.Broker, now: int, readings: map<Name, int>, n: Name, uncut: set<Name>): Stream
    requires c.limit >= 1 && n in v.streams
  {
    if n in uncut then v.streams[n] else MemoryBroker.Swept(c, v.streams[n], readings, n, now)
  }

  /** The pass in the middle, when nothing is appended meanwhile: what has been cut is what `Swept` says, and what
      has been tested is doomed if it was overdue when the pass began. */
  ghost predicate Passing(c: Config, v: MemoryBroker.Broker, now: int, readings: map<Name, int>, s: State)
    requires c.limit >= 1
  {
    && Good(s) && s.pass.Some? && s.pass.value.now == now
    && s.epoch == v.epoch && s.current.Keys == v.streams.Keys && s.pass.value.uncut !! s.pass.value.untested
    && (forall n :: n in v.streams ==> IsCutSoFar(c, v, now, readings, s, n))
    && (forall n :: n in s.pass.value.doomed <==>
          n in v.streams && n !in s.pass.value.uncut + s.pass.value.untested && v.streams[n].deadline < now)
  }

  ghost predicate IsCutSoFar(
      c: Config, v: MemoryBroker.Broker, now: int, readings: map<Name, int>, s: State, n: Name)
    requires c.limit >= 1 && Good(s) && s.pass.Some? && n in v.streams && n in s.current
  {
    Content(c, s.objects[s.current[n]]) == CutSoFar(c, v, now, readings, n, s.pass.value.uncut)
  }

  lemma {:induction false} CutsOne(
      c: Config, v: MemoryBroker.Broker, now: int, readings: map<Name, int>, s: State, name: Name, at: int, n: Name)
    requires c.limit >= 1 && Good(s) && Enabled(s, PassCut(name, at)) && n in v.streams && n in s.current
    requires IsCutSoFar(c, v, now, readings, s, n)
    ensures Good(Do(c, s, PassCut(name, at)))
    ensures IsCutSoFar(c, v, now, readings[name := at], Do(c, s, PassCut(name, at)), n)
  {
    CutOne(c, s, name, at);
  }

  lemma PassBegins(c: Config, s: State, now: int)
    requires c.limit >= 1 && Good(s) && Enabled(s, PassBegin(now))
    ensures Passing(c, View(c, s), now, map[], Do(c, s, PassBegin(now)))
  {
  }

  lemma {:induction false} PassCuts(
      c: Config, v: MemoryBroker.Broker, now: int, readings: map<Name, int>, s: State, name: Name, at: int)
    requires c.limit >= 1 && Passing(c, v, now, readings, s) && Enabled(s, PassCut(name, at))
    ensures Passing(c, v, now, readings[name := at], Do(c, s, PassCut(name, at)))
  {
    var s' := Do(c, s, PassCut(name, at));
    DoGood(c, s, PassCut(name, at));
    forall n | n in v.streams
      ensures IsCutSoFar(c, v, now, readings[name := at], s', n)
    {
      CutsOne(c, v, now, readings, s, name, at, n);
    }
    var p, p' := s.pass.value, s'.pass.value;
    assert p'.uncut + p'.untested == p.uncut + p.untested && p'.doomed == p.doomed;
  }

  lemma PassTests(c: Config, v: MemoryBroker.Broker, now: int, readings: map<Name, int>, s: State, name: Name)
    requires c.limit >= 1 && Passing(c, v, now, readings, s) && Enabled(s, PassTest(name))
    ensures Passing(c, v, now, readings, Do(c, s, PassTest(name)))
  {
    DoGood(c, s, PassTest(name));
  }

  /** A pass during which nothing is appended is one operation of the broker, whatever order it takes. */
  lemma PassEnds(c: Config, v: MemoryBroker.Broker, now: int, readings: map<Name, int>, s: State)
    requires c.limit >= 1 && Passing(c, v, now, readings, s) && Enabled(s, PassEnd)
    ensures Good(Do(c, s, PassEnd)) && View(c, Do(c, s, PassEnd)) ==
      MemoryBroker.Step(c, v, MemoryBroker.Pass(now, readings))
  {
    DoGood(c, s, PassEnd);
    ViewIs(c, Do(c, s, PassEnd), MemoryBroker.Step(c, v, MemoryBroker.Pass(now, readings)).streams);
  }

  function WithReading(readings: map<Name, int>, a: Action): map<Name, int> {
    if a.PassCut? then readings[a.name := a.at] else readings
  }

  /** The readings of the clock that the steps of a pass took, after those given. */
  function Readings(readings: map<Name, int>, acts: seq<Action>, from: nat, till: nat): map<Name, int>
    requires from <= till <= |acts|
    decreases till - from
  {
    if from == till then readings else Readings(WithReading(readings, acts[from]), acts, from + 1, till)
  }

  /** Only the pass moves. */
  ghost predicate PassAlone(acts: seq<Action>, from: nat, till: nat) {
    from <= till <= |acts| && forall m :: from <= m < till ==> acts[m].PassCut? || acts[m].PassTest?
  }

  lemma {:induction false} PassMove(
      c: Config, v: MemoryBroker.Broker, now: int, readings: map<Name, int>, s: State, a: Action)
    requires c.limit >= 1 && Passing(c, v, now, readings, s) && Enabled(s, a) && (a.PassCut? || a.PassTest?)
    ensures Passing(c, v, now, WithReading(readings, a), Do(c, s, a))
  {
    if a.PassCut? {
      PassCuts(c, v, now, readings, s, a.name, a.at);
    } else {
      PassTests(c, v, now, readings, s, a.name);
    }
  }

  lemma {:induction false} PassMoves(
      c: Config, epoch: Name, acts: seq<Action>, ss: seq<State>, from: nat, till: nat, v: MemoryBroker.Broker, now: int,
      readings: map<Name, int>)
    requires IsRun(c, epoch, acts, ss) && PassAlone(acts, from, till) && Passing(c, v, now, readings, ss[from])
    ensures Passing(c, v, now, Readings(readings, acts, from, till), ss[till])
    decreases till - from
  {
    if from < till {
      PassMove(c, v, now, readings, ss[from], acts[from]);
      PassMoves(c, epoch, acts, ss, from + 1, till, v, now, WithReading(readings, acts[from]));
    }
  }

  /** A whole pass with nobody else moving, in whatever order it takes the streams, is one operation of the broker. */
  lemma {:induction false} WholePass(
      c: Config, epoch: Name, acts: seq<Action>, ss: seq<State>, b: nat, k: nat, now: int)
    requires IsRun(c, epoch, acts, ss) && b < k < |acts|
    requires acts[b] == PassBegin(now) && PassAlone(acts, b + 1, k) && acts[k] == PassEnd
    ensures Good(ss[k + 1]) && View(c, ss[k + 1]) ==
      MemoryBroker.Step(c, View(c, ss[b]), MemoryBroker.Pass(now, Readings(map[], acts, b + 1, k)))
  {
    PassBegins(c, ss[b], now);
    PassMoves(c, epoch, acts, ss, b + 1, k, View(c, ss[b]), now, map[]);
    PassEnds(c, View(c, ss[b]), now, Readings(map[], acts, b + 1, k), ss[k]);
  }

  /** From the lookup that creates a stream on: a reader whose lookup comes before any deletion is answered with all
      that has been stored under the name since, if nothing strays to another object. */
  lemma {:induction false} ResumeExactSinceCreation(
      c: Config, epoch: Name, acts: seq<Action>, ss: seq<State>, b: nat, e: nat, l: nat, till: nat, h: nat, name: Name,
      wanted: Name, o: uint64)
    requires IsRead(c, epoch, acts, ss, e, l, till) && b < l && acts[b] == Lookup(h, name) && name !in ss[b].current
    requires forall m :: b < m < l ==> !Drops(ss[m], acts[m], name)
    requires NoStray(c, epoch, acts, ss, b + 1, till, name, |ss[b].objects|)
    requires |ss[b].objects| < |ss[till].objects| ==>
      var ops := ss[till].objects[|ss[b].objects|].ops; NoWrap(c, ops) && NoGap(c, ops)
    ensures forall n :: n in ss[l].current ==> ss[l].current[n] < |ss[till].objects|
    ensures name in ss[l].current
    ensures Answer(c, ss[e].epoch, ss[l].current, ss[till].objects, name, wanted, o) ==
      if wanted == ss[e].epoch && Held(Content(c, ss[till].objects[ss[l].current[name]]), o)
      then Ok(MemoryBroker.Messages(name, wanted, After(StoredUnder(c, epoch, acts, ss, b + 1, till, name), o)))
      else Err
  {
    var i := |ss[b].objects|;
    StillInMapIff(c, epoch, acts, ss, b + 1, l, name, i);
    LogIsAllIff(c, epoch, acts, ss, b + 1, till, name, i);
    assert LogOf(c, ss[b + 1], i) == [];
    SplitReadExact(c, epoch, acts, ss, e, l, till, name, wanted, o);
  }
}
