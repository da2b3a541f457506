/** Who is present, and until when, told from the operations alone (`broker/memory.go`). */
module PresenceRuns {
  import opened Basics
  import opened Names
  import opened Presence

  ghost predicate Somewhere(m: Model, x: Name) {
    exists s :: (x, s) in m.links
  }

  predicate Finishes(op: Op, x: Name) {
    op.Finish? && op.sid == x
  }

  /** The session was last finished at step `f`, and has been present somewhere ever since, until `k`. */
  ghost predicate LastFinish(ops: seq<Op>, ms: seq<Model>, f: nat, k: nat, x: Name) {
    && f < k <= |ops| && k < |ms| && Finishes(ops[f], x)
    && (forall m :: f <= m <= k ==> Somewhere(ms[m], x))
    && (forall m :: f < m < k ==> !Finishes(ops[m], x))
  }

  /** The deadline of that finish has passed. */
  ghost predicate Due(ops: seq<Op>, ms: seq<Model>, k: nat, x: Name, now: int) {
    exists f: nat :: LastFinish(ops, ms, f, k, x) && 0 < ops[f].deadline < now
  }

  // The deadlines are those of the last finishes.

  ghost predicate DeadlineTold(ops: seq<Op>, ms: seq<Model>, k: nat, x: Name)
    requires k < |ms|
  {
    && (x in ms[k].deadlines <==> Somewhere(ms[k], x))
    && (x in ms[k].deadlines ==>
          || (ms[k].deadlines[x] == 0 && forall f: nat :: !LastFinish(ops, ms, f, k, x))
          || (exists f: nat :: LastFinish(ops, ms, f, k, x) && ops[f].deadline == ms[k].deadlines[x]))
  }

  lemma {:induction false} WithoutTracks(m: Model, gone: set<(Name, Name)>, x: Name)
    requires x in m.deadlines <==> Somewhere(m, x)
    ensures x in Without(m, gone).deadlines <==> Somewhere(Without(m, gone), x)
    ensures x in Without(m, gone).deadlines ==> x in m.deadlines && Without(m, gone).deadlines[x] == m.deadlines[x]
  {
    var after := Without(m, gone);
    if s :| (x, s) in after.links {
      assert (x, s) in m.links;
    }
  }

  /** A step keeps the deadline of whoever stays, but for a finish, and starts everyone new at zero. */
  lemma {:induction false} StepDeadline(blank: Name, m: Model, op: Op, es: seq<Event>, m': Model, x: Name)
    requires Steps(blank, m, op, es, m') && (x in m.deadlines <==> Somewhere(m, x))
    ensures x in m'.deadlines <==> Somewhere(m', x)
    ensures x in m'.deadlines ==>
      m'.deadlines[x] == if x !in m.deadlines then 0 else if Finishes(op, x) then op.deadline else m.deadlines[x]
    ensures x in m'.deadlines && x !in m.deadlines ==> !Finishes(op, x)
  {
    match op
    case Add(s, y, p, info) =>
      if m' != m {
        assert (y, s) in m'.links;
        if x != y {
          SameElsewhere(m, m', x, s, y, p);
        }
      }
    case Remove(s, y) =>
      if m' != m {
        WithoutTracks(m, {(y, s)}, x);
      }
    case Finish(_, _) =>
    case Pass(now) => WithoutTracks(m, LinksOf(m, Expired(m, now)), x);
  }

  lemma {:induction false} SameElsewhere(m: Model, m': Model, x: Name, s: Name, y: Name, p: Name)
    requires m'.links == m.links[(y, s) := p] && x != y
    ensures Somewhere(m', x) <==> Somewhere(m, x)
  {
    if t :| (x, t) in m.links {
      assert (x, t) in m'.links;
    }
    if t :| (x, t) in m'.links {
      assert (x, t) in m.links;
    }
  }

  lemma {:induction false} LastFinishStep(ops: seq<Op>, ms: seq<Model>, f: nat, k: nat, x: Name)
    requires k < |ops| && |ms| == |ops| + 1 && Somewhere(ms[k + 1], x) && !Finishes(ops[k], x)
    ensures LastFinish(ops, ms, f, k + 1, x) <==> LastFinish(ops, ms, f, k, x)
  {
    assert LastFinish(ops, ms, f, k + 1, x) ==> f != k;
  }

  lemma {:induction false} DeadlineToldStep(
      blank: Name, ops: seq<Op>, ms: seq<Model>, ess: seq<seq<Event>>, k: nat, x: Name)
    requires IsRun(blank, ops, ms, ess) && k < |ops| && DeadlineTold(ops, ms, k, x)
    ensures DeadlineTold(ops, ms, k + 1, x)
  {
    StepDeadline(blank, ms[k], ops[k], ess[k], ms[k + 1], x);
    var n := k + 1;
    if x in ms[n].deadlines {
      if x !in ms[k].deadlines {
        forall f: nat
          ensures !LastFinish(ops, ms, f, n, x)
        {
          assert !Somewhere(ms[k], x);
        }
      } else if Finishes(ops[k], x) {
        assert LastFinish(ops, ms, k, n, x);
      } else {
        forall f: nat
          ensures LastFinish(ops, ms, f, n, x) <==> LastFinish(ops, ms, f, k, x)
        {
          LastFinishStep(ops, ms, f, k, x);
        }
      }
    }
  }

  lemma {:induction false} RunDeadlineTold(
      blank: Name, ops: seq<Op>, ms: seq<Model>, ess: seq<seq<Event>>, k: nat, x: Name)
    requires IsRun(blank, ops, ms, ess) && k < |ms|
    ensures DeadlineTold(ops, ms, k, x)
  {
    if k > 0 {
      RunDeadlineTold(blank, ops, ms, ess, k - 1, x);
      DeadlineToldStep(blank, ops, ms, ess, k - 1, x);
    }
  }

  lemma {:induction false} OneLastFinish(ops: seq<Op>, ms: seq<Model>, f: nat, g: nat, k: nat, x: Name)
    requires LastFinish(ops, ms, f, k, x) && LastFinish(ops, ms, g, k, x)
    ensures f == g
  {
  }

  lemma {:induction false} ExpiredIffDue(
      blank: Name, ops: seq<Op>, ms: seq<Model>, ess: seq<seq<Event>>, k: nat, x: Name, now: int)
    requires IsRun(blank, ops, ms, ess) && k < |ms|
    ensures x in Expired(ms[k], now) <==> Due(ops, ms, k, x, now)
  {
    RunDeadlineTold(blank, ops, ms, ess, k, x);
    if f: nat :| LastFinish(ops, ms, f, k, x) {
      var g: nat :| LastFinish(ops, ms, g, k, x) && ops[g].deadline == ms[k].deadlines[x];
      forall h | LastFinish(ops, ms, h, k, x)
        ensures h == g
      {
        OneLastFinish(ops, ms, g, h, k, x);
      }
    }
  }

  /** Over every run: a session that is present when a pass begins is gone after it if and only if it was finished
      since it last became present, and the deadline of the last such finish has passed. */
  lemma {:induction false} GoneIffDue(
      blank: Name, ops: seq<Op>, ms: seq<Model>, ess: seq<seq<Event>>, k: nat, x: Name)
    requires IsRun(blank, ops, ms, ess) && k < |ops| && ops[k].Pass? && Somewhere(ms[k], x)
    ensures !Somewhere(ms[k + 1], x) <==>
      exists f: nat :: LastFinish(ops, ms, f, k, x) && 0 < ops[f].deadline < ops[k].now
  {
    ExpiredIffDue(blank, ops, ms, ess, k, x, ops[k].now);
    var s :| (x, s) in ms[k].links;
    if x !in Expired(ms[k], ops[k].now) {
      assert (x, s) in ms[k + 1].links;
    }
  }

  /** In particular, a session that was not finished since it last became present is never dropped by a pass. */
  lemma {:induction false} UnfinishedStays(
      blank: Name, ops: seq<Op>, ms: seq<Model>, ess: seq<seq<Event>>, k: nat, x: Name)
    requires IsRun(blank, ops, ms, ess) && k < |ops| && ops[k].Pass? && Somewhere(ms[k], x)
    requires forall f :: 0 <= f < k && Finishes(ops[f], x) ==> exists m: nat :: f <= m <= k && !Somewhere(ms[m], x)
    ensures Somewhere(ms[k + 1], x)
  {
    GoneIffDue(blank, ops, ms, ess, k, x);
  }

  /** And someone leaves in a pass if and only if all their sessions in that stream are due. */
  lemma {:induction false} LeavesIffAllDue(
      blank: Name, ops: seq<Op>, ms: seq<Model>, ess: seq<seq<Event>>, k: nat, s: Name, p: Name)
    requires IsRun(blank, ops, ms, ess) && k < |ops| && ops[k].Pass? && (s, p) in ms[k].infos
    ensures Leave(s, p) in ess[k] <==> forall x :: Linked(ms[k].links, x, s, p) ==> Due(ops, ms, k, x, ops[k].now)
  {
    var now, e := ops[k].now, Leave(s, p);
    assert Steps(blank, ms[k], ops[k], ess[k], ms[k + 1]);
    assert e in ess[k] <==> (e.stream, e.id) !in ExpireSpec(ms[k], now).infos;
    LeaveIffAllExpired(ms[k], now, s, p);
    forall x
      ensures x in Expired(ms[k], ops[k].now) <==> Due(ops, ms, k, x, ops[k].now)
    {
      ExpiredIffDue(blank, ops, ms, ess, k, x, ops[k].now);
    }
  }

  // Who is present, and as whom.

  /** The session joins the stream under the id, or joins again, and is not refused: it has no other id there. */
  ghost predicate Joins(ops: seq<Op>, ms: seq<Model>, k: nat, x: Name, s: Name, p: Name) {
    && k < |ops| && k < |ms| && ops[k].Add? && ops[k].stream == s && ops[k].sid == x && ops[k].pid == p
    && forall q :: Linked(ms[k].links, x, s, q) ==> q == p
  }

  /** The session is removed from the stream, or a pass drops it. */
  ghost predicate Ends(ops: seq<Op>, ms: seq<Model>, k: nat, x: Name, s: Name) {
    && k < |ops|
    && (ops[k] == Remove(s, x) || (ops[k].Pass? && Due(ops, ms, k, x, ops[k].now)))
  }

  lemma {:induction false} StepLinks(
      blank: Name, m: Model, op: Op, es: seq<Event>, m': Model, x: Name, s: Name, p: Name)
    requires Steps(blank, m, op, es, m')
    ensures Linked(m'.links, x, s, p) <==>
      || (&& op.Add? && op.stream == s && op.sid == x && op.pid == p
          && forall q :: Linked(m.links, x, s, q) ==> q == p)
      || (&& Linked(m.links, x, s, p) && op != Remove(s, x) && !(op.Pass? && x in Expired(m, op.now)))
  {
    if op.Add? && (x, s) in m.links {
      assert Linked(m.links, x, s, m.links[(x, s)]);
    }
  }

  lemma {:induction false} LinkedStep(
      blank: Name, ops: seq<Op>, ms: seq<Model>, ess: seq<seq<Event>>, k: nat, x: Name, s: Name, p: Name)
    requires IsRun(blank, ops, ms, ess) && k < |ops|
    ensures Linked(ms[k + 1].links, x, s, p) <==>
      Joins(ops, ms, k, x, s, p) || (Linked(ms[k].links, x, s, p) && !Ends(ops, ms, k, x, s))
  {
    StepLinks(blank, ms[k], ops[k], ess[k], ms[k + 1], x, s, p);
    if ops[k].Pass? {
      ExpiredIffDue(blank, ops, ms, ess, k, x, ops[k].now);
    }
  }

  ghost predicate StillThere(ops: seq<Op>, ms: seq<Model>, k: nat, n: nat, x: Name, s: Name, p: Name) {
    k < n && Joins(ops, ms, k, x, s, p) && forall j :: k < j < n ==> !Ends(ops, ms, j, x, s)
  }

  lemma {:induction false} StillThereStep(
      ops: seq<Op>, ms: seq<Model>, n: nat, next: nat, x: Name, s: Name, p: Name)
    requires n < |ops| && n < |ms| && next == n + 1
    ensures (exists k: nat :: StillThere(ops, ms, k, next, x, s, p)) <==>
      Joins(ops, ms, n, x, s, p) || (!Ends(ops, ms, n, x, s) && exists k: nat :: StillThere(ops, ms, k, n, x, s, p))
  {
    if k: nat :| StillThere(ops, ms, k, next, x, s, p) {
      assert k < n ==> StillThere(ops, ms, k, n, x, s, p) && !Ends(ops, ms, n, x, s);
    }
    if Joins(ops, ms, n, x, s, p) {
      assert StillThere(ops, ms, n, next, x, s, p);
    } else if k: nat :| StillThere(ops, ms, k, n, x, s, p) {
      assert !Ends(ops, ms, n, x, s) ==> StillThere(ops, ms, k, next, x, s, p);
    }
  }

  /** After every run: a session is present in a stream under an id if and only if it joined under it, without being
      refused, and was neither removed from the stream nor dropped by a pass since. */
  lemma {:induction false} PresentIff(
      blank: Name, ops: seq<Op>, ms: seq<Model>, ess: seq<seq<Event>>, n: nat, x: Name, s: Name, p: Name)
    requires IsRun(blank, ops, ms, ess) && n < |ms|
    ensures Linked(ms[n].links, x, s, p) <==> exists k: nat :: StillThere(ops, ms, k, n, x, s, p)
  {
    if n > 0 {
      PresentIff(blank, ops, ms, ess, n - 1, x, s, p);
      LinkedStep(blank, ops, ms, ess, n - 1, x, s, p);
      StillThereStep(ops, ms, n - 1, n, x, s, p);
    }
  }

  // What is known about them.

  ghost predicate SomeoneJoins(ops: seq<Op>, ms: seq<Model>, k: nat, s: Name, p: Name) {
    k < |ops| && ops[k].Add? && Joins(ops, ms, k, ops[k].sid, s, p)
  }

  ghost predicate JoinedLast(ops: seq<Op>, ms: seq<Model>, k: nat, n: nat, s: Name, p: Name) {
    k < n <= |ops| && SomeoneJoins(ops, ms, k, s, p) && forall j :: k < j < n ==> !SomeoneJoins(ops, ms, j, s, p)
  }

  lemma {:induction false} StepInfo(blank: Name, m: Model, op: Op, es: seq<Event>, m': Model, s: Name, p: Name)
    requires Steps(blank, m, op, es, m') && (s, p) in m'.infos
    ensures
      if op.Add? && op.stream == s && op.pid == p && forall q :: Linked(m.links, op.sid, s, q) ==> q == p
      then m'.infos[(s, p)] == op.info else (s, p) in m.infos && m'.infos[(s, p)] == m.infos[(s, p)]
  {
    if op.Add? && (op.sid, op.stream) in m.links {
      assert Linked(m.links, op.sid, op.stream, m.links[(op.sid, op.stream)]);
    }
  }

  /** After every run, what is reported about someone present is what the last join under that id said. */
  lemma {:induction false} LatestInfo(
      blank: Name, ops: seq<Op>, ms: seq<Model>, ess: seq<seq<Event>>, n: nat, s: Name, p: Name) returns (k: nat)
    requires IsRun(blank, ops, ms, ess) && n < |ms| && (s, p) in ms[n].infos
    ensures JoinedLast(ops, ms, k, n, s, p) && ms[n].infos[(s, p)] == ops[k].info
  {
    StepInfo(blank, ms[n - 1], ops[n - 1], ess[n - 1], ms[n], s, p);
    if SomeoneJoins(ops, ms, n - 1, s, p) {
      k := n - 1;
    } else {
      k := LatestInfo(blank, ops, ms, ess, n - 1, s, p);
    }
  }

  /** A join tells of the one who joins, with what they said about themselves; other operations make no joins. */
  lemma {:induction false} JoinTells(
      blank: Name, ops: seq<Op>, ms: seq<Model>, ess: seq<seq<Event>>, k: nat, e: Event)
    requires IsRun(blank, ops, ms, ess) && k < |ops| && e in ess[k] && e.Join?
    ensures SomeoneJoins(ops, ms, k, e.stream, e.id) && e.info == ops[k].info
  {
    var op := ops[k];
    assert Steps(blank, ms[k], op, ess[k], ms[k + 1]);
    if op.Add? && (op.sid, op.stream) in ms[k].links {
      assert Linked(ms[k].links, op.sid, op.stream, ms[k].links[(op.sid, op.stream)]);
    }
  }
}
