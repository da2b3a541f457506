/**
 The cached sessions of the in-memory broker (`broker/memory.go`): sessions by id, and a queue of
 finished ones that the expiry pass cuts from the front.
 */
module SessionCache {
  import opened Basics
  import opened Names

  datatype Finished = Finished(deadline: int, sid: Name)

  datatype State = State(sessions: map<Name, string>, queue: seq<Finished>)

  const EMPTY := State(map[], [])

  datatype Op = Commit(sid: Name, data: string) | Finish(sid: Name, now: int) | Expire(now: int)

  /** How many finished sessions at the front of the queue are past their deadline. */
  function DuePrefix(q: seq<Finished>, now: int): (n: nat)
    ensures n <= |q| && forall i :: 0 <= i < n ==> q[i].deadline < now
    ensures n < |q| ==> q[n].deadline >= now
  {
    if q == [] || q[0].deadline >= now then 0 else 1 + DuePrefix(q[1..], now)
  }

  function Sids(q: seq<Finished>): set<Name> {
    set i | 0 <= i < |q| :: q[i].sid
  }

  function Step(ttl: int, s: State, op: Op): State {
    match op
    case Commit(sid, data) => s.(sessions := s.sessions[sid := data])
    case Finish(sid, now) =>
      if sid in s.sessions then s.(queue := s.queue + [Finished(now + ttl, sid)]) else s
    case Expire(now) =>
      var n := DuePrefix(s.queue, now);
      State(s.sessions - Sids(s.queue[..n]), s.queue[n..])
  }

  function Cached(s: State, sid: Name): Option<string> {
    if sid in s.sessions then Some(s.sessions[sid]) else None
  }

  class Cache {
    var sessions: map<Name, string>
    var expireSessions: seq<Finished>
    const ttl: int

    ghost function View(): State
      reads this
    {
      State(sessions, expireSessions)
    }

    constructor (ttl: int)
      ensures View() == EMPTY && this.ttl == ttl
    {
      this.ttl := ttl;
      sessions, expireSessions := map[], [];
    }

    method CommitSession(sid: Name, data: string)
      modifies this
      ensures View() == Step(ttl, old(View()), Commit(sid, data))
    {
      sessions := sessions[sid := data];
    }

    method RestoreSession(sid: Name) returns (data: Option<string>)
      ensures data == Cached(View(), sid)
    {
      if sid !in sessions {
        return None;
      }
      return Some(sessions[sid]);
    }

    method FinishSession(sid: Name, now: int)
      modifies this
      ensures View() == Step(ttl, old(View()), Finish(sid, now))
    {
      if sid in sessions {
        expireSessions := expireSessions + [Finished(now + ttl, sid)];
      }
    }

    method Expire(now: int)
      modifies this
      ensures View() == Step(ttl, old(View()), Op.Expire(now))
    {
      var i := 0;
      while i < |expireSessions| && expireSessions[i].deadline < now
        invariant i <= DuePrefix(expireSessions, now) && expireSessions == old(expireSessions)
        invariant sessions == old(sessions) - Sids(expireSessions[..i])
      {
        OneMoreGone(old(sessions), expireSessions, i);
        sessions := sessions - {expireSessions[i].sid};
        i := i + 1;
      }
      expireSessions := expireSessions[i..];
    }
  }

  lemma OneMoreGone(m: map<Name, string>, q: seq<Finished>, i: nat)
    requires i < |q|
    ensures m - Sids(q[..i]) - {q[i].sid} == m - Sids(q[..i + 1])
  {
    assert Sids(q[..i + 1]) == Sids(q[..i]) + {q[i].sid};
  }

  // The simple form: look at the whole queue.

  function Pending(q: seq<Finished>, now: int): seq<Finished> {
    if q == [] then [] else (if q[0].deadline >= now then [q[0]] else []) + Pending(q[1..], now)
  }

  function Due(q: seq<Finished>, now: int): set<Name> {
    set i | 0 <= i < |q| && q[i].deadline < now :: q[i].sid
  }

  function ExactStep(ttl: int, s: State, op: Op): State {
    if op.Expire? then State(s.sessions - Due(s.queue, op.now), Pending(s.queue, op.now)) else Step(ttl, s, op)
  }

  function Run(ttl: int, ops: seq<Op>): State {
    if ops == [] then EMPTY else Step(ttl, Run(ttl, ops[..|ops| - 1]), ops[|ops| - 1])
  }

  function ExactRun(ttl: int, ops: seq<Op>): State {
    if ops == [] then EMPTY else ExactStep(ttl, ExactRun(ttl, ops[..|ops| - 1]), ops[|ops| - 1])
  }

  /** The clock readings that sessions finish at never go back. A pass may use an older reading than a finish
      before it: it reads the clock for the streams, and gets to the sessions later. */
  predicate Monotone(ops: seq<Op>) {
    forall i, j :: 0 <= i < j < |ops| && ops[i].Finish? && ops[j].Finish? ==> ops[i].now <= ops[j].now
  }

  predicate Sorted(q: seq<Finished>) {
    forall i, j :: 0 <= i < j < |q| ==> q[i].deadline <= q[j].deadline
  }

  lemma {:induction false} PendingSorted(q: seq<Finished>, now: int)
    requires Sorted(q)
    ensures Pending(q, now) == q[DuePrefix(q, now)..]
  {
    if q != [] {
      PendingSorted(q[1..], now);
      if q[0].deadline >= now {
        assert DuePrefix(q[1..], now) == 0;
      }
    }
  }

  lemma StepExact(ttl: int, s: State, op: Op)
    requires Sorted(s.queue)
    ensures Step(ttl, s, op) == ExactStep(ttl, s, op)
  {
    if op.Expire? {
      PendingSorted(s.queue, op.now);
      var n := DuePrefix(s.queue, op.now);
      assert Sids(s.queue[..n]) == Due(s.queue, op.now);
    }
  }

  /** Everything queued was put there by a `Finish` of the run, for a session cached at that moment. */
  ghost predicate Caused(ttl: int, ops: seq<Op>, f: Finished) {
    exists j :: 0 <= j < |ops| && ops[j].Finish? && ops[j].sid == f.sid && ops[j].now + ttl == f.deadline
      && f.sid in Run(ttl, ops[..j]).sessions
  }

  lemma CausedLater(ttl: int, ops: seq<Op>, op: Op, f: Finished)
    requires Caused(ttl, ops, f)
    ensures Caused(ttl, ops + [op], f)
  {
    var j :| 0 <= j < |ops| && ops[j].Finish? && ops[j].sid == f.sid && ops[j].now + ttl == f.deadline
      && f.sid in Run(ttl, ops[..j]).sessions;
    assert (ops + [op])[..j] == ops[..j] && (ops + [op])[j] == ops[j];
  }

  lemma {:induction false} QueueOfRun(ttl: int, ops: seq<Op>)
    requires Monotone(ops)
    ensures Sorted(Run(ttl, ops).queue)
    ensures forall i :: 0 <= i < |Run(ttl, ops).queue| ==> Caused(ttl, ops, Run(ttl, ops).queue[i])
  {
    if ops != [] {
      var init, op := ops[..|ops| - 1], ops[|ops| - 1];
      assert ops == init + [op];
      QueueOfRun(ttl, init);
      var q, q' := Run(ttl, init).queue, Run(ttl, ops).queue;
      forall i | 0 <= i < |q|
        ensures Caused(ttl, ops, q[i])
        ensures op.Finish? ==> q[i].deadline <= op.now + ttl
      {
        CausedLater(ttl, init, op, q[i]);
      }
    }
  }

  /** When sessions finish at clock readings that never go back, cutting the front of the queue is the same, over
      every run, as looking at all of it. A pass may use an older reading. */
  lemma {:induction false} PrefixCutExact(ttl: int, ops: seq<Op>)
    requires Monotone(ops)
    ensures Run(ttl, ops) == ExactRun(ttl, ops)
  {
    if ops != [] {
      var init := ops[..|ops| - 1];
      PrefixCutExact(ttl, init);
      QueueOfRun(ttl, init);
      StepExact(ttl, Run(ttl, init), ops[|ops| - 1]);
    }
  }

  /** What was last committed for the session, if anything. */
  function LastCommit(ops: seq<Op>, sid: Name): Option<string> {
    if ops == [] then None
    else
      var op := ops[|ops| - 1];
      if op.Commit? && op.sid == sid then Some(op.data) else LastCommit(ops[..|ops| - 1], sid)
  }

  /** After every run, a session that is restored is the one last committed; one that is not has never been
      committed, or was dropped. */
  lemma {:induction false} RestoresLatest(ttl: int, ops: seq<Op>, sid: Name)
    ensures Cached(Run(ttl, ops), sid).Some? ==> Cached(Run(ttl, ops), sid) == LastCommit(ops, sid)
    ensures (forall i :: 0 <= i < |ops| ==> !ops[i].Expire?) ==> Cached(Run(ttl, ops), sid) == LastCommit(ops, sid)
  {
    if ops != [] {
      RestoresLatest(ttl, ops[..|ops| - 1], sid);
    }
  }

  /** A session leaves the cache exactly in an expiry pass that finds a finish of it, made while it was
      cached, more than the TTL ago; nothing else removes it. */
  lemma {:induction false} DroppedIffDue(ttl: int, ops: seq<Op>, op: Op, sid: Name)
    requires Monotone(ops) && sid in Run(ttl, ops).sessions
    ensures sid !in Step(ttl, Run(ttl, ops), op).sessions <==>
            op.Expire? && exists f :: f in Run(ttl, ops).queue && f.sid == sid && f.deadline < op.now
    ensures sid !in Step(ttl, Run(ttl, ops), op).sessions ==>
            exists j :: 0 <= j < |ops| && ops[j].Finish? && ops[j].sid == sid && ops[j].now + ttl < op.now
  {
    var s := Run(ttl, ops);
    QueueOfRun(ttl, ops);
    StepExact(ttl, s, op);
    if sid !in Step(ttl, s, op).sessions {
      var i :| 0 <= i < |s.queue| && s.queue[i].deadline < op.now && s.queue[i].sid == sid;
      assert Caused(ttl, ops, s.queue[i]);
    }
  }

  /** The session was finished at step `j` while it was cached, and no pass since has found that finish due. */
  ghost predicate Waiting(ttl: int, ops: seq<Op>, j: nat, f: Finished) {
    && j < |ops| && ops[j].Finish? && ops[j].sid == f.sid && ops[j].now + ttl == f.deadline
    && f.sid in Run(ttl, ops[..j]).sessions
    && forall m :: j < m < |ops| && ops[m].Expire? ==> ops[m].now <= f.deadline
  }

  lemma {:induction false} PendingHas(q: seq<Finished>, now: int, f: Finished)
    ensures f in Pending(q, now) <==> f in q && f.deadline >= now
  {
    if q != [] {
      PendingHas(q[1..], now, f);
      assert f in q <==> f == q[0] || f in q[1..];
    }
  }

  lemma {:induction false} WaitingStep(ttl: int, ops: seq<Op>, op: Op, all: seq<Op>, j: nat, f: Finished)
    requires all == ops + [op]
    ensures j < |ops| ==>
      (Waiting(ttl, all, j, f) <==> Waiting(ttl, ops, j, f) && !(op.Expire? && f.deadline < op.now))
    ensures Waiting(ttl, all, |ops|, f) <==>
      op.Finish? && op.sid == f.sid && op.now + ttl == f.deadline && f.sid in Run(ttl, ops).sessions
  {
    assert all[|ops|] == op && all[..|ops|] == ops;
    if j < |ops| {
      assert all[..j] == ops[..j] && all[j] == ops[j];
      assert forall m :: 0 <= m < |ops| ==> all[m] == ops[m];
    }
  }

  /** What is queued is every finish of a cached session that no pass has found due. */
  lemma {:induction false} QueuedIff(ttl: int, ops: seq<Op>, f: Finished)
    requires Monotone(ops)
    ensures f in Run(ttl, ops).queue <==> exists j: nat :: Waiting(ttl, ops, j, f)
  {
    if ops != [] {
      var n := |ops| - 1;
      var init, op := ops[..n], ops[n];
      assert ops == init + [op];
      QueuedIff(ttl, init, f);
      QueueOfRun(ttl, init);
      StepExact(ttl, Run(ttl, init), op);
      if op.Expire? {
        PendingHas(Run(ttl, init).queue, op.now, f);
      }
      if j: nat :| Waiting(ttl, ops, j, f) {
        WaitingStep(ttl, init, op, ops, j, f);
      }
      if j: nat :| Waiting(ttl, init, j, f) {
        WaitingStep(ttl, init, op, ops, j, f);
      }
      WaitingStep(ttl, init, op, ops, n, f);
    }
  }

  /** From the operations alone: a cached session is dropped by a pass if and only if it was finished while it was
      cached, the deadline of that finish has passed, and no pass in between had found it so. */
  lemma {:induction false} DroppedIffFinished(ttl: int, ops: seq<Op>, now: int, sid: Name)
    requires Monotone(ops) && sid in Run(ttl, ops).sessions
    ensures sid !in Step(ttl, Run(ttl, ops), Expire(now)).sessions <==>
      exists j: nat, d: int :: Waiting(ttl, ops, j, Finished(d, sid)) && d < now
  {
    DroppedIffDue(ttl, ops, Expire(now), sid);
    if f :| f in Run(ttl, ops).queue && f.sid == sid && f.deadline < now {
      QueuedIff(ttl, ops, f);
      var j: nat :| Waiting(ttl, ops, j, f);
      assert f == Finished(f.deadline, sid);
    }
    if j: nat, d: int :| Waiting(ttl, ops, j, Finished(d, sid)) && d < now {
      QueuedIff(ttl, ops, Finished(d, sid));
    }
  }

  /** No due session is queued behind one that is not. */
  predicate DueFirst(q: seq<Finished>, now: int) {
    forall i, j :: 0 <= i < j < |q| && q[j].deadline < now ==> q[i].deadline < now
  }

  lemma DueFirstTail(q: seq<Finished>, now: int)
    requires q != []
    ensures q[0].deadline < now ==> (DueFirst(q, now) <==> DueFirst(q[1..], now))
    ensures q[0].deadline >= now ==> (DueFirst(q, now) <==> forall j :: 0 <= j < |q| ==> q[j].deadline >= now)
  {
    var tail := q[1..];
    if q[0].deadline < now && DueFirst(tail, now) {
      forall i, j | 0 <= i < j < |q| && q[j].deadline < now
        ensures q[i].deadline < now
      {
        if i > 0 {
          assert tail[j - 1] == q[j] && tail[i - 1] == q[i];
        }
      }
    }
  }

  /** The clock condition is needed: the cut leaves nothing due behind if and only if no due session
      is queued behind one that is not. */
  lemma {:induction false} CutExactIff(q: seq<Finished>, now: int)
    ensures q[DuePrefix(q, now)..] == Pending(q, now) <==> DueFirst(q, now)
  {
    if q != [] {
      DueFirstTail(q, now);
      if q[0].deadline < now {
        CutExactIff(q[1..], now);
        assert q[DuePrefix(q, now)..] == q[1..][DuePrefix(q[1..], now)..];
      } else {
        PendingAll(q, now);
      }
    }
  }

  lemma {:induction false} PendingAll(q: seq<Finished>, now: int)
    ensures |Pending(q, now)| <= |q|
    ensures |Pending(q, now)| == |q| <==> forall i :: 0 <= i < |q| ==> q[i].deadline >= now
    ensures |Pending(q, now)| == |q| ==> Pending(q, now) == q
  {
    if q != [] {
      PendingAll(q[1..], now);
      assert forall i :: 0 < i < |q| ==> q[i] == q[1..][i - 1];
    }
  }
}
