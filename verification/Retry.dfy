/**
 The RPC retry loop (`rpc/rpc.go`): exponential backoff with two intervals, where a
 switch between "exhausted" and "unavailable" replies restarts the exponent.
 */
module Retry {

  const INVOKE_TIMEOUT := 3000
  const EXHAUSTED_INTERVAL := 10
  const UNAVAILABLE_INTERVAL := 100

  /** What one round of the loop meets: the client state check fails, or the callback replies. */
  datatype Reply = NotReady | Done | Exhausted | Unavailable | OtherStatus | NoStatus

  datatype Outcome = Succeeded | GaveUp | Refused

  predicate Retryable(r: Reply) {
    r.Exhausted? || r.Unavailable?
  }

  function Pow2(n: nat): (p: nat)
    ensures p >= 1
  {
    if n == 0 then 1 else 2 * Pow2(n - 1)
  }

  function Interval(exhausted: bool): nat {
    if exhausted then EXHAUSTED_INTERVAL else UNAVAILABLE_INTERVAL
  }

  /** The loop variables between two rounds. */
  datatype Backoff = Backoff(age: nat, attempt: nat, wasExhausted: bool)

  const START := Backoff(0, 0, false)

  function Delay(b: Backoff, r: Reply): nat {
    Pow2(if r.Exhausted? == b.wasExhausted then b.attempt else 0) * Interval(r.Exhausted?)
  }

  function After(b: Backoff, r: Reply): Backoff {
    Backoff(b.age + Delay(b, r), (if r.Exhausted? == b.wasExhausted then b.attempt else 0) + 1, r.Exhausted?)
  }

  function AfterAll(b: Backoff, rs: seq<Reply>): Backoff {
    if rs == [] then b else After(AfterAll(b, rs[..|rs| - 1]), rs[|rs| - 1])
  }

  /** Every reply asked for a retry and no round but the last one started past the timeout. */
  predicate Schedule(rs: seq<Reply>) {
    forall i :: 0 <= i < |rs| ==> Retryable(rs[i]) && AfterAll(START, rs[..i]).age <= INVOKE_TIMEOUT
  }

  /** How far the number of rounds can run ahead of the time slept. A run of exhausted replies is
      cheapest at length three, and only an unavailable reply (100 ms) lets it start afresh. */
  function Credit(b: Backoff): int {
    if !b.wasExhausted then 0
    else if b.attempt == 1 then 65
    else if b.attempt == 2 then 110
    else 115
  }

  lemma {:induction false} Pow2Steps(n: nat)
    ensures n == 0 ==> Pow2(n) == 1
    ensures n == 1 ==> Pow2(n) == 2
    ensures n == 2 ==> Pow2(n) == 4
    ensures n >= 3 ==> Pow2(n) >= 8
  {
    if n >= 3 {
      Pow2Steps(n - 1);
    }
  }

  ghost predicate Bounded(b: Backoff, rounds: nat) {
    && 85 * rounds <= 2 * b.age + Credit(b)
    && b.age >= Interval(b.wasExhausted) * (Pow2(b.attempt) - 1)
    && (b.wasExhausted ==> b.attempt >= 1)
  }

  lemma StepBounded(b: Backoff, rounds: nat, r: Reply)
    requires Bounded(b, rounds) && Retryable(r)
    ensures Bounded(After(b, r), rounds + 1)
  {
    var k := if r.Exhausted? == b.wasExhausted then b.attempt else 0;
    Pow2Steps(k);
    assert Delay(b, r) == Pow2(k) * Interval(r.Exhausted?);
    assert Pow2(k + 1) == 2 * Pow2(k);
  }

  /** The invariant behind both bounds, for every sequence of replies. */
  lemma {:induction false} RunBounded(rs: seq<Reply>)
    requires forall i :: 0 <= i < |rs| ==> Retryable(rs[i])
    ensures Bounded(AfterAll(START, rs), |rs|)
  {
    if rs != [] {
      RunBounded(rs[..|rs| - 1]);
      StepBounded(AfterAll(START, rs[..|rs| - 1]), |rs| - 1, rs[|rs| - 1]);
    }
  }

  /** A round that starts within the timeout sleeps at most 2560 ms. */
  lemma LastDelay(b: Backoff, rounds: nat, r: Reply)
    requires Bounded(b, rounds) && Retryable(r) && b.age <= INVOKE_TIMEOUT
    ensures Delay(b, r) <= 2560
  {
    var k := if r.Exhausted? == b.wasExhausted then b.attempt else 0;
    var top := if r.Exhausted? then 8 else 4;
    assert Pow2(9) == 512 && Pow2(5) == 32 && Pow2(8) == 256 && Pow2(4) == 16;
    if k > top {
      Pow2Monotone(top + 1, k);
      assert false;
    }
    Pow2Monotone(k, top);
  }

  lemma {:induction false} Pow2Monotone(m: nat, n: nat)
    requires m <= n
    ensures Pow2(m) <= Pow2(n)
  {
    if m < n {
      Pow2Monotone(m, n - 1);
    }
  }

  /** No schedule has more than 72 rounds, nor sleeps longer than 5560 ms. */
  lemma {:induction false} ScheduleBounded(rs: seq<Reply>)
    requires Schedule(rs)
    ensures |rs| <= 72
    ensures AfterAll(START, rs).age <= 5560
  {
    if rs != [] {
      var init := rs[..|rs| - 1];
      assert AfterAll(START, rs[..|rs| - 1]).age <= INVOKE_TIMEOUT;
      RunBounded(init);
      LastDelay(AfterAll(START, init), |init|, rs[|rs| - 1]);
    }
  }

  // Both bounds are reached.

  lemma {:induction false} AgeGrows(rs: seq<Reply>, i: nat)
    requires i <= |rs|
    ensures AfterAll(START, rs[..i]).age <= AfterAll(START, rs).age
    decreases |rs|
  {
    if i < |rs| {
      AgeGrows(rs[..|rs| - 1], i);
      assert rs[..|rs| - 1][..i] == rs[..i];
    } else {
      assert rs[..i] == rs;
    }
  }

  /** `n` equal replies after a reply of the other kind (or at the start) sleep `2^n - 1` intervals. */
  lemma {:induction false} SameReplies(pre: seq<Reply>, r: Reply, n: nat) returns (rs: seq<Reply>)
    requires Retryable(r) && forall i :: 0 <= i < |pre| ==> Retryable(pre[i])
    requires var b := AfterAll(START, pre); r.Exhausted? == b.wasExhausted ==> b.attempt == 0
    ensures forall i :: 0 <= i < |rs| ==> Retryable(rs[i])
    ensures n == 0 ==> rs == pre
    ensures |rs| == |pre| + n
    ensures var age := AfterAll(START, pre).age + (Pow2(n) - 1) * Interval(r.Exhausted?);
      n > 0 ==> AfterAll(START, rs) == Backoff(age, n, r.Exhausted?)
  {
    rs := pre;
    if n > 0 {
      var shorter := SameReplies(pre, r, n - 1);
      rs := shorter + [r];
      assert rs[..|rs| - 1] == shorter;
      SameStep(AfterAll(START, pre), AfterAll(START, shorter), r, n);
    }
  }

  lemma SameStep(b: Backoff, before: Backoff, r: Reply, n: nat)
    requires n > 0 && (r.Exhausted? == b.wasExhausted ==> b.attempt == 0)
    requires before == if n == 1 then b
                       else Backoff(b.age + (Pow2(n - 1) - 1) * Interval(r.Exhausted?), n - 1, r.Exhausted?)
    ensures After(before, r) == Backoff(b.age + (Pow2(n) - 1) * Interval(r.Exhausted?), n, r.Exhausted?)
  {
    if n > 1 {
      var p, i := Pow2(n - 1), Interval(r.Exhausted?);
      assert (p - 1) * i + p * i == (2 * p - 1) * i;
    }
  }

  lemma {:induction false} OneMore(init: seq<Reply>, r: Reply)
    requires forall n :: 0 <= n < |init| ==> Retryable(init[n])
    requires AfterAll(START, init).age <= INVOKE_TIMEOUT && Retryable(r)
    ensures Schedule(init + [r]) && AfterAll(START, init + [r]) == After(AfterAll(START, init), r)
  {
    var rs := init + [r];
    assert rs[..|init|] == init;
    forall i | 0 <= i < |rs|
      ensures Retryable(rs[i]) && AfterAll(START, rs[..i]).age <= INVOKE_TIMEOUT
    {
      AgeGrows(init, i);
      assert rs[..i] == init[..i];
    }
  }

  lemma Powers()
    ensures Pow2(1) == 2 && Pow2(2) == 4 && Pow2(3) == 8 && Pow2(4) == 16 && Pow2(8) == 256
  {
    assert Pow2(4) == 16;
    assert Pow2(6) == 64;
  }

  /** Four exhausted, two unavailable and nine exhausted replies sleep 5560 ms. */
  lemma SleepReached()
    ensures exists rs :: Schedule(rs) && AfterAll(START, rs).age == 5560
  {
    Powers();
    var init := SameReplies([], Exhausted, 4);
    assert AfterAll(START, init) == Backoff(150, 4, true);
    init := SameReplies(init, Unavailable, 2);
    assert AfterAll(START, init) == Backoff(450, 2, false);
    init := SameReplies(init, Exhausted, 8);
    assert AfterAll(START, init) == Backoff(3000, 8, true);
    OneMore(init, Exhausted);
  }

  /** "Three exhausted, one unavailable", over and over, costs 170 ms for four rounds. */
  lemma {:induction false} CheapestRun(n: nat) returns (rs: seq<Reply>)
    ensures |rs| == 4 * n && forall i :: 0 <= i < |rs| ==> Retryable(rs[i])
    ensures AfterAll(START, rs) == Backoff(170 * n, if n == 0 then 0 else 1, false)
  {
    rs := [];
    if n > 0 {
      Powers();
      rs := CheapestRun(n - 1);
      rs := SameReplies(rs, Exhausted, 3);
      rs := SameReplies(rs, Unavailable, 1);
    }
  }

  lemma RoundsReached()
    ensures exists rs :: Schedule(rs) && |rs| == 72
  {
    Powers();
    var init := CheapestRun(17);
    init := SameReplies(init, Exhausted, 3);
    OneMore(init, Unavailable);
    assert Schedule(init + [Unavailable]) && |init + [Unavailable]| == 72;
  }

  /** `Controller.retry`: `world(i)` is what round `i` meets. The loop ends for every `world`. */
  method Run(world: nat -> Reply) returns (outcome: Outcome, calls: nat, slept: nat, ghost rs: seq<Reply>)
    ensures (forall i :: 0 <= i < |rs| ==> rs[i] == world(i)) && Schedule(rs)
    ensures slept == AfterAll(START, rs).age
    ensures calls == (if world(|rs|) == NotReady then |rs| else |rs| + 1)
    ensures outcome == match world(|rs|) case NotReady => Refused case Done => Succeeded case _ => GaveUp
    ensures outcome == GaveUp ==> !Retryable(world(|rs|)) || slept > INVOKE_TIMEOUT
    ensures calls <= 73 && slept <= 5560
  {
    var age: nat, attempt: nat, wasExhausted := 0, 0, false;
    calls, slept, rs := 0, 0, [];
    while true
      invariant (forall i :: 0 <= i < |rs| ==> rs[i] == world(i)) && Schedule(rs) && calls == |rs|
      invariant AfterAll(START, rs) == Backoff(age, attempt, wasExhausted) && slept == age
      decreases 73 - |rs|
    {
      ScheduleBounded(rs);
      var reply := world(calls);
      if reply == NotReady {
        return Refused, calls, slept, rs;
      }
      calls := calls + 1;
      if reply == Done {
        return Succeeded, calls, slept, rs;
      }
      if age > INVOKE_TIMEOUT || !Retryable(reply) {
        return GaveUp, calls, slept, rs;
      }
      var interval := UNAVAILABLE_INTERVAL;
      if reply == Exhausted {
        interval := EXHAUSTED_INTERVAL;
        if !wasExhausted {
          attempt := 0;
          wasExhausted := true;
        }
      } else if wasExhausted {
        wasExhausted := false;
        attempt := 0;
      }
      var delay := Pow2(attempt) * interval;
      age := age + delay;
      slept := slept + delay;
      attempt := attempt + 1;
      OneMore(rs, reply);
      rs := rs + [reply];
      ScheduleBounded(rs);
    }
  }
}
