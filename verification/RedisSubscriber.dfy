/**
 The Redis subscriber (`pubsub/redis.go`): callers record subscriptions and queue commands, one
 goroutine sends the commands over a connection that may drop, and resubscribes when it is back.
 */
module RedisSubscriber {
  import opened Basics
  import opened Names

  const BATCH_SIZE := 256

  const QUEUE_SIZE := 2

  /** A queued command: subscribe to the stream or unsubscribe from it. */
  datatype Command = Command(subscribe: bool, id: Name)

  function Recorded(subs: set<Name>, c: Command): set<Name> {
    if c.subscribe then subs + {c.id} else subs - {c.id}
  }

  // Batches.

  function Batches(keys: seq<Name>): seq<seq<Name>> {
    if keys == [] then []
    else if |keys| <= BATCH_SIZE then [keys]
    else [keys[..BATCH_SIZE]] + Batches(keys[BATCH_SIZE..])
  }

  function Flatten(bs: seq<seq<Name>>): seq<Name> {
    if bs == [] then [] else bs[0] + Flatten(bs[1..])
  }

  /** The batches, put together, are the keys; each holds from 1 to 256 of them, and all but the last
      are full. */
  lemma {:induction false} BatchesCover(keys: seq<Name>)
    ensures Flatten(Batches(keys)) == keys
    ensures forall i :: 0 <= i < |Batches(keys)| ==> 1 <= |Batches(keys)[i]| <= BATCH_SIZE
    ensures forall i :: 0 <= i < |Batches(keys)| - 1 ==> |Batches(keys)[i]| == BATCH_SIZE
  {
    if |keys| > BATCH_SIZE {
      BatchesCover(keys[BATCH_SIZE..]);
      assert Batches(keys)[1..] == Batches(keys[BATCH_SIZE..]);
    } else if keys != [] {
      assert [keys][1..] == [] && keys + [] == keys;
    }
  }

  /** A full batch is split off. */
  lemma {:induction false} BatchesSplit(keys: seq<Name>, sent: seq<seq<Name>>, start: nat)
    requires start + BATCH_SIZE < |keys| && Batches(keys) == sent + Batches(keys[start..])
    ensures Batches(keys) == sent + [keys[start..start + BATCH_SIZE]] + Batches(keys[start + BATCH_SIZE..])
  {
    assert keys[start..][..BATCH_SIZE] == keys[start..start + BATCH_SIZE];
    assert keys[start..][BATCH_SIZE..] == keys[start + BATCH_SIZE..];
  }

  /** The position is a multiple of the batch size exactly when the buffer is full. */
  lemma FullAt(start: nat, n: nat)
    requires start % BATCH_SIZE == 0 && n <= BATCH_SIZE
    ensures n > 0 && (start + n) % BATCH_SIZE == 0 <==> n == BATCH_SIZE
  {
  }

  class Subscriber {
    var subscriptions: set<Name>

    constructor (internal: Name)
      ensures subscriptions == {internal}
    {
      subscriptions := {internal};
    }

    /** The critical section of `Subscribe`, and the command to queue. */
    method Subscribe(stream: Name) returns (c: Command)
      modifies this
      ensures c == Command(true, stream) && subscriptions == Recorded(old(subscriptions), c)
    {
      subscriptions := subscriptions + {stream};
      c := Command(true, stream);
    }

    /** The critical section of `Unsubscribe`, and the command to queue if the stream was known. */
    method Unsubscribe(stream: Name) returns (c: Option<Command>)
      modifies this
      ensures c == if stream in old(subscriptions) then Some(Command(false, stream)) else None
      ensures subscriptions == Recorded(old(subscriptions), Command(false, stream))
    {
      if stream !in subscriptions {
        return None;
      }
      subscriptions := subscriptions - {stream};
      c := Some(Command(false, stream));
    }

    /** Sends the keys in batches, filling one buffer over and over, until a batch fails. */
    static method Resubscribe(keys: seq<Name>, accepts: nat -> bool) returns (sent: seq<seq<Name>>, ok: bool)
      ensures sent <= Batches(keys) && forall j :: 0 <= j < |sent| - 1 ==> accepts(j)
      ensures ok ==> sent == Batches(keys) && (sent != [] ==> accepts(|sent| - 1))
      ensures !ok ==> sent != [] && !accepts(|sent| - 1)
    {
      var batch := new Name[BATCH_SIZE];
      var n := 0;
      ghost var start := 0;
      sent := [];
      assert keys[0..] == keys;
      for i := 0 to |keys|
        invariant i == start + n && n <= BATCH_SIZE && (i > 0 ==> n > 0) && start % BATCH_SIZE == 0
        invariant forall m :: 0 <= m < n ==> batch[m] == keys[start + m]
        invariant Batches(keys) == sent + Batches(keys[start..]) && forall j :: 0 <= j < |sent| ==> accepts(j)
      {
        FullAt(start, n);
        if i > 0 && i % BATCH_SIZE == 0 {
          assert batch[..n] == keys[start..i];
          BatchesSplit(keys, sent, start);
          sent, start := sent + [batch[..n]], i;
          if !accepts(|sent| - 1) {
            return sent, false;
          }
          n := 0;
        }
        batch[n] := keys[i];
        n := n + 1;
      }
      if n > 0 {
        assert batch[..n] == keys[start..];
        sent := sent + [batch[..n]];
        if !accepts(|sent| - 1) {
          return sent, false;
        }
      }
      ok := true;
    }
  }

  // The protocol.

  /** `Live` is connected, with the batches still to be sent; it is `clean` if nothing sent over it has failed. */
  datatype Link = Down | Live(remaining: seq<seq<Name>>, clean: bool)

  /** `pending` holds, for every caller blocked on the queue, the command it is about to put there; `told` records
      what the last command about each stream carried out over this link asked for. */
  datatype State = State(
    subs: set<Name>,
    pending: map<Name, Command>,
    queue: seq<Command>,
    link: Link,
    server: set<Name>,
    told: map<Name, bool>)

  datatype Action =
    | Call(caller: Name, command: Command)
    | Offer(caller: Name)
    | Connect(keys: seq<Name>)
    | SendBatch(ok: bool)
    | Consume(ok: bool)
    | Drop

  ghost predicate ListsOnce(keys: seq<Name>, all: set<Name>) {
    && (forall x :: x in keys <==> x in all)
    && forall i, j :: 0 <= i < j < |keys| ==> keys[i] != keys[j]
  }

  ghost predicate Enabled(s: State, a: Action) {
    match a
    case Call(who, _) => who !in s.pending
    case Offer(who) => who in s.pending && |s.queue| < QUEUE_SIZE
    case Connect(keys) => s.link.Down? && ListsOnce(keys, s.subs)
    case SendBatch(_) => s.link.Live? && s.link.remaining != []
    case Consume(_) => s.queue != [] && s.link.Live? && s.link.remaining == []
    case Drop => s.link.Live?
  }

  function Do(s: State, a: Action): State {
    match a
    case Call(who, c) =>
      if !c.subscribe && c.id !in s.subs then s
      else s.(subs := Recorded(s.subs, c), pending := s.pending[who := c])
    case Offer(who) =>
      if who in s.pending then s.(queue := s.queue + [s.pending[who]], pending := s.pending - {who}) else s
    case Connect(keys) => s.(link := Live(Batches(keys), true), server := {}, told := map[])
    case SendBatch(ok) =>
      if !s.link.Live? || s.link.remaining == [] then s
      else if !ok then s.(link := Live([], false))
      else
        var b := s.link.remaining[0];
        s.(link := s.link.(remaining := s.link.remaining[1..]), server := s.server + set x | x in b)
    case Consume(ok) =>
      if s.queue == [] then s
      else
        var c, rest := s.queue[0], s.queue[1..];
        if ok then s.(queue := rest, server := Recorded(s.server, c), told := s.told[c.id := c.subscribe])
        else s.(queue := rest, link := Live([], false))
    case Drop => s.(link := Down, server := {})
  }

  function Initial(internal: Name): State {
    State({internal}, map[], [], Down, {}, map[])
  }

  function Run(internal: Name, acts: seq<Action>): State {
    if acts == [] then Initial(internal) else Do(Run(internal, acts[..|acts| - 1]), acts[|acts| - 1])
  }

  ghost predicate Possible(internal: Name, acts: seq<Action>) {
    acts != [] ==>
      Possible(internal, acts[..|acts| - 1]) && Enabled(Run(internal, acts[..|acts| - 1]), acts[|acts| - 1])
  }

  // What is promised for one stream.

  ghost predicate IsPending(s: State, x: Name) {
    exists who :: who in s.pending && s.pending[who].id == x
  }

  /** No call about `x` begins while another one about `x` is blocked. */
  ghost predicate OneAtATime(internal: Name, acts: seq<Action>, x: Name) {
    acts != [] ==>
      && OneAtATime(internal, acts[..|acts| - 1], x)
      && var last := acts[|acts| - 1];
         (last.Call? && last.command.id == x ==> !IsPending(Run(internal, acts[..|acts| - 1]), x))
  }

  /** What the last queued command about `x` asks for. */
  function LastWish(queue: seq<Command>, x: Name): Option<bool> {
    if queue == [] then None
    else
      var last := queue[|queue| - 1];
      if last.id == x then Some(last.subscribe) else LastWish(queue[..|queue| - 1], x)
  }

  lemma {:induction false} LastWishTail(queue: seq<Command>, x: Name)
    requires queue != []
    ensures LastWish(queue, x) ==
      if LastWish(queue[1..], x).Some? then LastWish(queue[1..], x)
      else if queue[0].id == x then Some(queue[0].subscribe) else None
  {
    if |queue| > 1 {
      var init := queue[..|queue| - 1];
      LastWishTail(init, x);
      assert init[1..] == queue[1..][..|queue| - 2];
    }
  }

  /** The newest of what is on its way for `x` asks for what was recorded; with nothing on its way, what
      the server knows or is being told is what was recorded. */
  ghost predicate Faithful(s: State, x: Name) {
    && (forall who :: who in s.pending && s.pending[who].id == x ==> s.pending[who].subscribe == (x in s.subs))
    && (forall a, b :: a in s.pending && b in s.pending && s.pending[a].id == x && s.pending[b].id == x ==> a == b)
    && (!IsPending(s, x) && LastWish(s.queue, x).Some? ==> LastWish(s.queue, x).value == (x in s.subs))
    && (!IsPending(s, x) && LastWish(s.queue, x).None? && s.link.Live? && s.link.clean ==>
          (x in s.server || x in Flatten(s.link.remaining) <==> x in s.subs))
  }

  lemma DoFaithful(s: State, a: Action, x: Name)
    requires Faithful(s, x) && Enabled(s, a)
    requires a.Call? && a.command.id == x ==> !IsPending(s, x)
    ensures Faithful(Do(s, a), x)
  {
    var s' := Do(s, a);
    match a
    case Call(who, c) => CallFaithful(s, who, c, x);
    case Offer(who) => OfferFaithful(s, who, x);
    case Connect(keys) =>
      BatchesCover(keys);
      assert IsPending(s', x) == IsPending(s, x);
    case SendBatch(ok) =>
      assert IsPending(s', x) == IsPending(s, x);
    case Consume(ok) =>
      LastWishTail(s.queue, x);
      assert IsPending(s', x) == IsPending(s, x);
    case Drop =>
      assert IsPending(s', x) == IsPending(s, x);
  }

  lemma CallFaithful(s: State, who: Name, c: Command, x: Name)
    requires Faithful(s, x) && who !in s.pending && (c.id == x ==> !IsPending(s, x))
    ensures Faithful(Do(s, Call(who, c)), x)
  {
    var s' := Do(s, Call(who, c));
    if s' != s {
      assert s'.pending[who] == c;
      if c.id == x {
        assert IsPending(s', x);
      } else if IsPending(s, x) {
        var w :| w in s.pending && s.pending[w].id == x;
        assert w in s'.pending && s'.pending[w].id == x;
      }
    }
  }

  lemma OfferFaithful(s: State, who: Name, x: Name)
    requires Faithful(s, x) && who in s.pending
    ensures Faithful(Do(s, Offer(who)), x)
  {
    var s', c := Do(s, Offer(who)), s.pending[who];
    assert s'.queue[..|s.queue|] == s.queue;
    if c.id == x {
      assert !IsPending(s', x);
    } else if IsPending(s, x) {
      var w :| w in s.pending && s.pending[w].id == x;
      assert w in s'.pending && s'.pending[w].id == x;
    }
  }

  lemma {:induction false} RunFaithful(internal: Name, acts: seq<Action>, x: Name)
    requires Possible(internal, acts) && OneAtATime(internal, acts, x)
    ensures Faithful(Run(internal, acts), x)
  {
    if acts != [] {
      RunFaithful(internal, acts[..|acts| - 1], x);
      DoFaithful(Run(internal, acts[..|acts| - 1]), acts[|acts| - 1], x);
    }
  }

  /** Over any number of drops and reconnects, a stream whose calls do not overlap is subscribed on the
      server exactly when it is recorded, whenever the link is up, nothing sent over it has failed, and nothing
      about the stream is on its way. */
  lemma {:induction false} StreamConverges(internal: Name, acts: seq<Action>, x: Name)
    requires Possible(internal, acts) && OneAtATime(internal, acts, x)
    ensures var s := Run(internal, acts);
      s.link == Live([], true) && !IsPending(s, x) && LastWish(s.queue, x).None? ==>
        (x in s.server <==> x in s.subs)
  {
    RunFaithful(internal, acts, x);
  }

  /** With one caller at a time, the server's subscriptions are the recorded ones whenever the link is up, nothing
      sent over it has failed, and the queue is drained. */
  lemma {:induction false} Converges(internal: Name, acts: seq<Action>)
    requires Possible(internal, acts) && forall x :: OneAtATime(internal, acts, x)
    ensures var s := Run(internal, acts);
      s.link == Live([], true) && s.pending == map[] && s.queue == [] ==> s.server == s.subs
  {
    var s := Run(internal, acts);
    forall x
      ensures s.link == Live([], true) && s.pending == map[] && s.queue == [] ==> (x in s.server <==> x in s.subs)
    {
      StreamConverges(internal, acts, x);
    }
  }

  // Calls about a stream that overlap.

  ghost predicate OnItsWay(s: State, x: Name) {
    IsPending(s, x) || LastWish(s.queue, x).Some?
  }

  /** Over a clean link, the server knows about a stream what it was last told, or else what was recorded when the
      link came up; and that is what is recorded unless something about the stream is on its way. */
  ghost predicate AsTold(s: State, x: Name) {
    s.link.Live? && s.link.clean ==>
      if x in s.told then s.link.remaining == [] && (x in s.server <==> s.told[x])
      else OnItsWay(s, x) || (x in s.server || x in Flatten(s.link.remaining) <==> x in s.subs)
  }

  lemma {:induction false} CallOnItsWay(s: State, who: Name, c: Command, x: Name)
    requires who !in s.pending && AsTold(s, x)
    ensures AsTold(Do(s, Call(who, c)), x)
  {
    var s' := Do(s, Call(who, c));
    if s' != s {
      assert s'.pending[who] == c;
      if c.id == x {
        assert IsPending(s', x);
      } else if IsPending(s, x) {
        var w :| w in s.pending && s.pending[w].id == x;
        assert w in s'.pending && s'.pending[w].id == x;
      }
    }
  }

  lemma {:induction false} OfferOnItsWay(s: State, who: Name, x: Name)
    requires who in s.pending && AsTold(s, x)
    ensures AsTold(Do(s, Offer(who)), x)
  {
    var s', c := Do(s, Offer(who)), s.pending[who];
    assert s'.queue[..|s.queue|] == s.queue;
    if c.id != x && IsPending(s, x) {
      var w :| w in s.pending && s.pending[w].id == x;
      assert w in s'.pending && s'.pending[w].id == x;
    }
  }

  lemma {:induction false} DoAsTold(s: State, a: Action, x: Name)
    requires AsTold(s, x) && Enabled(s, a)
    ensures AsTold(Do(s, a), x)
  {
    var s' := Do(s, a);
    match a
    case Call(who, c) => CallOnItsWay(s, who, c, x);
    case Offer(who) => OfferOnItsWay(s, who, x);
    case Connect(keys) => BatchesCover(keys);
    case SendBatch(ok) => assert IsPending(s', x) == IsPending(s, x);
    case Consume(ok) =>
      LastWishTail(s.queue, x);
      assert IsPending(s', x) == IsPending(s, x);
    case Drop =>
  }

  lemma {:induction false} RunAsTold(internal: Name, acts: seq<Action>, x: Name)
    requires Possible(internal, acts)
    ensures AsTold(Run(internal, acts), x)
  {
    if acts != [] {
      RunAsTold(internal, acts[..|acts| - 1], x);
      DoAsTold(Run(internal, acts[..|acts| - 1]), acts[|acts| - 1], x);
    }
  }

  /** What the last call about the stream asked for. */
  function LastCall(acts: seq<Action>, x: Name): Option<bool> {
    if acts == [] then None
    else
      var last := acts[|acts| - 1];
      if last.Call? && last.command.id == x then Some(last.command.subscribe) else LastCall(acts[..|acts| - 1], x)
  }

  /** What is recorded is what the last call about the stream asked for; without one, only the internal channel is. */
  lemma {:induction false} RecordedIffCalled(internal: Name, acts: seq<Action>, x: Name)
    ensures x in Run(internal, acts).subs <==>
      match LastCall(acts, x) case Some(subscribe) => subscribe case None => x == internal
  {
    if acts != [] {
      RecordedIffCalled(internal, acts[..|acts| - 1], x);
    }
  }

  /** For every run, however the calls overlap: when the link is up, nothing sent over it has failed and nothing about
      a stream is on its way, the stream is subscribed on the server exactly when it is recorded, if and only if no
      command about it was carried out over this link, or the last one asked for what is recorded. */
  lemma {:induction false} ConvergesIff(internal: Name, acts: seq<Action>, x: Name)
    requires Possible(internal, acts)
    requires var s := Run(internal, acts); s.link == Live([], true) && !OnItsWay(s, x)
    ensures var s := Run(internal, acts);
      (x in s.server <==> x in s.subs) <==> (x in s.told ==> s.told[x] == (x in s.subs))
  {
    RunAsTold(internal, acts, x);
  }

  lemma {:induction false} OneMore(internal: Name, acts: seq<Action>, a: Action, s: State)
    requires Possible(internal, acts) && Run(internal, acts) == s && Enabled(s, a)
    ensures Possible(internal, acts + [a]) && Run(internal, acts + [a]) == Do(s, a)
  {
    assert (acts + [a])[..|acts|] == acts;
  }

  /** Two callers may queue their commands in the other order than they recorded them; then the server
      keeps a stream that was given up, and nothing on its way will correct it. */
  lemma OverlapDiverges(internal: Name, a: Name, b: Name, x: Name) returns (acts: seq<Action>)
    requires a != b && x != internal
    ensures Possible(internal, acts)
    ensures Run(internal, acts) == State({internal}, map[], [], Live([], true), {internal, x}, map[x := true])
  {
    acts := FirstConnect(internal);
    var s := State({internal}, map[], [], Live([], true), {internal}, map[]);
    var on, off := Command(true, x), Command(false, x);
    OneMore(internal, acts, Call(a, on), s);
    acts, s := acts + [Call(a, on)], s.(subs := {internal, x}, pending := map[a := on]);
    OneMore(internal, acts, Call(b, off), s);
    acts, s := acts + [Call(b, off)], s.(subs := {internal}, pending := map[a := on, b := off]);
    OneMore(internal, acts, Offer(b), s);
    acts, s := acts + [Offer(b)], s.(pending := map[a := on], queue := [off]);
    OneMore(internal, acts, Offer(a), s);
    acts, s := acts + [Offer(a)], s.(pending := map[], queue := [off, on]);
    OneMore(internal, acts, Consume(true), s);
    acts, s := acts + [Consume(true)], s.(queue := [on], told := map[x := false]);
    OneMore(internal, acts, Consume(true), s);
    acts := acts + [Consume(true)];
  }

  lemma FirstConnect(internal: Name) returns (acts: seq<Action>)
    ensures Possible(internal, acts)
    ensures Run(internal, acts) == State({internal}, map[], [], Live([], true), {internal}, map[])
  {
    OneMore(internal, [], Connect([internal]), Initial(internal));
    acts := [] + [Connect([internal])];
    var s := State({internal}, map[], [], Live([[internal]], true), {}, map[]);
    OneMore(internal, acts, SendBatch(true), s);
    acts := acts + [SendBatch(true)];
    assert [[internal]][1..] == [];
    assert (set x | x in [internal]) == {internal};
  }

  /** After a failure a stream may be missing until the next connection: one batch that fails is enough. */
  lemma FailedBatchMissing(internal: Name) returns (acts: seq<Action>)
    ensures Possible(internal, acts)
    ensures Run(internal, acts) == State({internal}, map[], [], Live([], false), {}, map[])
  {
    OneMore(internal, [], Connect([internal]), Initial(internal));
    acts := [] + [Connect([internal])];
    OneMore(internal, acts, SendBatch(false), State({internal}, map[], [], Live([[internal]], true), {}, map[]));
    acts := acts + [SendBatch(false)];
  }
}
