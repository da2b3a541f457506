/**
 One shard of the hub (`hub/gate.go`): which sessions are subscribed to which streams, and under
 which channel identifiers; and the fan-out of one broadcast.
 */
module Gate {
  import opened Basics
  import opened Common
  import opened Names

  /** Stream -> session -> identifiers. */
  type Streams = map<Name, map<Name, set<Name>>>

  datatype Send = Send(session: Name, identifier: Name, reply: Reply)

  function Ids(g: Streams, s: Name, x: Name): set<Name> {
    if s in g && x in g[s] then g[s][x] else {}
  }

  /** The gate holds no session without identifiers and no stream without sessions. */
  predicate NoEmpty(g: Streams) {
    forall s :: s in g ==> g[s] != map[] && forall x :: x in g[s] ==> g[s][x] != {}
  }

  function Subscribed(g: Streams, s: Name, x: Name, id: Name): Streams {
    var sessions := if s in g then g[s] else map[];
    g[s := sessions[x := Ids(g, s, x) + {id}]]
  }

  /** The write-locked phase of an unsubscribe, from any state it may find. */
  function Unsubscribed(g: Streams, s: Name, x: Name, id: Name): Streams {
    if s !in g then g
    else
      var ids := Ids(g, s, x) - {id};
      var sessions := if ids == {} then g[s] - {x} else g[s][x := ids];
      if sessions == map[] then g - {s} else g[s := sessions]
  }

  lemma SubscribedIds(g: Streams, s: Name, x: Name, id: Name)
    ensures forall t, y :: Ids(Subscribed(g, s, x, id), t, y) == Ids(g, t, y) + if t == s && y == x then {id} else {}
    ensures NoEmpty(g) ==> NoEmpty(Subscribed(g, s, x, id))
  {
    var after := Subscribed(g, s, x, id);
    assert x in after[s] && id in after[s][x];
  }

  lemma UnsubscribedIds(g: Streams, s: Name, x: Name, id: Name)
    ensures forall t, y :: Ids(Unsubscribed(g, s, x, id), t, y) == Ids(g, t, y) - if t == s && y == x then {id} else {}
    ensures NoEmpty(g) ==> NoEmpty(Unsubscribed(g, s, x, id))
  {
    if s in g {
      var ids := Ids(g, s, x) - {id};
      var sessions := if ids == {} then g[s] - {x} else g[s][x := ids];
      forall y
        ensures (if y in sessions then sessions[y] else {}) == Ids(g, s, y) - if y == x then {id} else {}
      {
      }
      if sessions == map[] {
        assert forall y :: y !in sessions;
      }
    }
  }

  lemma SetThenDrop(m: map<Name, set<Name>>, x: Name, v: set<Name>)
    ensures m[x := v] - {x} == m - {x}
  {
  }

  lemma IsEmpty(m: map<Name, set<Name>>)
    ensures |m| == 0 <==> m == map[]
  {
  }

  lemma NotEmpty(m: map<Name, set<Name>>, x: Name)
    requires x in m
    ensures m != map[]
  {
  }

  class Shard {
    var streams: Streams

    constructor ()
      ensures streams == map[]
    {
      streams := map[];
    }

    method Subscribe(session: Name, stream: Name, identifier: Name)
      modifies this
      ensures streams == Subscribed(old(streams), stream, session, identifier)
    {
      if stream !in streams {
        streams := streams[stream := map[]];
      }
      if session !in streams[stream] {
        streams := streams[stream := streams[stream][session := {}]];
      }
      var ids := streams[stream][session] + {identifier};
      streams := streams[stream := streams[stream][session := ids]];
      assert streams[stream] == Subscribed(old(streams), stream, session, identifier)[stream];
    }

    /** The read-locked phase: is there anything to remove? */
    method CheckSubscribed(session: Name, stream: Name, identifier: Name) returns (found: bool)
      ensures found <==> identifier in Ids(streams, stream, session)
    {
      if stream !in streams {
        return false;
      }
      if session !in streams[stream] {
        return false;
      }
      return identifier in streams[stream][session];
    }

    /** The write-locked phase. Deleting from a missing map does nothing, and a missing map is empty. */
    method RemoveSubscribed(session: Name, stream: Name, identifier: Name)
      modifies this
      ensures streams == Unsubscribed(old(streams), stream, session, identifier)
    {
      if stream !in streams {
        return;
      }
      var sessions := streams[stream];
      if session in sessions {
        SetThenDrop(sessions, session, sessions[session] - {identifier});
        sessions := sessions[session := sessions[session] - {identifier}];
      }
      if session !in sessions || |sessions[session]| == 0 {
        sessions := sessions - {session};
        IsEmpty(sessions);
        streams := if |sessions| == 0 then streams - {stream} else streams[stream := sessions];
      } else {
        NotEmpty(sessions, session);
        streams := streams[stream := sessions];
      }
    }

    method Unsubscribe(session: Name, stream: Name, identifier: Name)
      requires NoEmpty(streams)
      modifies this
      ensures streams == Unsubscribed(old(streams), stream, session, identifier)
    {
      var found := CheckSubscribed(session, stream, identifier);
      if !found {
        UnsubscribeAbsent(streams, stream, session, identifier);
        return;
      }
      RemoveSubscribed(session, stream, identifier);
    }

    /** `performBroadcast`: the sessions and the identifiers of each are visited in any order. Every
        subscribed pair in the snapshot gets the message once, built for its identifier, except for the
        pairs of the excluded socket, which get nothing. */
    method PerformBroadcast(msg: StreamMessage) returns (sends: seq<Send>)
      ensures forall i, j :: 0 <= i < j < |sends| ==>
        (sends[i].session, sends[i].identifier) != (sends[j].session, sends[j].identifier)
      ensures forall x, id :: Addressed(sends, x, id) <==>
        id in Ids(streams, msg.stream, x) && !(msg.meta.Some? && msg.meta.value.excludeSocket == x)
      ensures forall i :: 0 <= i < |sends| ==>
        var reply := sends[i].reply;
        && reply.identifier == sends[i].identifier && reply.message == msg.data
        && reply.offset == msg.offset && reply.epoch == msg.epoch
        && (reply.streamId == if msg.epoch.Some? then Some(msg.stream) else None)
        && (reply.kind == if msg.meta.Some? then Some(msg.meta.value.broadcastType) else None)
    {
      var src := if msg.stream in streams then streams[msg.stream] else map[];
      var snapshot := Snapshot(src);
      var buf: map<Name, Reply> := map[];
      var todo := snapshot.Keys;
      sends := [];
      while todo != {}
        invariant todo <= snapshot.Keys
        invariant forall id :: id in buf ==> buf[id] == BuildMessage(msg, id)
        invariant Distinct(sends)
        invariant forall x, id :: Addressed(sends, x, id) <==>
          x in src && x !in todo && id in src[x] && !Excludes(msg, x)
        invariant forall i :: 0 <= i < |sends| ==> sends[i].reply == BuildMessage(msg, sends[i].identifier)
        decreases |todo|
      {
        var session :| session in todo;
        if !(msg.meta.Some? && msg.meta.value.excludeSocket == session) {
          var more;
          more, buf := SendAll(msg, session, snapshot[session], buf);
          assert forall i :: 0 <= i < |sends| ==> Addressed(sends, sends[i].session, sends[i].identifier);
          SendsAppend(sends, more, session);
          sends := sends + more;
        }
        todo := todo - {session};
      }
    }

    method Size() returns (n: nat)
      ensures n == |streams|
    {
      return |streams|;
    }
  }

  lemma UnsubscribeAbsent(g: Streams, s: Name, x: Name, id: Name)
    requires NoEmpty(g) && id !in Ids(g, s, x)
    ensures Unsubscribed(g, s, x, id) == g
  {
    assert Ids(g, s, x) - {id} == Ids(g, s, x);
    if s in g {
      assert x in g[s] ==> g[s][x := g[s][x]] == g[s];
      assert x !in g[s] ==> g[s] - {x} == g[s];
      assert g[s := g[s]] == g;
    }
  }

  // The fan-out.

  predicate Excludes(msg: StreamMessage, x: Name) {
    msg.meta.Some? && msg.meta.value.excludeSocket == x
  }

  function BuildMessage(msg: StreamMessage, id: Name): Reply {
    var reply := ToReplyFor(msg, id);
    if msg.meta.Some? then reply.(kind := Some(msg.meta.value.broadcastType)) else reply
  }

  ghost predicate Addressed(sends: seq<Send>, x: Name, id: Name) {
    exists i :: 0 <= i < |sends| && sends[i].session == x && sends[i].identifier == id
  }

  predicate Distinct(sends: seq<Send>) {
    forall i, j :: 0 <= i < j < |sends| ==>
      (sends[i].session, sends[i].identifier) != (sends[j].session, sends[j].identifier)
  }

  /** `streamSessionsSnapshot`: every set of identifiers listed once each, in any order. */
  method Snapshot(src: map<Name, set<Name>>) returns (dest: map<Name, seq<Name>>)
    ensures dest.Keys == src.Keys
    ensures forall x :: x in src ==> NoDup(dest[x]) && forall id :: id in dest[x] <==> id in src[x]
  {
    dest := map[];
    var todo := src.Keys;
    while todo != {}
      invariant todo <= src.Keys && dest.Keys == src.Keys - todo
      invariant forall x :: x in dest ==> NoDup(dest[x]) && forall id :: id in dest[x] <==> id in src[x]
      decreases |todo|
    {
      var x :| x in todo;
      var ids := ListOf(src[x]);
      dest := dest[x := ids];
      todo := todo - {x};
    }
  }

  method ListOf(ids: set<Name>) returns (list: seq<Name>)
    ensures NoDup(list) && forall id :: id in list <==> id in ids
  {
    list := [];
    var todo := ids;
    while todo != {}
      invariant todo <= ids && NoDup(list) && forall id :: id in list <==> id in ids && id !in todo
      decreases |todo|
    {
      var id :| id in todo;
      list := list + [id];
      todo := todo - {id};
    }
  }

  /** The inner loop: one session, its identifiers in turn, with the messages built so far reused. */
  method SendAll(msg: StreamMessage, session: Name, ids: seq<Name>, buf: map<Name, Reply>)
    returns (sends: seq<Send>, buf': map<Name, Reply>)
    requires NoDup(ids) && forall id :: id in buf ==> buf[id] == BuildMessage(msg, id)
    ensures |sends| == |ids|
    ensures forall i :: 0 <= i < |ids| ==> sends[i] == Send(session, ids[i], BuildMessage(msg, ids[i]))
    ensures forall id :: id in buf' ==> buf'[id] == BuildMessage(msg, id)
  {
    sends, buf' := [], buf;
    for k := 0 to |ids|
      invariant |sends| == k
      invariant forall i :: 0 <= i < k ==> sends[i] == Send(session, ids[i], BuildMessage(msg, ids[i]))
      invariant forall id :: id in buf' ==> buf'[id] == BuildMessage(msg, id)
    {
      var bdata;
      if ids[k] in buf' {
        bdata := buf'[ids[k]];
      } else {
        bdata := BuildMessage(msg, ids[k]);
        buf' := buf'[ids[k] := bdata];
      }
      sends := sends + [Send(session, ids[k], bdata)];
    }
  }

  lemma SendsAppend(sends: seq<Send>, more: seq<Send>, session: Name)
    requires Distinct(sends) && Distinct(more) && forall i :: 0 <= i < |more| ==> more[i].session == session
    requires forall i :: 0 <= i < |sends| ==> sends[i].session != session
    ensures Distinct(sends + more)
    ensures forall x, id :: Addressed(sends + more, x, id) <==> Addressed(sends, x, id) || Addressed(more, x, id)
  {
    var all := sends + more;
    forall x, id
      ensures Addressed(all, x, id) <==> Addressed(sends, x, id) || Addressed(more, x, id)
    {
      if i :| 0 <= i < |sends| && sends[i].session == x && sends[i].identifier == id {
        assert all[i] == sends[i];
      }
      if i :| 0 <= i < |more| && more[i].session == x && more[i].identifier == id {
        assert all[|sends| + i] == more[i];
      }
    }
  }

  // Unsubscribing in two phases.

  datatype Op =
    Sub(stream: Name, session: Name, identifier: Name) | Unsub(stream: Name, session: Name, identifier: Name)

  function Apply(g: Streams, op: Op): Streams {
    match op
    case Sub(s, x, id) => Subscribed(g, s, x, id)
    case Unsub(s, x, id) => Unsubscribed(g, s, x, id)
  }

  function Run(g: Streams, ops: seq<Op>): Streams {
    if ops == [] then g else Apply(Run(g, ops[..|ops| - 1]), ops[|ops| - 1])
  }

  lemma {:induction false} RunNoEmpty(g: Streams, ops: seq<Op>)
    requires NoEmpty(g)
    ensures NoEmpty(Run(g, ops))
  {
    if ops != [] {
      RunNoEmpty(g, ops[..|ops| - 1]);
      var op := ops[|ops| - 1];
      SubscribedIds(Run(g, ops[..|ops| - 1]), op.stream, op.session, op.identifier);
      UnsubscribedIds(Run(g, ops[..|ops| - 1]), op.stream, op.session, op.identifier);
    }
  }

  lemma {:induction false} RunSplit(g: Streams, a: seq<Op>, b: seq<Op>)
    ensures Run(g, a + b) == Run(Run(g, a), b)
  {
    if b == [] {
      assert a + b == a;
    } else {
      RunSplit(g, a, b[..|b| - 1]);
      assert (a + b)[..|a + b| - 1] == a + b[..|b| - 1];
    }
  }

  /** Whatever runs between the check (in state `g`) and the removal, the unsubscribe takes effect at one
      moment: after everything, if the check found the triple, or else before everything. It removes
      that triple and no other, and leaves no empty map behind. */
  lemma {:induction false} TwoPhaseUnsubscribe(g: Streams, between: seq<Op>, s: Name, x: Name, id: Name)
    requires NoEmpty(g)
    ensures var end := Run(g, between);
      var result := if id in Ids(g, s, x) then Unsubscribed(end, s, x, id) else end;
      && NoEmpty(result)
      && (result == Run(g, between + [Unsub(s, x, id)]) || result == Run(g, [Unsub(s, x, id)] + between))
      && (id in Ids(g, s, x) ==> forall t, y ::
        Ids(result, t, y) == Ids(end, t, y) - if t == s && y == x then {id} else {})
  {
    RunNoEmpty(g, between);
    if id in Ids(g, s, x) {
      UnsubscribedIds(Run(g, between), s, x, id);
      assert (between + [Unsub(s, x, id)])[..|between|] == between;
    } else {
      UnsubscribeFirst(g, between, s, x, id);
    }
  }

  lemma {:induction false} UnsubscribeFirst(g: Streams, between: seq<Op>, s: Name, x: Name, id: Name)
    requires NoEmpty(g) && id !in Ids(g, s, x)
    ensures Run(g, [Unsub(s, x, id)] + between) == Run(g, between)
  {
    UnsubscribeAbsent(g, s, x, id);
    RunSplit(g, [Unsub(s, x, id)], between);
    assert [Unsub(s, x, id)][..0] == [];
    assert Run(g, [Unsub(s, x, id)]) == Apply(Run(g, []), Unsub(s, x, id));
  }
}
