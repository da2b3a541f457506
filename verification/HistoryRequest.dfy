/**
 A history request over the streams of a channel (`node/node.go`, `retreiveHistory`): every stream
 with a position in the request is resumed from it, the others are read from a time on.
 */
module HistoryRequest {
  import opened Basics
  import opened Common
  import opened History
  import opened MemoryBroker
  import opened Names

  datatype Position = Position(epoch: Name, offset: uint64)

  datatype Request = Request(since: int, positions: Option<map<Name, Position>>)

  predicate Positioned(req: Request, stream: Name) {
    req.positions.Some? && stream in req.positions.value
  }

  function AnswerFor(b: Broker, req: Request, stream: Name): Result<seq<StreamMessage>> {
    if req.positions.Some? && stream in req.positions.value then
      var at := req.positions.value[stream];
      ReadFrom(b, stream, at.epoch, at.offset)
    else if req.since > 0 then Ok(ReadSince(b, stream, req.since))
    else Ok([])
  }

  /** The answers for the streams, one after the other, or a refusal if one of them is. */
  function Collected(f: Name -> Result<seq<StreamMessage>>, streams: seq<Name>): Result<seq<StreamMessage>> {
    if streams == [] then Ok([])
    else
      var before, last := Collected(f, streams[..|streams| - 1]), f(streams[|streams| - 1]);
      if before.Err? || last.Err? then Err else Ok(before.value + last.value)
  }

  /** `at` is the broker as each stream is read: they are read one after the other. */
  function Answer(at: Name -> Broker, req: Request, streams: seq<Name>): Result<seq<StreamMessage>> {
    Collected(s => AnswerFor(at(s), req, s), streams)
  }

  method RetrieveHistory(broker: Memory, req: Request, streams: seq<Name>) returns (r: Result<seq<StreamMessage>>)
    requires broker.Valid()
    ensures var b := broker.View(); r == Answer((_: Name) => b, req, streams)
  {
    ghost var b := broker.View();
    ghost var at := (_: Name) => b;
    ghost var f := s => AnswerFor(at(s), req, s);
    var backlog := [];
    for i := 0 to |streams|
      invariant Collected(f, streams[..i]) == Ok(backlog)
    {
      assert streams[..i + 1][..i] == streams[..i];
      var some := RetrieveOne(broker, req, streams[i]);
      if some.Err? {
        CollectedFails(f, streams, i + 1);
        return Err;
      }
      backlog := backlog + some.value;
    }
    assert streams[..|streams|] == streams;
    r := Ok(backlog);
  }

  method RetrieveOne(broker: Memory, req: Request, stream: Name) returns (r: Result<seq<StreamMessage>>)
    requires broker.Valid()
    ensures r == AnswerFor(broker.View(), req, stream)
  {
    if req.positions.Some? && stream in req.positions.value {
      var at := req.positions.value[stream];
      r := broker.HistoryFrom(stream, at.epoch, at.offset);
      return;
    }
    if req.since > 0 {
      var some := broker.HistorySince(stream, req.since);
      return Ok(some);
    }
    return Ok([]);
  }

  lemma {:induction false} CollectedFails(f: Name -> Result<seq<StreamMessage>>, streams: seq<Name>, i: nat)
    requires i <= |streams| && Collected(f, streams[..i]).Err?
    ensures Collected(f, streams).Err?
  {
    if i < |streams| {
      assert streams[..|streams| - 1][..i] == streams[..i];
      CollectedFails(f, streams[..|streams| - 1], i);
    } else {
      assert streams[..i] == streams;
    }
  }

  /** The messages of one stream, in the order of the reply. */
  function Of(ms: seq<StreamMessage>, stream: Name): seq<StreamMessage> {
    if ms == [] then []
    else Of(ms[..|ms| - 1], stream) + (if ms[|ms| - 1].stream == stream then [ms[|ms| - 1]] else [])
  }

  lemma {:induction false} OfConcat(p: seq<StreamMessage>, q: seq<StreamMessage>, stream: Name)
    ensures Of(p + q, stream) == Of(p, stream) + Of(q, stream)
  {
    if q == [] {
      assert p + q == p;
    } else {
      assert (p + q)[..|p + q| - 1] == p + q[..|q| - 1];
      OfConcat(p, q[..|q| - 1], stream);
    }
  }

  lemma {:induction false} OfOne(ms: seq<StreamMessage>, from: Name, stream: Name)
    requires forall m :: m in ms ==> m.stream == from
    ensures Of(ms, stream) == if stream == from then ms else []
  {
    if ms != [] {
      OfOne(ms[..|ms| - 1], from, stream);
    }
  }

  lemma {:induction false} RefusedIff(f: Name -> Result<seq<StreamMessage>>, streams: seq<Name>)
    ensures Collected(f, streams).Err? <==> exists s :: s in streams && f(s).Err?
  {
    if streams != [] {
      var init, last := streams[..|streams| - 1], streams[|streams| - 1];
      RefusedIff(f, init);
      assert forall s :: s in streams <==> s in init || s == last;
    }
  }

  lemma {:induction false} OneMoreStream(ms: seq<StreamMessage>, more: seq<StreamMessage>, last: Name, stream: Name)
    requires forall m :: m in more ==> m.stream == last
    ensures Of(ms + more, stream) == if stream == last then Of(ms, stream) + more else Of(ms, stream)
  {
    OfConcat(ms, more, stream);
    OfOne(more, last, stream);
    assert Of(ms, stream) + [] == Of(ms, stream);
  }

  lemma {:induction false} CollectedExact(f: Name -> Result<seq<StreamMessage>>, streams: seq<Name>, stream: Name)
    requires NoDup(streams) && Collected(f, streams).Ok?
    requires forall s :: f(s).Ok? ==> forall m :: m in f(s).value ==> m.stream == s
    ensures stream in streams ==> f(stream).Ok?
    ensures Of(Collected(f, streams).value, stream) == if stream in streams then f(stream).value else []
  {
    if streams != [] {
      var init, last := streams[..|streams| - 1], streams[|streams| - 1];
      CollectedExact(f, init, stream);
      assert forall s :: s in streams <==> s in init || s == last;
      OneMoreStream(Collected(f, init).value, f(last).value, last, stream);
    }
  }

  /** A request is refused exactly when one of its positions is, at the moment its stream is read. Otherwise the
      reply holds, for every stream asked about, that stream's own answer in order, and nothing else: what follows
      its position if it has one, what came since the time asked for if it has none, and nothing without a time. */
  lemma {:induction false} AnswerExact(at: Name -> Broker, req: Request, streams: seq<Name>, stream: Name)
    requires NoDup(streams)
    ensures Answer(at, req, streams).Err? <==>
      exists s :: s in streams && Positioned(req, s) &&
        ReadFrom(at(s), s, req.positions.value[s].epoch, req.positions.value[s].offset).Err?
    ensures Answer(at, req, streams).Ok? ==>
      var own := Of(Answer(at, req, streams).value, stream);
      && (stream !in streams ==> own == [])
      && (stream in streams && Positioned(req, stream) ==>
            var p := req.positions.value[stream]; ReadFrom(at(stream), stream, p.epoch, p.offset) == Ok(own))
      && (stream in streams && !Positioned(req, stream) ==>
            own == if req.since > 0 then ReadSince(at(stream), stream, req.since) else [])
  {
    var f := s => AnswerFor(at(s), req, s);
    RefusedIff(f, streams);
    if Collected(f, streams).Ok? {
      forall s | f(s).Ok?
        ensures forall m :: m in f(s).value ==> m.stream == s
      {
        AnswersOwn(at(s), req, s);
      }
      CollectedExact(f, streams, stream);
    }
  }

  lemma {:induction false} CollectedInOrder(f: Name -> Result<seq<StreamMessage>>, p: seq<Name>, q: seq<Name>)
    requires Collected(f, p + q).Ok?
    ensures Collected(f, p).Ok? && Collected(f, q).Ok?
    ensures Collected(f, p + q).value == Collected(f, p).value + Collected(f, q).value
  {
    if q == [] {
      assert p + q == p;
    } else {
      var init, last := q[..|q| - 1], q[|q| - 1];
      assert (p + q)[..|p + q| - 1] == p + init;
      CollectedInOrder(f, p, init);
    }
  }

  /** The reply has the streams in the order in which they are asked about. */
  lemma {:induction false} AnswerInOrder(at: Name -> Broker, req: Request, p: seq<Name>, q: seq<Name>)
    requires Answer(at, req, p + q).Ok?
    ensures Answer(at, req, p).Ok? && Answer(at, req, q).Ok?
    ensures Answer(at, req, p + q).value == Answer(at, req, p).value + Answer(at, req, q).value
  {
    CollectedInOrder(s => AnswerFor(at(s), req, s), p, q);
  }

  lemma AnswersOwn(b: Broker, req: Request, s: Name)
    requires AnswerFor(b, req, s).Ok?
    ensures forall m :: m in AnswerFor(b, req, s).value ==> m.stream == s
  {
  }

  /** What a client is sent. */
  datatype Frame = Content(reply: Reply) | Confirmed(identifier: Name) | Rejected(identifier: Name)

  /** `History`, for a channel the session knows: what is sent, if the request asks for anything. */
  method SendHistory(broker: Memory, req: Request, id: Name, streams: seq<Name>) returns (frames: seq<Frame>)
    requires broker.Valid()
    ensures req.since == 0 && req.positions.None? ==> frames == []
    ensures req.since != 0 || req.positions.Some? ==>
      var b := broker.View();
      match Answer((_: Name) => b, req, streams)
      case Err => frames == [Rejected(id)]
      case Ok(ms) =>
        && |frames| == |ms| + 1 && frames[|ms|] == Confirmed(id)
        && forall i :: 0 <= i < |ms| ==>
             && frames[i].Content? && frames[i].reply.identifier == id && frames[i].reply.message == ms[i].data
             && frames[i].reply.offset == ms[i].offset && frames[i].reply.epoch == ms[i].epoch
             && frames[i].reply.streamId == (if ms[i].epoch.Some? then Some(ms[i].stream) else None)
             && frames[i].reply.kind == None
  {
    if req.since == 0 && req.positions.None? {
      return [];
    }
    var backlog := RetrieveHistory(broker, req, streams);
    if backlog.Err? {
      return [Rejected(id)];
    }
    frames := [];
    for i := 0 to |backlog.value|
      invariant |frames| == i && forall k :: 0 <= k < i ==> frames[k] == Content(ToReplyFor(backlog.value[k], id))
    {
      frames := frames + [Content(ToReplyFor(backlog.value[i], id))];
    }
    frames := frames + [Confirmed(id)];
  }
}
