/**
 The history side of the in-memory broker (`broker/memory.go`, `Memory`): the streams by name,
 the epoch, resume requests and the pass that expires entries and deletes whole streams.
 */
module MemoryBroker {
  import opened Basics
  import opened Common
  import opened History
  import opened Names

  datatype Broker = Broker(epoch: Name, streams: map<Name, Stream>)

  /** `Expire` reads the clock once for the pass and once more for every stream it visits. */
  datatype Op =
    | Handle(name: Name, data: string, now: int)
    | Store(name: Name, data: string, offset: uint64, time: Option<int>, now: int)
    | Pass(now: int, readings: map<Name, int>)
    | SetEpoch(epoch: Name)

  function Reading(readings: map<Name, int>, name: Name, now: int): int {
    if name in readings then readings[name] else now
  }

  function Get(b: Broker, name: Name): Stream {
    if name in b.streams then b.streams[name] else EMPTY
  }

  function Step(c: Config, b: Broker, op: Op): Broker
    requires c.limit >= 1
  {
    match op
    case Handle(n, d, now) => b.(streams := b.streams[n := History.Apply(c, Get(b, n), Add(d, now))])
    case Store(n, d, o, t, now) => b.(streams := b.streams[n := History.Apply(c, Get(b, n), Insert(d, o, t, now))])
    case Pass(now, readings) =>
      b.(streams := map n | n in b.streams && b.streams[n].deadline >= now ::
        Swept(c, b.streams[n], readings, n, now))
    case SetEpoch(e) => b.(epoch := e)
  }

  function Swept(c: Config, st: Stream, readings: map<Name, int>, name: Name, now: int): Stream
    requires c.limit >= 1
  {
    History.Apply(c, st, Expire(Reading(readings, name, now)))
  }

  function Messages(name: Name, epoch: Name, es: seq<Entry>): seq<StreamMessage> {
    seq(|es|, i requires 0 <= i < |es| => StreamMessage(name, es[i].data, None, es[i].offset, Some(epoch)))
  }

  /** The messages carry the entries, in order, under the stream and the epoch, with no meta. */
  predicate IsHistory(ms: seq<StreamMessage>, name: Name, epoch: Name, es: seq<Entry>) {
    |ms| == |es| && forall i :: 0 <= i < |ms| ==>
      && ms[i].stream == name && ms[i].data == es[i].data && ms[i].offset == es[i].offset
      && ms[i].epoch == Some(epoch) && ms[i].meta == None
  }

  function ReadFrom(b: Broker, name: Name, epoch: Name, o: uint64): Result<seq<StreamMessage>> {
    if epoch != b.epoch || name !in b.streams then Err
    else match From(b.streams[name].data, o)
      case Ok(es) => Ok(Messages(name, epoch, es))
      case Err => Err
  }

  function ReadSince(b: Broker, name: Name, ts: int): seq<StreamMessage> {
    Messages(name, b.epoch, Since(Get(b, name).data, ts))
  }

  /** A read by time, message by message and without a filter: the held entries at or after the time, all of them and
      in the order they are held. */
  lemma {:induction false} SinceEntryByEntry(b: Broker, name: Name, ts: int) returns (at: seq<nat>)
    ensures var ms, data := ReadSince(b, name, ts), Get(b, name).data;
      && |at| == |ms|
      && (forall k :: 0 <= k < |ms| ==>
            && at[k] < |data| && data[at[k]].timestamp >= ts
            && ms[k].data == data[at[k]].data && ms[k].offset == data[at[k]].offset
            && ms[k].stream == name && ms[k].epoch == Some(b.epoch))
      && (forall j, k :: 0 <= j < k < |ms| ==> at[j] < at[k])
      && (forall i :: 0 <= i < |data| && data[i].timestamp >= ts ==> i in at)
  {
    var data := Get(b, name).data;
    at := FilterIndexes((e: Entry) => e.timestamp >= ts, data, 0);
    assert data[0..] == data;
  }

  lemma SetTwice(m: map<Name, Stream>, name: Name, a: Stream, b: Stream)
    ensures m[name := a][name := b] == m[name := b]
  {
  }

  class Memory {
    const config: Config
    var epoch: Name
    var streams: map<Name, MemStream>
    ghost var repr: set<MemStream>

    ghost predicate Valid()
      reads this, repr
    {
      && config.limit >= 1
      && (forall n :: n in streams ==> streams[n] in repr && streams[n].config == config && streams[n].Valid())
      && (forall m, n :: m in streams && n in streams && m != n ==> streams[m] != streams[n])
    }

    ghost function View(): Broker
      requires Valid()
      reads this, repr
    {
      Broker(epoch, map n | n in streams :: streams[n].View())
    }

    constructor (config: Config, epoch: Name)
      requires config.limit >= 1
      ensures Valid() && View() == Broker(epoch, map[]) && this.config == config
    {
      this.config := config;
      this.epoch := epoch;
      this.streams := map[];
      this.repr := {};
    }

    lemma ViewIs(m: map<Name, Stream>)
      requires Valid() && m.Keys == streams.Keys && forall n :: n in m ==> streams[n].View() == m[n]
      ensures View().streams == m
    {
    }

    method SetEpoch(v: Name)
      requires Valid()
      modifies this`epoch
      ensures Valid() && epoch == v && View() == Step(config, old(View()), Op.SetEpoch(v))
    {
      epoch := v;
    }

    /** Finds the stream, or creates it. */
    method FindOrCreate(name: Name) returns (s: MemStream)
      requires Valid()
      modifies this`streams, this`repr
      ensures Valid() && fresh(repr - old(repr))
      ensures name in streams && s == streams[name] && epoch == old(epoch)
      ensures View().streams == old(View().streams[name := Get(View(), name)])
    {
      if name !in streams {
        s := new MemStream(config);
        streams := streams[name := s];
        repr := repr + {s};
      }
      s := streams[name];
    }

    method Handle(name: Name, text: string, now: int) returns (given: uint64)
      requires Valid()
      modifies this`streams, this`repr, repr
      ensures Valid() && fresh(repr - old(repr)) && View() == Step(config, old(View()), Op.Handle(name, text, now))
      ensures given == View().streams[name].offset
    {
      ghost var was := View();
      var s := FindOrCreate(name);
      ghost var mid := View();
      given := s.Add(text, now);
      ViewIs(mid.streams[name := s.View()]);
      SetTwice(was.streams, name, Get(was, name), s.View());
    }

    /** `HandleBroadcast`: what goes on to the broadcaster, after it was stored unless it is transient. */
    method HandleBroadcast(msg: StreamMessage, now: int) returns (out: StreamMessage)
      requires Valid()
      modifies this`streams, this`repr, repr
      ensures Valid() && fresh(repr - old(repr))
      ensures msg.meta.Some? && msg.meta.value.transient ==> out == msg && View() == old(View())
      ensures !(msg.meta.Some? && msg.meta.value.transient) ==>
        && View() == Step(config, old(View()), Op.Handle(msg.stream, msg.data, now))
        && out == msg.(offset := View().streams[msg.stream].offset, epoch := Some(epoch))
    {
      if msg.meta.Some? && msg.meta.value.transient {
        return msg;
      }
      var given := Handle(msg.stream, msg.data, now);
      out := msg.(offset := given, epoch := Some(epoch));
    }

    method Store(name: Name, text: string, at: uint64, time: Option<int>, now: int) returns (r: Result<uint64>)
      requires Valid()
      modifies this`streams, this`repr, repr
      ensures Valid() && fresh(repr - old(repr))
        && View() == Step(config, old(View()), Op.Store(name, text, at, time, now))
      ensures r == if old(Get(View(), name).offset) < at then Ok(at) else Err
    {
      ghost var was := View();
      var s := FindOrCreate(name);
      ghost var mid := View();
      r := s.Insert(text, at, time, now);
      ViewIs(mid.streams[name := s.View()]);
      SetTwice(was.streams, name, Get(was, name), s.View());
    }

    method HistoryFrom(name: Name, wanted: Name, o: uint64) returns (r: Result<seq<StreamMessage>>)
      requires Valid()
      ensures r == ReadFrom(View(), name, wanted, o)
      ensures r.Ok? ==>
        && wanted == epoch && name in View().streams
        && IsHistory(r.value, name, epoch, From(View().streams[name].data, o).value)
    {
      if epoch != wanted || name !in streams {
        return Err;
      }
      var es := streams[name].FilterByOffset(o);
      if es == Err {
        return Err;
      }
      return Ok(Messages(name, epoch, es.value));
    }

    method HistorySince(name: Name, ts: int) returns (history: seq<StreamMessage>)
      requires Valid()
      ensures history == ReadSince(View(), name, ts)
      ensures name !in View().streams ==> history == []
      ensures name in View().streams ==> IsHistory(history, name, epoch, Since(View().streams[name].data, ts))
    {
      if name !in streams {
        return [];
      }
      var es := streams[name].FilterByTime(ts);
      return Messages(name, epoch, es);
    }

    /** Cuts one stream and says whether it is past its deadline. */
    method SweepOne(name: Name, now: int, readings: map<Name, int>) returns (dead: bool)
      requires Valid() && name in streams
      modifies streams[name]
      ensures Valid()
      ensures streams[name].View() == Swept(config, old(streams[name].View()), readings, name, now)
      ensures forall n :: n in streams && n != name ==> streams[n].View() == old(streams[n].View())
      ensures dead <==> streams[name].View().deadline < now
    {
      var s := streams[name];
      s.Expire(Reading(readings, name, now));
      dead := s.deadline < now;
    }

    /** All streams but those `todo` are cut. */
    ghost predicate SweptBut(was: map<Name, Stream>, todo: set<Name>, now: int, readings: map<Name, int>)
      requires Valid() && was.Keys == streams.Keys
      reads this, repr
    {
      forall n :: n in streams ==>
        streams[n].View() == if n in todo then was[n] else Swept(config, was[n], readings, n, now)
    }

    method SweepNext(
        name: Name, now: int, readings: map<Name, int>, ghost was: map<Name, Stream>, ghost todo: set<Name>)
      returns (dead: bool)
      requires Valid() && was.Keys == streams.Keys && name in todo && todo <= streams.Keys
      requires SweptBut(was, todo, now, readings)
      modifies streams[name]
      ensures Valid() && SweptBut(was, todo - {name}, now, readings)
      ensures dead <==> was[name].deadline < now
    {
      dead := SweepOne(name, now, readings);
    }

    /** Cuts every stream, visiting them in any order, and collects the names past their deadline. */
    method Sweep(now: int, readings: map<Name, int>, ghost was: map<Name, Stream>) returns (toDelete: set<Name>)
      requires Valid() && was == View().streams
      modifies repr
      ensures Valid() && SweptBut(was, {}, now, readings)
      ensures forall n :: n in toDelete <==> n in was && was[n].deadline < now
    {
      var todo := streams.Keys;
      toDelete := {};
      while todo != {}
        invariant todo <= streams.Keys && Valid() && SweptBut(was, todo, now, readings)
        invariant forall n :: n in toDelete <==> n in was && n !in todo && was[n].deadline < now
        decreases |todo|
      {
        var name :| name in todo;
        var dead := SweepNext(name, now, readings, was, todo);
        if dead {
          toDelete := toDelete + {name};
        }
        todo := todo - {name};
      }
    }

    lemma {:induction false} PassIs(
        was: Broker, toDelete: set<Name>, now: int, readings: map<Name, int>, before: map<Name, MemStream>)
      requires Valid() && was.epoch == epoch && was.streams.Keys == before.Keys && streams == before - toDelete
      requires forall n :: n in streams ==> streams[n].View() == Swept(config, was.streams[n], readings, n, now)
      requires forall n :: n in toDelete <==> n in was.streams && was.streams[n].deadline < now
      ensures View() == Step(config, was, Pass(now, readings))
    {
      ViewIs(Step(config, was, Pass(now, readings)).streams);
    }

    method Expire(now: int, readings: map<Name, int>)
      requires Valid()
      modifies this`streams, repr
      ensures Valid() && View() == Step(config, old(View()), Pass(now, readings))
    {
      ghost var was := View();
      var toDelete := Sweep(now, readings, was.streams);
      ghost var before := streams;
      streams := streams - toDelete;
      PassIs(was, toDelete, now, readings, before);
    }
  }

  /** Deleting a stream restarts its numbering in the same epoch. A client that saw offset 1 before the deletion
      and resumes after two new messages is answered, but misses the first of the two. */
  lemma NumberingRestarts(c: Config, b: Broker, s: Name, now: int)
    requires c.limit >= 2 && c.ttl >= 0 && s !in b.streams
    ensures var later := now + 10 * c.ttl + 1;
      var gone := Step(c, Step(c, b, Handle(s, "a", now)), Pass(later, map[]));
      var back := Step(c, Step(c, gone, Handle(s, "b", later)), Handle(s, "c", later));
      ReadFrom(back, s, b.epoch, 1) == Ok([StreamMessage(s, "c", None, 2, Some(b.epoch))])
  {
    var later := now + 10 * c.ttl + 1;
    var gone := Step(c, Step(c, b, Handle(s, "a", now)), Pass(later, map[]));
    assert s !in gone.streams;
    var once := Step(c, gone, Handle(s, "b", later));
    assert once.streams[s] == Stream(1, [Entry(later, 1, "b")], later + 10 * c.ttl);
    var back := Step(c, once, Handle(s, "c", later));
    var data := [Entry(later, 1, "b")] + [Entry(later, 2, "c")];
    assert back.streams[s].data == data && back.epoch == b.epoch;
    assert From(data, 1) == Ok([Entry(later, 2, "c")]);
    assert Messages(s, b.epoch, [Entry(later, 2, "c")]) == [StreamMessage(s, "c", None, 2, Some(b.epoch))];
  }
}
