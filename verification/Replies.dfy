/** What a client gets of a stored message: live, from a gate, and later, from the history. */
module Replies {
  import opened Basics
  import opened BrokerSteps
  import opened Common
  import opened Names
  import Gate
  import History
  import MemoryBroker

  /** A caller appends a broadcast of `data` under `name` at step `k`, reads the epoch at some later state `ep`, and
      passes the message on. */
  ghost predicate IsPublished(
      c: History.Config, epoch: Name, acts: seq<Action>, ss: seq<State>, l: nat, k: nat, ep: nat, h: nat, name: Name,
      data: string, now: int)
  {
    && IsRun(c, epoch, acts, ss) && StillOut(acts, l, k, h, name) && k < |acts|
    && acts[k] == Append(h, History.Add(data, now)) && k < ep < |ss|
  }

  /** The message that is passed on: the broadcast, under the offset it was given and the epoch. */
  function Live(c: History.Config, data: string, meta: Option<Meta>, o: Object, epoch: Name): StreamMessage
    requires c.limit >= 1
  {
    StreamMessage(o.owner, data, meta, Content(c, o).offset, Some(epoch))
  }

  lemma {:induction false} LogPlace(
      c: History.Config, epoch: Name, acts: seq<Action>, ss: seq<State>, l: nat, k: nat, ep: nat, h: nat, name: Name,
      data: string, now: int, till: nat)
    requires IsPublished(c, epoch, acts, ss, l, k, ep, h, name, data, now) && k < till < |ss|
    ensures h in ss[k].held
    ensures var i := ss[k].held[h];
      && i < |ss[k + 1].objects| && i < |ss[till].objects| && ss[k + 1].objects[i].owner == name && i < |ss[k].objects|
      && var j := |LogOf(c, ss[k], i)|;
         && j < |LogOf(c, ss[till], i)| && LogOf(c, ss[till], i)[j].data == data
         && LogOf(c, ss[till], i)[j].offset == Content(c, ss[k + 1].objects[i]).offset
  {
    StillHeld(c, epoch, acts, ss, l, k, h, name);
    StoredIffNotDropped(c, epoch, acts, ss, l, k, h, name, acts[k].op);
    var i := ss[k].held[h];
    History.RunSnoc(c, ss[k].objects[i].ops, acts[k].op);
    LogIsAllIff(c, epoch, acts, ss, k + 1, till, name, i);
  }

  /** An entry after the offset asked for is in the answer, at the place its offset says. */
  lemma {:induction false} PlaceByOffset(log: seq<History.Entry>, j: nat, es: seq<History.Entry>, o: int)
    requires History.Increasing(log) && j < |log| && log[j].offset > o && History.LastOffset(log) == o + |es|
    requires History.NumberedEnd(es, log, o)
    ensures var place := log[j].offset - o - 1; 0 <= place < |es| && es[place] == log[j]
  {
    var place := log[j].offset - o - 1;
    assert log[j].offset <= log[|log| - 1].offset;
    assert es[place].offset == log[j].offset && es[place] == log[|log| - |es| + place];
  }

  lemma {:induction false} LogIncreases(c: History.Config, ops: seq<History.Op>)
    requires c.limit >= 1 && History.NoWrap(c, ops)
    ensures var log := History.Log(c, ops);
      History.Increasing(log) && History.LastOffset(log) == History.Run(c, ops).offset
  {
    History.NumberedIffNoWrap(c, ops);
    History.RunEndsLog(c, ops);
  }

  lemma {:induction false} FoundByOffset(c: History.Config, ops: seq<History.Op>, o: History.uint64, j: nat)
    requires c.limit >= 1 && History.NoWrap(c, ops) && History.NoGap(c, ops)
    requires j < |History.Log(c, ops)| && History.Log(c, ops)[j].offset > o
    requires History.From(History.Run(c, ops).data, o).Ok?
    ensures var es, entry := History.From(History.Run(c, ops).data, o).value, History.Log(c, ops)[j];
      0 <= entry.offset - o - 1 < |es| && es[entry.offset - o - 1] == entry
  {
    History.ResumeNumbered(c, ops, o);
    LogIncreases(c, ops);
    PlaceByOffset(History.Log(c, ops), j, History.From(History.Run(c, ops).data, o).value, o);
  }

  lemma {:induction false} AnsweredWith(
      c: History.Config, current: Name, found: map<Name, nat>, objects: seq<Object>, name: Name, wanted: Name,
      o: History.uint64, j: nat)
    requires c.limit >= 1 && forall n :: n in found ==> found[n] < |objects|
    requires Answer(c, current, found, objects, name, wanted, o).Ok?
    requires var ops := objects[found[name]].ops;
      && History.NoWrap(c, ops) && History.NoGap(c, ops)
      && j < |History.Log(c, ops)| && History.Log(c, ops)[j].offset > o
    ensures var ms := Answer(c, current, found, objects, name, wanted, o).value;
      var entry := History.Log(c, objects[found[name]].ops)[j];
      var place := entry.offset - o - 1;
      0 <= place < |ms| && ms[place] == StreamMessage(name, entry.data, None, entry.offset, Some(wanted))
  {
    FoundByOffset(c, objects[found[name]].ops, o, j);
  }

  /** Two replies for the channel, with this content, of this stream, and under the same offset. */
  predicate SameButEpoch(a: Reply, b: Reply, id: Name, stream: Name, data: string) {
    && a.identifier == b.identifier == id && a.message == b.message == data
    && a.streamId == b.streamId == Some(stream) && a.offset == b.offset
  }

  lemma {:induction false} SameReply(got: StreamMessage, live: StreamMessage, id: Name)
    requires got.data == live.data && got.stream == live.stream && got.offset == live.offset
    requires got.epoch.Some? && live.epoch.Some?
    ensures var a, b := ToReplyFor(got, id), Gate.BuildMessage(live, id);
      SameButEpoch(a, b, id, live.stream, live.data) && (a.epoch == b.epoch <==> got.epoch == live.epoch)
  {
  }

  /** Of the messages after offset `o`, the one at the place of the live one makes the same reply; in its epoch, too,
      exactly if the epoch asked for is the live one's. */
  ghost predicate ReadsBack(ms: seq<StreamMessage>, o: int, live: StreamMessage, id: Name, wanted: Name) {
    var place := live.offset - o - 1;
    && 0 <= place < |ms|
    && var got, sent := ToReplyFor(ms[place], id), Gate.BuildMessage(live, id);
       && SameButEpoch(got, sent, id, live.stream, live.data)
       && (got.epoch == sent.epoch <==> live.epoch == Some(wanted))
  }

  /** A message that is in the log of the object found, read back from there. */
  lemma {:induction false} ReadBack(
      c: History.Config, current: Name, found: map<Name, nat>, objects: seq<Object>, name: Name, wanted: Name,
      o: History.uint64, j: nat, live: StreamMessage, id: Name)
    requires c.limit >= 1 && forall n :: n in found ==> found[n] < |objects|
    requires Answer(c, current, found, objects, name, wanted, o).Ok?
    requires var ops := objects[found[name]].ops;
      && History.NoWrap(c, ops) && History.NoGap(c, ops)
      && j < |History.Log(c, ops)| && History.Log(c, ops)[j].offset == live.offset > o
      && History.Log(c, ops)[j].data == live.data && name == live.stream && live.epoch.Some?
    ensures ReadsBack(Answer(c, current, found, objects, name, wanted, o).value, o, live, id, wanted)
  {
    AnsweredWith(c, current, found, objects, name, wanted, o, j);
    var got := StreamMessage(name, live.data, None, live.offset, Some(wanted));
    assert Answer(c, current, found, objects, name, wanted, o).value[live.offset - o - 1] == got;
    SameReply(got, live, id);
  }

  /** What is sent of a broadcast as it is published, and what a client gets that looks the stream up while it is still
      there and resumes from any offset before it, are the same message: in content, stream, offset, and epoch, if the
      client's epoch is the one the broadcast was published under. */
  lemma {:induction false} LiveAsHistory(
      c: History.Config, epoch: Name, acts: seq<Action>, ss: seq<State>, l: nat, k: nat, ep: nat, h: nat, name: Name,
      data: string, meta: Option<Meta>, now: int, e: nat, look: nat, till: nat, wanted: Name, o: History.uint64,
      id: Name)
    requires IsPublished(c, epoch, acts, ss, l, k, ep, h, name, data, now)
    requires IsRead(c, epoch, acts, ss, e, look, till) && k < till
    requires forall n :: n in ss[look].current ==> ss[look].current[n] < |ss[till].objects|
    requires h in ss[k].held && InMap(ss[look], name, ss[k].held[h]) && ss[k].held[h] < |ss[k + 1].objects|
    requires Answer(c, ss[e].epoch, ss[look].current, ss[till].objects, name, wanted, o).Ok?
    requires var ops := ss[till].objects[ss[k].held[h]].ops; History.NoWrap(c, ops) && History.NoGap(c, ops)
    requires o < Content(c, ss[k + 1].objects[ss[k].held[h]]).offset
    ensures var live := Live(c, data, meta, ss[k + 1].objects[ss[k].held[h]], ss[ep].epoch);
      && live.stream == name && live.data == data && live.epoch == Some(ss[ep].epoch)
      && ReadsBack(
           Answer(c, ss[e].epoch, ss[look].current, ss[till].objects, name, wanted, o).value, o, live, id, wanted)
  {
    var i := ss[k].held[h];
    LogPlace(c, epoch, acts, ss, l, k, ep, h, name, data, now, till);
    var live := Live(c, data, meta, ss[k + 1].objects[i], ss[ep].epoch);
    ReadBack(c, ss[e].epoch, ss[look].current, ss[till].objects, name, wanted, o, |LogOf(c, ss[k], i)|, live, id);
  }
}
