/**
 Presence in the in-memory broker (`broker/memory.go`): who is present in which stream, kept in two
 indexes (stream -> presence id -> sessions, and session -> stream -> presence id), with expiry.
 */
module Presence {
  import opened Basics
  import opened Names

  datatype Record = Record(id: Name, info: string, sessions: seq<Name>)

  datatype Visitor = Visitor(streams: map<Name, Name>, deadline: int)

  type Streams = map<Name, map<Name, Record>>

  type Visitors = map<Name, Visitor>

  datatype Event = Join(stream: Name, id: Name, info: string) | Leave(stream: Name, id: Name)

  datatype Result = Err | Ok(event: Option<Event>)

  /** What the two indexes stand for: which presence id each session has in each stream, the latest
      info of everyone present, and the deadline of every session that is present somewhere. */
  datatype Model = Model(links: map<(Name, Name), Name>, infos: map<(Name, Name), string>, deadlines: map<Name, int>)

  // The two indexes.

  function At(streams: Streams, s: Name, p: Name): Option<Record> {
    if s in streams && p in streams[s] then Some(streams[s][p]) else None
  }

  predicate Lists(r: Option<Record>, x: Name) {
    r.Some? && x in r.value.sessions
  }

  predicate Linked(links: map<(Name, Name), Name>, x: Name, s: Name, p: Name) {
    (x, s) in links && links[(x, s)] == p
  }

  /** A record is tracked, with its latest info, and lists its sessions once each. */
  predicate GoodRecord(r: Option<Record>, p: Name, info: Option<string>) {
    match r
    case None => info == None
    case Some(r) => info == Some(r.info) && r.id == p && r.sessions != [] && NoDup(r.sessions)
  }

  function Info(infos: map<(Name, Name), string>, s: Name, p: Name): Option<string> {
    if (s, p) in infos then Some(infos[(s, p)]) else None
  }

  /** The first index is exact: it lists a session if and only if it is linked, never twice, and holds
      no empty record and no empty stream. */
  ghost predicate IsIndex(streams: Streams, links: map<(Name, Name), Name>, infos: map<(Name, Name), string>) {
    && (forall s :: s in streams ==> streams[s] != map[])
    && (forall s, p :: GoodRecord(At(streams, s, p), p, Info(infos, s, p)))
    && (forall s, p, x :: Lists(At(streams, s, p), x) <==> Linked(links, x, s, p))
  }

  /** The second index is exact, and holds no session that is present nowhere. */
  ghost predicate AreVisitors(sessions: Visitors, links: map<(Name, Name), Name>, deadlines: map<Name, int>) {
    && sessions.Keys == deadlines.Keys
    && (forall x :: x in sessions ==> sessions[x].streams != map[] && sessions[x].deadline == deadlines[x])
    && (forall x, s :: (x, s) in links <==> x in sessions && s in sessions[x].streams)
    && (forall x, s :: x in sessions && s in sessions[x].streams ==> links[(x, s)] == sessions[x].streams[s])
  }

  // What the operations mean.

  function Joined(m: Model, s: Name, x: Name, p: Name, info: string): Model {
    Model(m.links[(x, s) := p], m.infos[(s, p) := info], if x in m.deadlines then m.deadlines else m.deadlines[x := 0])
  }

  /** Without the links in `gone`: whoever has no link left is no longer present, and no longer tracked. */
  ghost function Without(m: Model, gone: set<(Name, Name)>): Model {
    var links := m.links - gone;
    Model(links,
          map k | k in m.infos && exists x :: Linked(links, x, k.0, k.1) :: m.infos[k],
          map x | x in m.deadlines && exists s :: (x, s) in links :: m.deadlines[x])
  }

  ghost function AddSpec(m: Model, s: Name, x: Name, p: Name, info: string): (Model, Result) {
    if (x, s) in m.links && m.links[(x, s)] != p then (m, Err)
    else (Joined(m, s, x, p, info), Ok(if (s, p) in m.infos then None else Some(Join(s, p, info))))
  }

  /** `blank` is the presence id looked up for a session that is not tracked at all. */
  ghost function RemoveSpec(m: Model, blank: Name, s: Name, x: Name): (Model, Result) {
    if (x, s) in m.links then
      var p, after := m.links[(x, s)], Without(m, {(x, s)});
      (after, Ok(if (s, p) in after.infos then None else Some(Leave(s, p))))
    else if x !in m.deadlines && (s, blank) in m.infos then (m, Ok(None))
    else (m, Err)
  }

  function FinishSpec(m: Model, x: Name, deadline: int): Model {
    if x in m.deadlines then m.(deadlines := m.deadlines[x := deadline]) else m
  }

  function Expired(m: Model, now: int): set<Name> {
    set x | x in m.deadlines && 0 < m.deadlines[x] < now
  }

  function LinksOf(m: Model, xs: set<Name>): set<(Name, Name)> {
    set k | k in m.links && k.0 in xs
  }

  ghost function ExpireSpec(m: Model, now: int): Model {
    Without(m, LinksOf(m, Expired(m, now)))
  }

  // Keeping the indexes.

  /** The streams after session number `i` of a record is taken out, and empty things with it. */
  function Unlist(streams: Streams, s: Name, p: Name, i: nat): Streams
    requires s in streams && p in streams[s] && i < |streams[s][p].sessions|
  {
    var r := streams[s][p];
    var left := r.sessions[..i] + r.sessions[i + 1..];
    var records := if left == [] then streams[s] - {p} else streams[s][p := r.(sessions := left)];
    if records == map[] then streams - {s} else streams[s := records]
  }

  lemma RemovedOnce(xs: seq<Name>, i: nat)
    requires i < |xs| && NoDup(xs)
    ensures var left := xs[..i] + xs[i + 1..];
      NoDup(left) && forall y :: y in left <==> y in xs && y != xs[i]
  {
    var left := xs[..i] + xs[i + 1..];
    assert forall j :: 0 <= j < |left| ==> left[j] == if j < i then xs[j] else xs[j + 1];
    forall y | y in xs && y != xs[i]
      ensures y in left
    {
      var j :| 0 <= j < |xs| && xs[j] == y;
      assert left[if j < i then j else j - 1] == y;
    }
  }

  lemma UnlistAt(streams: Streams, s: Name, p: Name, i: nat, t: Name, q: Name)
    requires s in streams && p in streams[s] && i < |streams[s][p].sessions|
    ensures var r := streams[s][p];
      var left := r.sessions[..i] + r.sessions[i + 1..];
      At(Unlist(streams, s, p, i), t, q) ==
      if t == s && q == p then (if left == [] then None else Some(r.(sessions := left))) else At(streams, t, q)
  {
    var r := streams[s][p];
    var left := r.sessions[..i] + r.sessions[i + 1..];
    var records := if left == [] then streams[s] - {p} else streams[s][p := r.(sessions := left)];
    assert q in records <==> q in streams[s] && (q != p || left != []);
    assert q in records ==> records != map[];
  }

  lemma UnlistKeepsIndex(streams: Streams, links: map<(Name, Name), Name>, infos: map<(Name, Name), string>,
                         s: Name, p: Name, i: nat)
    requires IsIndex(streams, links, infos)
    requires s in streams && p in streams[s] && i < |streams[s][p].sessions|
    ensures var x, last := streams[s][p].sessions[i], |streams[s][p].sessions| == 1;
      && Linked(links, x, s, p)
      && IsIndex(Unlist(streams, s, p, i), links - {(x, s)}, if last then infos - {(s, p)} else infos)
      && (last <==> forall y :: !Linked(links - {(x, s)}, y, s, p))
  {
    var r := streams[s][p];
    var x, left := r.sessions[i], r.sessions[..i] + r.sessions[i + 1..];
    assert GoodRecord(At(streams, s, p), p, Info(infos, s, p));
    assert Lists(At(streams, s, p), x);
    RemovedOnce(r.sessions, i);
    var after, links' := Unlist(streams, s, p, i), links - {(x, s)};
    forall t, q
      ensures forall y :: Lists(At(after, t, q), y) <==> Linked(links', y, t, q)
      ensures GoodRecord(At(after, t, q), q, Info(if left == [] then infos - {(s, p)} else infos, t, q))
    {
      UnlistAt(streams, s, p, i, t, q);
      assert GoodRecord(At(streams, t, q), q, Info(infos, t, q));
      forall y
        ensures Lists(At(after, t, q), y) <==> Linked(links', y, t, q)
      {
        assert Lists(At(streams, t, q), y) <==> Linked(links, y, t, q);
      }
    }
    if left != [] {
      assert Lists(At(after, s, p), left[0]);
    }
  }

  // What is left of a record, in the order it had.

  function Keep(xs: seq<Name>, s: Name, gone: set<(Name, Name)>): seq<Name> {
    if xs == [] then [] else (if (xs[0], s) in gone then [] else [xs[0]]) + Keep(xs[1..], s, gone)
  }

  function Thin(r: Option<Record>, s: Name, gone: set<(Name, Name)>): Option<Record> {
    match r
    case None => None
    case Some(r) => if Keep(r.sessions, s, gone) == [] then None else Some(r.(sessions := Keep(r.sessions, s, gone)))
  }

  /** The first index without the links in `gone`, and otherwise as it was. */
  ghost predicate Thinned(start: Streams, now: Streams, gone: set<(Name, Name)>) {
    forall s, p :: At(now, s, p) == Thin(At(start, s, p), s, gone)
  }

  lemma {:induction false} KeepAll(xs: seq<Name>, s: Name, gone: set<(Name, Name)>)
    requires forall x :: x in xs ==> (x, s) !in gone
    ensures Keep(xs, s, gone) == xs
  {
    if xs != [] {
      KeepAll(xs[1..], s, gone);
    }
  }

  lemma {:induction false} KeepTwice(xs: seq<Name>, s: Name, g: set<(Name, Name)>, h: set<(Name, Name)>)
    ensures Keep(Keep(xs, s, g), s, h) == Keep(xs, s, g + h)
  {
    if xs != [] {
      KeepTwice(xs[1..], s, g, h);
      var rest := Keep(xs[1..], s, g);
      assert ([xs[0]] + rest)[1..] == rest && [] + rest == rest;
    }
  }

  lemma {:induction false} KeepAllBut(xs: seq<Name>, s: Name, i: nat)
    requires i < |xs| && NoDup(xs)
    ensures Keep(xs, s, {(xs[i], s)}) == xs[..i] + xs[i + 1..]
  {
    if i == 0 {
      assert forall x :: x in xs[1..] ==> x != xs[0];
      KeepAll(xs[1..], s, {(xs[0], s)});
    } else {
      KeepAllBut(xs[1..], s, i - 1);
      assert xs[..i] == [xs[0]] + xs[1..][..i - 1] && xs[1..][i..] == xs[i + 1..];
    }
  }

  lemma ThinnedThen(a: Streams, b: Streams, c: Streams, g: set<(Name, Name)>, h: set<(Name, Name)>)
    requires Thinned(a, b, g) && Thinned(b, c, h)
    ensures Thinned(a, c, g + h)
  {
    forall s, p
      ensures At(c, s, p) == Thin(At(a, s, p), s, g + h)
    {
      assert At(b, s, p) == Thin(At(a, s, p), s, g);
      if At(a, s, p).Some? {
        KeepTwice(At(a, s, p).value.sessions, s, g, h);
      }
    }
  }

  lemma ThinnedNone(streams: Streams, links: map<(Name, Name), Name>, infos: map<(Name, Name), string>)
    requires IsIndex(streams, links, infos)
    ensures Thinned(streams, streams, {})
  {
    forall s, p
      ensures At(streams, s, p) == Thin(At(streams, s, p), s, {})
    {
      assert GoodRecord(At(streams, s, p), p, Info(infos, s, p));
      if At(streams, s, p).Some? {
        KeepAll(At(streams, s, p).value.sessions, s, {});
      }
    }
  }

  lemma UnlistThins(streams: Streams, links: map<(Name, Name), Name>, infos: map<(Name, Name), string>,
                    s: Name, p: Name, i: nat)
    requires IsIndex(streams, links, infos)
    requires s in streams && p in streams[s] && i < |streams[s][p].sessions|
    ensures Thinned(streams, Unlist(streams, s, p, i), {(streams[s][p].sessions[i], s)})
  {
    var x := streams[s][p].sessions[i];
    assert Lists(At(streams, s, p), x);
    forall t, q
      ensures At(Unlist(streams, s, p, i), t, q) == Thin(At(streams, t, q), t, {(x, s)})
    {
      UnlistAt(streams, s, p, i, t, q);
      assert GoodRecord(At(streams, t, q), q, Info(infos, t, q));
      if t == s && q == p {
        KeepAllBut(streams[s][p].sessions, s, i);
      } else if At(streams, t, q).Some? {
        assert Lists(At(streams, t, q), x) <==> Linked(links, x, t, q);
        KeepAll(At(streams, t, q).value.sessions, t, {(x, s)});
      }
    }
  }

  /** The links that are gone determine the index that is left. */
  lemma ThinnedUnique(start: Streams, a: Streams, b: Streams, gone: set<(Name, Name)>)
    requires Thinned(start, a, gone) && Thinned(start, b, gone)
    requires (forall s :: s in a ==> a[s] != map[]) && forall s :: s in b ==> b[s] != map[]
    ensures a == b
  {
    forall s, p
      ensures s in a && p in a[s] <==> s in b && p in b[s]
      ensures s in a && p in a[s] ==> a[s][p] == b[s][p]
    {
      assert At(a, s, p) == At(b, s, p);
    }
    forall s
      ensures s in a <==> s in b
    {
      if s in a {
        var p :| p in a[s];
        assert s in b && p in b[s];
      }
      if s in b {
        var p :| p in b[s];
        assert s in a && p in a[s];
      }
    }
    forall s | s in a
      ensures a[s] == b[s]
    {
    }
  }

  /** The record after session `x` is added with `info`. */
  function Enlisted(r: Option<Record>, p: Name, x: Name, info: string): Record {
    match r
    case None => Record(p, info, [x])
    case Some(r) => Record(r.id, info, if x in r.sessions then r.sessions else r.sessions + [x])
  }

  function Enlist(streams: Streams, s: Name, p: Name, x: Name, info: string): Streams {
    var records := if s in streams then streams[s] else map[];
    streams[s := records[p := Enlisted(At(streams, s, p), p, x, info)]]
  }

  lemma EnlistKeepsIndex(streams: Streams, links: map<(Name, Name), Name>, infos: map<(Name, Name), string>,
                         s: Name, p: Name, x: Name, info: string)
    requires IsIndex(streams, links, infos)
    requires (x, s) in links ==> links[(x, s)] == p
    ensures IsIndex(Enlist(streams, s, p, x, info), links[(x, s) := p], infos[(s, p) := info])
  {
    var after, links' := Enlist(streams, s, p, x, info), links[(x, s) := p];
    assert p in after[s];
    forall t, q
      ensures forall y :: Lists(At(after, t, q), y) <==> Linked(links', y, t, q)
      ensures GoodRecord(At(after, t, q), q, Info(infos[(s, p) := info], t, q))
    {
      assert GoodRecord(At(streams, t, q), q, Info(infos, t, q));
      assert At(after, t, q) ==
        if t == s && q == p then Some(Enlisted(At(streams, s, p), p, x, info)) else At(streams, t, q);
      forall y
        ensures Lists(At(after, t, q), y) <==> Linked(links', y, t, q)
      {
        assert Lists(At(streams, t, q), y) <==> Linked(links, y, t, q);
      }
    }
  }

  lemma EnlistNew(streams: Streams, s: Name, p: Name, x: Name, info: string)
    requires s !in streams
    ensures Enlist(streams[s := map[]], s, p, x, info) == Enlist(streams, s, p, x, info)
  {
  }

  function Visit(sessions: Visitors, x: Name, s: Name, p: Name): Visitors {
    var v := if x in sessions then sessions[x] else Visitor(map[], 0);
    sessions[x := v.(streams := v.streams[s := p])]
  }

  lemma VisitKeeps(sessions: Visitors, links: map<(Name, Name), Name>, deadlines: map<Name, int>,
                   x: Name, s: Name, p: Name)
    requires AreVisitors(sessions, links, deadlines)
    ensures AreVisitors(Visit(sessions, x, s, p), links[(x, s) := p],
      if x in deadlines then deadlines else deadlines[x := 0])
  {
    assert s in Visit(sessions, x, s, p)[x].streams;
  }

  lemma PresentIffLinked(streams: Streams, links: map<(Name, Name), Name>, infos: map<(Name, Name), string>,
                         s: Name, p: Name)
    requires IsIndex(streams, links, infos)
    ensures (s, p) in infos <==> exists x :: Linked(links, x, s, p)
  {
    assert GoodRecord(At(streams, s, p), p, Info(infos, s, p));
    if (s, p) in infos {
      var x := At(streams, s, p).value.sessions[0];
      assert Lists(At(streams, s, p), x);
    }
    if x :| Linked(links, x, s, p) {
      assert Lists(At(streams, s, p), x);
    }
  }

  lemma TrackedIffLinked(sessions: Visitors, links: map<(Name, Name), Name>, deadlines: map<Name, int>, x: Name)
    requires AreVisitors(sessions, links, deadlines)
    ensures x in deadlines <==> exists s :: (x, s) in links
  {
    if x in deadlines {
      var s :| s in sessions[x].streams;
      assert (x, s) in links;
    }
  }

  /** The indexes determine the model: any consistent pair of indexes for the remaining links stands for
      `Without`. */
  lemma RestIsWithout(m: Model, gone: set<(Name, Name)>, streams: Streams, sessions: Visitors, rest: Model)
    requires IsIndex(streams, rest.links, rest.infos) && AreVisitors(sessions, rest.links, rest.deadlines)
    requires rest.links == m.links - gone
    requires forall k :: k in rest.infos ==> k in m.infos && rest.infos[k] == m.infos[k]
    requires forall x :: x in rest.deadlines ==> x in m.deadlines && rest.deadlines[x] == m.deadlines[x]
    ensures rest == Without(m, gone)
  {
    forall s, p
      ensures (s, p) in rest.infos <==> exists x :: Linked(rest.links, x, s, p)
    {
      PresentIffLinked(streams, rest.links, rest.infos, s, p);
    }
    forall x
      ensures x in rest.deadlines <==> exists s :: (x, s) in rest.links
    {
      TrackedIffLinked(sessions, rest.links, rest.deadlines, x);
    }
    PairKeys(rest.infos, Without(m, gone).infos);
  }

  lemma PairKeys(a: map<(Name, Name), string>, b: map<(Name, Name), string>)
    requires forall s, p :: (s, p) in a <==> (s, p) in b
    requires forall k :: k in a && k in b ==> a[k] == b[k]
    ensures a == b
  {
    forall k
      ensures k in a <==> k in b
    {
      assert k == (k.0, k.1);
    }
  }

  function Unvisit(sessions: Visitors, x: Name, s: Name): Visitors
    requires x in sessions
  {
    var left := sessions[x].streams - {s};
    if left == map[] then sessions - {x} else sessions[x := sessions[x].(streams := left)]
  }

  lemma UnvisitKeeps(sessions: Visitors, links: map<(Name, Name), Name>, deadlines: map<Name, int>, x: Name, s: Name)
    requires AreVisitors(sessions, links, deadlines) && x in sessions
    ensures var rest := if sessions[x].streams - {s} == map[] then deadlines - {x} else deadlines;
      AreVisitors(Unvisit(sessions, x, s), links - {(x, s)}, rest)
  {
    var left := sessions[x].streams - {s};
    assert forall t :: t in left <==> t in sessions[x].streams && t != s;
    if left == map[] {
      assert forall t :: t !in left;
    }
  }

  class PresenceState {
    var streams: Streams
    var sessions: Visitors
    const ttl: int
    const blank: Name
    ghost var model: Model

    ghost predicate Valid()
      reads this
    {
      IsIndex(streams, model.links, model.infos) && AreVisitors(sessions, model.links, model.deadlines)
    }

    constructor (ttl: int, blank: Name)
      ensures Valid() && model == Model(map[], map[], map[]) && this.ttl == ttl && this.blank == blank
    {
      this.ttl, this.blank := ttl, blank;
      streams, sessions := map[], map[];
      model := Model(map[], map[], map[]);
    }

    /** `presenceEntry.add`, on a record that is created when it is missing. */
    method AddToRecord(stream: Name, sid: Name, pid: Name, info: string) returns (newPresence: bool)
      requires stream in streams
      modifies this`streams
      ensures newPresence <==> pid !in old(streams[stream])
      ensures streams == Enlist(old(streams), stream, pid, sid, info)
    {
      newPresence := pid !in streams[stream];
      if newPresence {
        streams := streams[stream := streams[stream][pid := Record(pid, info, [])]];
      }
      var entry := streams[stream][pid];
      if sid !in entry.sessions {
        entry := entry.(sessions := entry.sessions + [sid]);
      }
      entry := entry.(info := info);
      streams := streams[stream := streams[stream][pid := entry]];
      assert entry == Enlisted(old(At(streams, stream, pid)), pid, sid, info);
      assert streams[stream] == Enlist(old(streams), stream, pid, sid, info)[stream];
    }

    /** The updates of `PresenceAdd`, refused when the session is in the stream under another id. */
    method Enter(stream: Name, sid: Name, pid: Name, info: string) returns (refused: bool, newPresence: bool)
      requires sid in sessions && stream in sessions[sid].streams ==> stream in streams
      modifies this`streams, this`sessions
      ensures refused <==>
        old(sid in sessions && stream in sessions[sid].streams && sessions[sid].streams[stream] != pid)
      ensures refused ==> streams == old(streams) && sessions == old(sessions)
      ensures !refused ==> streams == Enlist(old(streams), stream, pid, sid, info)
      ensures !refused ==> sessions == Visit(old(sessions), sid, stream, pid)
      ensures !refused ==> (newPresence <==> !(stream in old(streams) && pid in old(streams)[stream]))
    {
      if stream !in streams {
        EnlistNew(streams, stream, pid, sid, info);
        streams := streams[stream := map[]];
      }
      if sid !in sessions {
        sessions := sessions[sid := Visitor(map[], 0)];
      }
      if stream in sessions[sid].streams && sessions[sid].streams[stream] != pid {
        return true, false;
      }
      sessions := sessions[sid := sessions[sid].(streams := sessions[sid].streams[stream := pid])];
      assert sessions == Visit(old(sessions), sid, stream, pid);
      newPresence := AddToRecord(stream, sid, pid, info);
      refused := false;
    }

    method PresenceAdd(stream: Name, sid: Name, pid: Name, info: string) returns (r: Result)
      requires Valid()
      modifies this
      ensures Valid() && (model, r) == AddSpec(old(model), stream, sid, pid, info)
    {
      JoinKeeps(stream, sid, pid, info);
      var refused, newPresence := Enter(stream, sid, pid, info);
      if refused {
        return Err;
      }
      model := Joined(model, stream, sid, pid, info);
      return Ok(if newPresence then Some(Join(stream, pid, info)) else None);
    }

    lemma JoinKeeps(stream: Name, sid: Name, pid: Name, info: string)
      requires Valid()
      ensures (stream, pid) in model.infos <==> stream in streams && pid in streams[stream]
      ensures (sid, stream) in model.links <==> sid in sessions && stream in sessions[sid].streams
      ensures (sid, stream) in model.links ==>
        stream in streams && sessions[sid].streams[stream] == model.links[(sid, stream)]
      ensures ((sid, stream) in model.links ==> model.links[(sid, stream)] == pid) ==>
        var m := Joined(model, stream, sid, pid, info);
        && IsIndex(Enlist(streams, stream, pid, sid, info), m.links, m.infos)
        && AreVisitors(Visit(sessions, sid, stream, pid), m.links, m.deadlines)
    {
      LinkedIsTracked(stream, sid, pid);
      if (sid, stream) !in model.links || model.links[(sid, stream)] == pid {
        EnlistKeepsIndex(streams, model.links, model.infos, stream, pid, sid, info);
        VisitKeeps(sessions, model.links, model.deadlines, sid, stream, pid);
      }
    }

    lemma LinkedIsTracked(stream: Name, sid: Name, pid: Name)
      requires Valid()
      ensures (sid, stream) in model.links <==> sid in sessions && stream in sessions[sid].streams
      ensures (sid, stream) in model.links ==>
        stream in streams && sessions[sid].streams[stream] == model.links[(sid, stream)]
      ensures (stream, pid) in model.infos <==> stream in streams && pid in streams[stream]
    {
      assert GoodRecord(At(streams, stream, pid), pid, Info(model.infos, stream, pid));
      if (sid, stream) in model.links {
        assert Linked(model.links, sid, stream, model.links[(sid, stream)]);
        assert Lists(At(streams, stream, model.links[(sid, stream)]), sid);
      }
    }

    /** `presenceEntry.remove`, and the removal of what it leaves empty. */
    method TakeOut(stream: Name, pid: Name, sid: Name) returns (empty: bool)
      requires stream in streams && pid in streams[stream] && streams[stream][pid].sessions != []
      modifies this`streams
      ensures sid !in old(streams[stream][pid].sessions) ==> streams == old(streams) && !empty
      ensures sid in old(streams[stream][pid].sessions) ==>
        exists i :: && 0 <= i < |old(streams[stream][pid].sessions)| && old(streams[stream][pid].sessions)[i] == sid
                    && streams == Unlist(old(streams), stream, pid, i)
      ensures empty <==> old(streams[stream][pid].sessions) == [sid]
    {
      var entry := streams[stream][pid];
      var i := 0;
      while i < |entry.sessions| && entry.sessions[i] != sid
        invariant i <= |entry.sessions| && sid !in entry.sessions[..i]
      {
        i := i + 1;
      }
      if i == |entry.sessions| {
        return false;
      }
      var left := entry.sessions[..i] + entry.sessions[i + 1..];
      var records := streams[stream][pid := entry.(sessions := left)];
      empty := |left| == 0;
      if empty {
        records := records - {pid};
        assert records == streams[stream] - {pid};
      }
      streams := streams[stream := records];
      if |records| == 0 {
        streams := streams - {stream};
        assert streams == old(streams) - {stream};
      }
      assert streams == Unlist(old(streams), stream, pid, i);
    }

    /** What taking one session out of one stream leaves behind. */
    lemma LeaveKeeps(stream: Name, sid: Name, i: nat)
      requires Valid() && (sid, stream) in model.links
      requires var p := model.links[(sid, stream)];
        && stream in streams && p in streams[stream]
        && i < |streams[stream][p].sessions| && streams[stream][p].sessions[i] == sid
      ensures sid in sessions
      ensures var p, m := model.links[(sid, stream)], Without(model, {(sid, stream)});
        && IsIndex(Unlist(streams, stream, p, i), m.links, m.infos)
        && AreVisitors(Unvisit(sessions, sid, stream), m.links, m.deadlines)
        && ((stream, p) in m.infos <==> streams[stream][p].sessions != [sid])
    {
      var p := model.links[(sid, stream)];
      var last := |streams[stream][p].sessions| == 1;
      UnlistKeepsIndex(streams, model.links, model.infos, stream, p, i);
      UnvisitKeeps(sessions, model.links, model.deadlines, sid, stream);
      var rest := Model(model.links - {(sid, stream)},
                        if last then model.infos - {(stream, p)} else model.infos,
                        if sessions[sid].streams - {stream} == map[] then model.deadlines - {sid} else model.deadlines);
      RestIsWithout(model, {(sid, stream)}, Unlist(streams, stream, p, i), Unvisit(sessions, sid, stream), rest);
    }

    /** What `PresenceRemove` finds, whichever branch it takes. */
    lemma RemoveCases(stream: Name, sid: Name)
      requires Valid()
      ensures sid in sessions <==> sid in model.deadlines
      ensures (sid, stream) in model.links <==> sid in sessions && stream in sessions[sid].streams
      ensures (stream, blank) in model.infos <==> stream in streams && blank in streams[stream]
      ensures stream in streams ==> forall p :: p in streams[stream] ==> streams[stream][p].sessions != []
      ensures sid !in sessions && stream in streams && blank in streams[stream] ==>
        sid !in streams[stream][blank].sessions
      ensures (sid, stream) in model.links ==>
        var p, m := model.links[(sid, stream)], Without(model, {(sid, stream)});
        && sessions[sid].streams[stream] == p && stream in streams && p in streams[stream]
        && sid in streams[stream][p].sessions
        && AreVisitors(Unvisit(sessions, sid, stream), m.links, m.deadlines)
        && ((stream, p) in m.infos <==> streams[stream][p].sessions != [sid])
        && forall i :: 0 <= i < |streams[stream][p].sessions| && streams[stream][p].sessions[i] == sid ==>
          IsIndex(Unlist(streams, stream, p, i), m.links, m.infos)
    {
      LinkedIsTracked(stream, sid, blank);
      if stream in streams {
        forall p | p in streams[stream]
          ensures streams[stream][p].sessions != []
        {
          assert GoodRecord(At(streams, stream, p), p, Info(model.infos, stream, p));
        }
        assert Lists(At(streams, stream, blank), sid) <==> Linked(model.links, sid, stream, blank);
      }
      if (sid, stream) in model.links {
        var p := model.links[(sid, stream)];
        assert Linked(model.links, sid, stream, p);
        assert Lists(At(streams, stream, p), sid);
        forall i | 0 <= i < |streams[stream][p].sessions| && streams[stream][p].sessions[i] == sid
          ensures var m := Without(model, {(sid, stream)});
            && IsIndex(Unlist(streams, stream, p, i), m.links, m.infos)
            && AreVisitors(Unvisit(sessions, sid, stream), m.links, m.deadlines)
            && ((stream, p) in m.infos <==> streams[stream][p].sessions != [sid])
        {
          LeaveKeeps(stream, sid, i);
        }
      }
    }

    /** Forgets the stream in the session's record, and the record with its last stream. */
    method Untrack(stream: Name, sid: Name) returns (pid: Name)
      requires sid in sessions && stream in sessions[sid].streams
      modifies this`sessions
      ensures pid == old(sessions[sid].streams[stream])
      ensures sessions == Unvisit(old(sessions), sid, stream)
    {
      pid := sessions[sid].streams[stream];
      sessions := sessions[sid := sessions[sid].(streams := sessions[sid].streams - {stream})];
      if |sessions[sid].streams| == 0 {
        sessions := sessions - {sid};
        assert sessions == old(sessions) - {sid};
      }
    }

    method PresenceRemove(stream: Name, sid: Name) returns (r: Result)
      requires Valid()
      modifies this
      ensures Valid() && (model, r) == RemoveSpec(old(model), blank, stream, sid)
    {
      RemoveCases(stream, sid);
      r := RemoveFromBoth(stream, sid);
      if (sid, stream) in model.links {
        model := Without(model, {(sid, stream)});
      }
    }

    /** The branches of `PresenceRemove`, on the two indexes alone. */
    method RemoveFromBoth(stream: Name, sid: Name) returns (r: Result)
      requires stream in streams ==> forall p :: p in streams[stream] ==> streams[stream][p].sessions != []
      requires stream in streams && sid !in sessions && blank in streams[stream] ==>
        sid !in streams[stream][blank].sessions
      requires sid in sessions && stream in sessions[sid].streams ==>
        var p := sessions[sid].streams[stream];
        stream in streams && p in streams[stream] && sid in streams[stream][p].sessions
      modifies this`streams, this`sessions
      ensures var linked := old(sid in sessions && stream in sessions[sid].streams);
        if linked then
          var p := old(sessions[sid].streams[stream]);
          var listed := old(streams[stream][p].sessions);
          && sessions == Unvisit(old(sessions), sid, stream)
          && (exists i :: 0 <= i < |listed| && listed[i] == sid && streams == Unlist(old(streams), stream, p, i))
          && r == Ok(if listed == [sid] then Some(Leave(stream, p)) else None)
        else
          && streams == old(streams) && sessions == old(sessions)
          && r == if old(sid !in sessions && stream in streams && blank in streams[stream]) then Ok(None) else Err
    {
      if stream !in streams {
        return Err;
      }
      var pid := blank;
      if sid in sessions {
        if stream !in sessions[sid].streams {
          return Err;
        }
        pid := Untrack(stream, sid);
      }
      if pid !in streams[stream] {
        return Err;
      }
      var empty := TakeOut(stream, pid, sid);
      return Ok(if empty then Some(Leave(stream, pid)) else None);
    }

    method FinishPresence(sid: Name, now: int)
      requires Valid()
      modifies this
      ensures Valid() && model == FinishSpec(old(model), sid, now + ttl)
    {
      if sid in sessions {
        sessions := sessions[sid := sessions[sid].(deadline := now + ttl)];
      }
      model := FinishSpec(model, sid, now + ttl);
    }

    method PresenceInfo(stream: Name, returnRecords: bool) returns (total: nat, records: seq<(Name, string)>)
      requires Valid()
      ensures total == |PresentIn(model, stream)|
      ensures !returnRecords ==> records == []
      ensures returnRecords ==> |records| == total
      ensures returnRecords ==> forall p :: p in PresentIn(model, stream) ==> (p, model.infos[(stream, p)]) in records
    {
      total, records := 0, [];
      forall p
        ensures (stream, p) in model.infos <==> stream in streams && p in streams[stream]
        ensures (stream, p) in model.infos ==>
          streams[stream][p].info == model.infos[(stream, p)] && streams[stream][p].id == p
      {
        assert GoodRecord(At(streams, stream, p), p, Info(model.infos, stream, p));
      }
      if stream !in streams {
        assert PresentIn(model, stream) == {};
        return;
      }
      assert PresentIn(model, stream) == streams[stream].Keys;
      total := |streams[stream]|;
      if returnRecords {
        var todo := streams[stream].Keys;
        while todo != {}
          invariant todo <= streams[stream].Keys && |records| + |todo| == total
          invariant forall p :: p in streams[stream] && p !in todo ==> (p, streams[stream][p].info) in records
          decreases |todo|
        {
          var p :| p in todo;
          var entry := streams[stream][p];
          records := records + [(entry.id, entry.info)];
          todo := todo - {p};
        }
      }
    }

    /** The body of the inner loop of `expirePresence`. */
    method ForgetOne(stream: Name, pid: Name, sid: Name,
                     ghost links: map<(Name, Name), Name>, ghost infos: map<(Name, Name), string>) returns (empty: bool)
      requires IsIndex(streams, links, infos) && Linked(links, sid, stream, pid)
      modifies this`streams
      ensures IsIndex(streams, links - {(sid, stream)}, if empty then infos - {(stream, pid)} else infos)
      ensures (stream, pid) in infos && Thinned(old(streams), streams, {(sid, stream)})
    {
      ForgetStep(streams, links, infos, stream, pid, sid);
      empty := false;
      if stream in streams && pid in streams[stream] {
        empty := TakeOut(stream, pid, sid);
      }
    }

    /** The same, with the leave it makes and what has been forgotten so far. */
    method ForgetIn(stream: Name, pid: Name, sid: Name, leaves: seq<Event>,
                    ghost links: map<(Name, Name), Name>, ghost infos: map<(Name, Name), string>,
                    ghost all: map<(Name, Name), string>, ghost start: Streams, ghost gone: set<(Name, Name)>)
      returns (longer: seq<Event>, ghost left: map<(Name, Name), string>)
      requires IsIndex(streams, links, infos) && Linked(links, sid, stream, pid)
      requires ExactLeaves(leaves, all, infos) && Thinned(start, streams, gone)
      requires forall k :: k in infos ==> k in all && infos[k] == all[k]
      modifies this`streams
      ensures IsIndex(streams, links - {(sid, stream)}, left)
      ensures ExactLeaves(longer, all, left) && Thinned(start, streams, gone + {(sid, stream)})
      ensures forall k :: k in left ==> k in all && left[k] == all[k]
    {
      ghost var before := streams;
      var empty := ForgetOne(stream, pid, sid, links, infos);
      ThinnedThen(start, before, streams, gone, {(sid, stream)});
      longer, left := leaves, infos;
      if empty {
        OneMoreLeave(leaves, all, infos, stream, pid);
        longer, left := leaves + [Leave(stream, pid)], infos - {(stream, pid)};
      }
    }

    /** The inner loop of `expirePresence`: takes a session out of its streams, in any order. */
    method ForgetStreams(sid: Name, entry: Visitor)
      returns (leaves: seq<Event>, ghost links: map<(Name, Name), Name>, ghost infos: map<(Name, Name), string>)
      requires IsIndex(streams, model.links, model.infos)
      requires forall s :: s in entry.streams ==> Linked(model.links, sid, s, entry.streams[s])
      modifies this`streams
      ensures IsIndex(streams, links, infos) && links == model.links - Visited(sid, entry.streams.Keys)
      ensures forall k :: k in infos ==> k in model.infos && infos[k] == model.infos[k]
      ensures ExactLeaves(leaves, model.infos, infos)
      ensures Thinned(old(streams), streams, Visited(sid, entry.streams.Keys))
    {
      var todo := entry.streams.Keys;
      links, infos, leaves := model.links, model.infos, [];
      ghost var start, gone: set<(Name, Name)> := streams, {};
      ThinnedNone(start, links, infos);
      while todo != {}
        invariant todo <= entry.streams.Keys && gone == Visited(sid, entry.streams.Keys - todo)
        invariant IsIndex(streams, links, infos) && links == model.links - gone
        invariant forall k :: k in infos ==> k in model.infos && infos[k] == model.infos[k]
        invariant ExactLeaves(leaves, model.infos, infos) && Thinned(start, streams, gone)
        decreases todo
      {
        var stream :| stream in todo;
        VisitedStep(model.links, sid, entry.streams.Keys, todo, stream);
        leaves, infos := ForgetIn(stream, entry.streams[stream], sid, leaves, links, infos, model.infos, start, gone);
        links, gone, todo := links - {(sid, stream)}, gone + {(sid, stream)}, todo - {stream};
      }
      assert entry.streams.Keys - todo == entry.streams.Keys;
    }

    /** The body of the outer loop: forgets an expired session everywhere, and collects a leave for
        everyone who is gone with it. */
    method Forget(sid: Name) returns (leaves: seq<Event>)
      requires Valid() && sid in sessions
      modifies this
      ensures Valid() && model == Without(old(model), LinksOf(old(model), {sid}))
      ensures ExactLeaves(leaves, old(model.infos), model.infos)
      ensures Thinned(old(streams), streams, LinksOf(old(model), {sid})) && sessions == old(sessions) - {sid}
    {
      var entry := sessions[sid];
      VisitorGone(sessions, model, sid);
      ghost var links, infos;
      leaves, links, infos := ForgetStreams(sid, entry);
      sessions := sessions - {sid};
      ghost var rest := Model(links, infos, model.deadlines - {sid});
      RestIsWithout(model, LinksOf(model, {sid}), streams, sessions, rest);
      model := rest;
    }

    /** One round of the outer loop, after the sessions in `done`. */
    method ForgetNext(sid: Name, leaves: seq<Event>, ghost start: Streams, ghost m: Model, ghost done: set<Name>)
      returns (longer: seq<Event>)
      requires Valid() && model == Without(m, LinksOf(m, done)) && ExactLeaves(leaves, m.infos, model.infos)
      requires Thinned(start, streams, LinksOf(m, done))
      requires sid !in done && sid in m.deadlines && exists s :: (sid, s) in m.links
      modifies this
      ensures Valid() && model == Without(m, LinksOf(m, done + {sid})) && ExactLeaves(longer, m.infos, model.infos)
      ensures Thinned(start, streams, LinksOf(m, done + {sid})) && sessions == old(sessions) - {sid}
    {
      ghost var before, mid := model.infos, streams;
      LinksOfMore(m, done, sid);
      ghost var s :| (sid, s) in m.links;
      assert (sid, s) in model.links;
      var more := Forget(sid);
      ThinnedThen(start, mid, streams, LinksOf(m, done), LinksOf(Without(m, LinksOf(m, done)), {sid}));
      ExpireStep(m, done, sid);
      LeavesAppend(leaves, more, m.infos, before, model.infos);
      longer := leaves + more;
    }

    /** `expirePresence`, for every order in which the sessions and their streams are visited: both indexes are
        what they were without the expired sessions, and the leaves are, once each, exactly who is gone. */
    method Expire(now: int) returns (leaves: seq<Event>)
      requires Valid()
      modifies this
      ensures Valid() && model == ExpireSpec(old(model), now)
      ensures ExactLeaves(leaves, old(model.infos), model.infos)
      ensures var expired := Expired(old(model), now);
        sessions == old(sessions) - expired && Thinned(old(streams), streams, LinksOf(old(model), expired))
    {
      ghost var m, start, were := model, streams, sessions;
      var toDelete := set x | x in sessions && 0 < sessions[x].deadline < now;
      ExpireStart(now, toDelete);
      leaves := [];
      ghost var done: set<Name> := {};
      while toDelete != {}
        invariant Valid() && done !! toDelete && done + toDelete == Expired(m, now)
        invariant model == Without(m, LinksOf(m, done))
        invariant ExactLeaves(leaves, m.infos, model.infos)
        invariant sessions == were - done && Thinned(start, streams, LinksOf(m, done))
        decreases |toDelete|
      {
        var sid :| sid in toDelete;
        leaves := ForgetNext(sid, leaves, start, m, done);
        MoveOver(done, toDelete, sid);
        MinusOneMore(were, done, sid);
        done := done + {sid};
        toDelete := toDelete - {sid};
      }
      assert done == Expired(m, now);
    }

    lemma ExpireStart(now: int, toDelete: set<Name>)
      requires Valid() && toDelete == set x | x in sessions && 0 < sessions[x].deadline < now
      ensures toDelete == Expired(model, now)
      ensures model == Without(model, LinksOf(model, {})) && Thinned(streams, streams, LinksOf(model, {}))
      ensures forall x :: x in toDelete ==> x in model.deadlines && exists s :: (x, s) in model.links
    {
      assert LinksOf(model, {}) == {};
      RestIsWithout(model, {}, streams, sessions, model);
      ThinnedNone(streams, model.links, model.infos);
      forall x | x in toDelete
        ensures exists s :: (x, s) in model.links
      {
        TrackedIffLinked(sessions, model.links, model.deadlines, x);
      }
    }
  }

  lemma MinusOneMore(m: Visitors, done: set<Name>, x: Name)
    ensures m - done - {x} == m - (done + {x})
  {
  }

  lemma MoveOver(done: set<Name>, todo: set<Name>, x: Name)
    requires x in todo && done !! todo
    ensures done + {x} + (todo - {x}) == done + todo && done + {x} !! todo - {x}
    ensures |todo - {x}| < |todo|
  {
  }

  lemma VisitedStep(links: map<(Name, Name), Name>, x: Name, all: set<Name>, todo: set<Name>, s: Name)
    requires todo <= all && s in todo
    ensures links - Visited(x, all - todo) - {(x, s)} == links - Visited(x, all - (todo - {s}))
    ensures Visited(x, all - todo) + {(x, s)} == Visited(x, all - (todo - {s}))
    ensures (x, s) in links ==> (x, s) in links - Visited(x, all - todo)
  {
  }

  lemma OneMoreLeave(
      es: seq<Event>, before: map<(Name, Name), string>, after: map<(Name, Name), string>, s: Name, p: Name)
    requires ExactLeaves(es, before, after) && (s, p) in before && (s, p) in after
    ensures ExactLeaves(es + [Leave(s, p)], before, after - {(s, p)})
  {
    var longer := es + [Leave(s, p)];
    assert Leave(s, p) !in es;
    assert forall e :: e in longer <==> e in es || e == Leave(s, p);
  }

  lemma VisitorGone(sessions: Visitors, m: Model, x: Name)
    requires AreVisitors(sessions, m.links, m.deadlines) && x in sessions
    ensures Visited(x, sessions[x].streams.Keys) == LinksOf(m, {x})
    ensures m.links - Visited(x, sessions[x].streams.Keys) == m.links - LinksOf(m, {x})
    ensures AreVisitors(sessions - {x}, m.links - LinksOf(m, {x}), m.deadlines - {x})
    ensures forall s :: s in sessions[x].streams ==> Linked(m.links, x, s, sessions[x].streams[s])
  {
    assert forall k :: k in m.links && k.0 == x ==> k == (x, k.1) && k.1 in sessions[x].streams;
  }

  function PresentIn(m: Model, s: Name): set<Name> {
    set k | k in m.infos && k.0 == s :: k.1
  }

  function Visited(x: Name, streams: set<Name>): set<(Name, Name)> {
    set s | s in streams :: (x, s)
  }

  /** The leaves are, once each, exactly the presences that are in `before` and not in `after`. */
  ghost predicate ExactLeaves(es: seq<Event>, before: map<(Name, Name), string>, after: map<(Name, Name), string>) {
    NoDup(es) && forall e :: e in es <==> e.Leave? && (e.stream, e.id) in before && (e.stream, e.id) !in after
  }

  lemma ForgetStep(streams: Streams, links: map<(Name, Name), Name>, infos: map<(Name, Name), string>,
                   s: Name, p: Name, x: Name)
    requires IsIndex(streams, links, infos) && Linked(links, x, s, p)
    ensures s in streams && p in streams[s] && x in streams[s][p].sessions && (s, p) in infos
    ensures forall i :: 0 <= i < |streams[s][p].sessions| && streams[s][p].sessions[i] == x ==>
      && IsIndex(Unlist(streams, s, p, i), links - {(x, s)},
           if streams[s][p].sessions == [x] then infos - {(s, p)} else infos)
      && Thinned(streams, Unlist(streams, s, p, i), {(x, s)})
  {
    assert Lists(At(streams, s, p), x);
    assert GoodRecord(At(streams, s, p), p, Info(infos, s, p));
    forall i | 0 <= i < |streams[s][p].sessions| && streams[s][p].sessions[i] == x
      ensures IsIndex(Unlist(streams, s, p, i), links - {(x, s)},
        if streams[s][p].sessions == [x] then infos - {(s, p)} else infos)
      ensures Thinned(streams, Unlist(streams, s, p, i), {(x, s)})
    {
      UnlistKeepsIndex(streams, links, infos, s, p, i);
      UnlistThins(streams, links, infos, s, p, i);
    }
  }

  lemma LinksOfMore(m: Model, done: set<Name>, x: Name)
    requires x !in done
    ensures LinksOf(m, done) + LinksOf(Without(m, LinksOf(m, done)), {x}) == LinksOf(m, done + {x})
  {
  }

  /** What is left of a model when its links are. */
  ghost predicate LeftOver(m: Model, links: map<(Name, Name), Name>, a: Model) {
    && a.links == links
    && (forall k :: k in a.infos <==> k in m.infos && exists y :: Linked(links, y, k.0, k.1))
    && (forall k :: k in a.infos ==> a.infos[k] == m.infos[k])
    && (forall y :: y in a.deadlines <==> y in m.deadlines && exists s :: (y, s) in links)
    && (forall y :: y in a.deadlines ==> a.deadlines[y] == m.deadlines[y])
  }

  lemma {:induction false} LeftOverIsOne(m: Model, links: map<(Name, Name), Name>, a: Model, b: Model)
    requires LeftOver(m, links, a) && LeftOver(m, links, b)
    ensures a == b
  {
    assert a.infos.Keys == b.infos.Keys && a.infos == b.infos;
    assert a.deadlines.Keys == b.deadlines.Keys && a.deadlines == b.deadlines;
  }

  lemma {:induction false} LeftOverTwice(
      m: Model, links: map<(Name, Name), Name>, mid: Model, fewer: map<(Name, Name), Name>, a: Model)
    requires LeftOver(m, links, mid) && LeftOver(mid, fewer, a)
    requires forall k :: k in fewer ==> k in links && fewer[k] == links[k]
    ensures LeftOver(m, fewer, a)
  {
    forall k | k in m.infos && exists y :: Linked(fewer, y, k.0, k.1)
      ensures k in mid.infos
    {
      var y :| Linked(fewer, y, k.0, k.1);
      assert Linked(links, y, k.0, k.1);
    }
    forall y | y in m.deadlines && exists s :: (y, s) in fewer
      ensures y in mid.deadlines
    {
      var s :| (y, s) in fewer;
      assert (y, s) in links;
    }
  }

  lemma {:induction false} WithoutIsLeftOver(m: Model, gone: set<(Name, Name)>)
    ensures LeftOver(m, m.links - gone, Without(m, gone))
  {
  }

  lemma {:induction false} ExpireStep(m: Model, done: set<Name>, x: Name)
    ensures var mid := Without(m, LinksOf(m, done));
      Without(mid, LinksOf(mid, {x})) == Without(m, LinksOf(m, done + {x}))
  {
    var mid := Without(m, LinksOf(m, done));
    var fewer := m.links - LinksOf(m, done + {x});
    assert mid.links - LinksOf(mid, {x}) == fewer;
    WithoutIsLeftOver(m, LinksOf(m, done));
    WithoutIsLeftOver(mid, LinksOf(mid, {x}));
    LeftOverTwice(m, mid.links, mid, fewer, Without(mid, LinksOf(mid, {x})));
    WithoutIsLeftOver(m, LinksOf(m, done + {x}));
    LeftOverIsOne(m, fewer, Without(mid, LinksOf(mid, {x})), Without(m, LinksOf(m, done + {x})));
  }

  lemma LeavesAppend(es: seq<Event>, more: seq<Event>, before: map<(Name, Name), string>,
                     mid: map<(Name, Name), string>, after: map<(Name, Name), string>)
    requires ExactLeaves(es, before, mid) && ExactLeaves(more, mid, after)
    requires mid.Keys <= before.Keys && after.Keys <= mid.Keys
    ensures ExactLeaves(es + more, before, after)
  {
    assert forall e :: e in es + more <==> e in es || e in more;
    assert forall e :: e in es ==> e !in more;
    var all := es + more;
    forall i, j | 0 <= i < j < |all|
      ensures all[i] != all[j]
    {
      if i < |es| <= j {
        assert all[i] in es && all[j] in more;
      }
    }
  }

  /** Someone leaves in an expiry pass if and only if they were present and all their sessions in that
      stream had expired. */
  lemma LeaveIffAllExpired(m: Model, now: int, s: Name, p: Name)
    requires (s, p) in m.infos
    ensures (s, p) !in ExpireSpec(m, now).infos <==> forall x :: Linked(m.links, x, s, p) ==> x in Expired(m, now)
  {
    var gone := LinksOf(m, Expired(m, now));
    forall x
      ensures Linked(m.links - gone, x, s, p) <==> Linked(m.links, x, s, p) && x !in Expired(m, now)
    {
    }
  }

  // Every run.

  datatype Op =
    | Add(stream: Name, sid: Name, pid: Name, info: string)
    | Remove(stream: Name, sid: Name)
    | Finish(sid: Name, deadline: int)
    | Pass(now: int)

  function Events(r: Result): seq<Event> {
    if r.Ok? && r.event.Some? then [r.event.value] else []
  }

  /** One operation, and the events it makes. A pass may make its leaves in any order. */
  ghost predicate Steps(blank: Name, m: Model, op: Op, es: seq<Event>, m': Model) {
    match op
    case Add(s, x, p, info) => m' == AddSpec(m, s, x, p, info).0 && es == Events(AddSpec(m, s, x, p, info).1)
    case Remove(s, x) => m' == RemoveSpec(m, blank, s, x).0 && es == Events(RemoveSpec(m, blank, s, x).1)
    case Finish(x, deadline) => m' == FinishSpec(m, x, deadline) && es == []
    case Pass(now) => m' == ExpireSpec(m, now) && ExactLeaves(es, m.infos, m'.infos)
  }

  /** A run from the empty state, with the models after every operation and the events of each. */
  ghost predicate IsRun(blank: Name, ops: seq<Op>, ms: seq<Model>, ess: seq<seq<Event>>) {
    && |ms| == |ops| + 1 && |ess| == |ops|
    && ms[0] == Model(map[], map[], map[])
    && forall i :: 0 <= i < |ops| ==> Steps(blank, ms[i], ops[i], ess[i], ms[i + 1])
  }

  function Flatten(ess: seq<seq<Event>>): seq<Event> {
    if ess == [] then [] else Flatten(ess[..|ess| - 1]) + ess[|ess| - 1]
  }

  /** Someone is present exactly when some session of theirs is. */
  ghost predicate Consistent(m: Model) {
    forall s, p :: (s, p) in m.infos <==> exists x :: Linked(m.links, x, s, p)
  }

  /** The presences after the events, starting from `present`. */
  function Replay(present: set<(Name, Name)>, es: seq<Event>): set<(Name, Name)> {
    if es == [] then present
    else
      var before, e := Replay(present, es[..|es| - 1]), es[|es| - 1];
      if e.Join? then before + {(e.stream, e.id)} else before - {(e.stream, e.id)}
  }

  /** Only someone absent joins, and only someone present leaves. */
  predicate Legal(present: set<(Name, Name)>, es: seq<Event>) {
    es != [] ==>
      var before, e := Replay(present, es[..|es| - 1]), es[|es| - 1];
      Legal(present, es[..|es| - 1]) && (e.Join? <==> (e.stream, e.id) !in before)
  }

  lemma {:induction false} ReplaySplit(present: set<(Name, Name)>, a: seq<Event>, b: seq<Event>)
    ensures Replay(present, a + b) == Replay(Replay(present, a), b)
    ensures Legal(present, a) && Legal(Replay(present, a), b) ==> Legal(present, a + b)
  {
    if b == [] {
      assert a + b == a;
    } else {
      ReplaySplit(present, a, b[..|b| - 1]);
      assert (a + b)[..|a + b| - 1] == a + b[..|b| - 1];
    }
  }

  lemma {:induction false} ReplayLeaves(present: set<(Name, Name)>, es: seq<Event>)
    requires NoDup(es) && forall i :: 0 <= i < |es| ==> es[i].Leave? && (es[i].stream, es[i].id) in present
    ensures Legal(present, es)
    ensures forall s, p :: (s, p) in Replay(present, es) <==> (s, p) in present && Leave(s, p) !in es
    ensures Replay(present, es) <= present
  {
    if es != [] {
      var init, e := es[..|es| - 1], es[|es| - 1];
      ReplayLeaves(present, init);
      assert forall x :: x in es <==> x in init || x == e;
      assert e !in init;
    }
  }

  lemma StepConsistent(blank: Name, m: Model, op: Op, es: seq<Event>, m': Model)
    requires Consistent(m) && Steps(blank, m, op, es, m')
    ensures Consistent(m')
  {
    match op
    case Add(s, x, p, info) =>
      if m' != m {
        assert forall t, q, y :: Linked(m'.links, y, t, q) <==>
          Linked(m.links, y, t, q) || (y == x && t == s && q == p);
        assert Linked(m'.links, x, s, p);
        forall t, q | (t, q) in m'.infos && (t, q) != (s, p)
          ensures exists y :: Linked(m'.links, y, t, q)
        {
          var y :| Linked(m.links, y, t, q);
          assert Linked(m'.links, y, t, q);
        }
      }
    case Remove(s, x) =>
      if m' != m {
        WithoutConsistent(m, {(x, s)});
      }
    case Finish(_, _) =>
    case Pass(now) => WithoutConsistent(m, LinksOf(m, Expired(m, now)));
  }

  lemma WithoutConsistent(m: Model, gone: set<(Name, Name)>)
    requires Consistent(m)
    ensures Consistent(Without(m, gone))
  {
    var after := Without(m, gone);
    forall s, p
      ensures (s, p) in after.infos <==> exists x :: Linked(after.links, x, s, p)
    {
      if x :| Linked(after.links, x, s, p) {
        assert Linked(m.links, x, s, p);
      }
    }
  }

  /** The events of every operation are what happens to the set of presences, and nothing else. */
  lemma {:induction false} StepLegal(blank: Name, m: Model, op: Op, es: seq<Event>, m': Model)
    requires Consistent(m) && Steps(blank, m, op, es, m')
    ensures Legal(m.infos.Keys, es) && Replay(m.infos.Keys, es) == m'.infos.Keys
  {
    match op
    case Add(s, x, p, info) =>
      assert es != [] ==> es[..0] == [];
    case Remove(s, x) =>
      assert es != [] ==> es[..0] == [];
      if (x, s) in m.links {
        RemoveOne(m, s, x);
      }
    case Finish(_, _) =>
    case Pass(now) =>
      ReplayLeaves(m.infos.Keys, es);
      assert forall k :: k in m.infos ==> k == (k.0, k.1);
      assert forall s, p :: (s, p) in Replay(m.infos.Keys, es) <==> (s, p) in m'.infos;
  }

  lemma RemoveOne(m: Model, s: Name, x: Name)
    requires Consistent(m) && (x, s) in m.links
    ensures var p, after := m.links[(x, s)], Without(m, {(x, s)});
      && (s, p) in m.infos
      && after.infos.Keys == if (s, p) in after.infos then m.infos.Keys else m.infos.Keys - {(s, p)}
  {
    var p, after := m.links[(x, s)], Without(m, {(x, s)});
    assert Linked(m.links, x, s, p);
    forall k | k in m.infos && k != (s, p)
      ensures k in after.infos
    {
      assert (k.0, k.1) in m.infos;
      var y :| Linked(m.links, y, k.0, k.1);
      assert Linked(after.links, y, k.0, k.1);
    }
  }

  lemma {:induction false} RunLegal(blank: Name, ops: seq<Op>, ms: seq<Model>, ess: seq<seq<Event>>)
    requires IsRun(blank, ops, ms, ess)
    ensures Consistent(ms[|ops|])
    ensures Legal({}, Flatten(ess)) && Replay({}, Flatten(ess)) == ms[|ops|].infos.Keys
    decreases |ops|
  {
    if ops != [] {
      var n := |ops| - 1;
      RunLegal(blank, ops[..n], ms[..n + 1], ess[..n]);
      StepConsistent(blank, ms[n], ops[n], ess[n], ms[n + 1]);
      StepLegal(blank, ms[n], ops[n], ess[n], ms[n + 1]);
      ReplaySplit({}, Flatten(ess[..n]), ess[n]);
    }
  }

  /** The joins (`true`) and leaves (`false`) of one presence id in one stream. */
  function History(es: seq<Event>, s: Name, p: Name): seq<bool> {
    if es == [] then []
    else
      var e := es[|es| - 1];
      History(es[..|es| - 1], s, p) + if e.stream == s && e.id == p then [e.Join?] else []
  }

  predicate Alternates(bs: seq<bool>) {
    forall i :: 0 <= i < |bs| ==> bs[i] == (i % 2 == 0)
  }

  lemma {:induction false} LegalAlternates(es: seq<Event>, s: Name, p: Name)
    requires Legal({}, es)
    ensures Alternates(History(es, s, p))
    ensures (s, p) in Replay({}, es) <==> |History(es, s, p)| % 2 == 1
  {
    if es != [] {
      LegalAlternates(es[..|es| - 1], s, p);
    }
  }

  function CountIn(es: seq<Event>, s: Name, joins: bool): nat {
    if es == [] then 0
    else
      var e := es[|es| - 1];
      CountIn(es[..|es| - 1], s, joins) + if e.stream == s && e.Join? == joins then 1 else 0
  }

  function In(present: set<(Name, Name)>, s: Name): set<Name> {
    set k | k in present && k.0 == s :: k.1
  }

  lemma {:induction false} LegalTotal(es: seq<Event>, s: Name)
    requires Legal({}, es)
    ensures |In(Replay({}, es), s)| == CountIn(es, s, true) - CountIn(es, s, false)
  {
    if es == [] {
      assert In({}, s) == {};
    } else {
      var init, e := es[..|es| - 1], es[|es| - 1];
      LegalTotal(init, s);
      var before := Replay({}, init);
      InStep(before, e.stream, e.id, s);
    }
  }

  lemma InStep(present: set<(Name, Name)>, t: Name, p: Name, s: Name)
    ensures In(present + {(t, p)}, s) == if t == s then In(present, s) + {p} else In(present, s)
    ensures In(present - {(t, p)}, s) == if t == s then In(present, s) - {p} else In(present, s)
    ensures (s, p) in present <==> p in In(present, s)
  {
    forall q
      ensures q in In(present, s) <==> (s, q) in present
      ensures q in In(present + {(t, p)}, s) <==> (s, q) in present + {(t, p)}
      ensures q in In(present - {(t, p)}, s) <==> (s, q) in present - {(t, p)}
    {
      assert (s, q) in present ==> (s, q).1 in In(present, s);
      assert (s, q) in present + {(t, p)} ==> (s, q).1 in In(present + {(t, p)}, s);
      assert (s, q) in present - {(t, p)} ==> (s, q).1 in In(present - {(t, p)}, s);
    }
  }

  /** Over every run, the joins and leaves of each presence id in each stream strictly alternate, starting
      with a join, and who is present is whoever joined last; and the number present in a stream, which
      is what `PresenceInfo` reports, is its joins minus its leaves. */
  lemma {:induction false} EventsTellPresence(
      blank: Name, ops: seq<Op>, ms: seq<Model>, ess: seq<seq<Event>>, s: Name, p: Name)
    requires IsRun(blank, ops, ms, ess)
    ensures var es, m := Flatten(ess), ms[|ops|];
      && Alternates(History(es, s, p))
      && ((s, p) in m.infos <==> |History(es, s, p)| % 2 == 1)
      && |PresentIn(m, s)| == CountIn(es, s, true) - CountIn(es, s, false)
  {
    RunLegal(blank, ops, ms, ess);
    LegalAlternates(Flatten(ess), s, p);
    LegalTotal(Flatten(ess), s);
    assert PresentIn(ms[|ops|], s) == In(ms[|ops|].infos.Keys, s);
  }
}
