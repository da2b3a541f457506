/**
 What a session remembers between commands (`common/common.go`, `SessionEnv`; `node/session.go`) and
 how it survives a reconnect through the session cache.
 */
module SessionState {
  import opened Names
  import Node

  /** Field -> value; an empty value in an update asks for the field to be removed. */
  type Fields = map<Name, string>

  datatype State = State(
    identifiers: string,
    connection: Fields,
    channels: map<Name, Fields>,
    subscriptions: Node.Channels,
    disconnectable: bool)

  const FRESH := State("", map[], map[], map[], false)

  /** The cached form. The encoder in between is taken to be faithful. */
  datatype CacheEntry = CacheEntry(
    identifiers: string,
    subscriptions: map<Name, seq<Name>>,
    connection: Fields,
    channels: map<Name, Fields>,
    disconnectable: bool)

  function Merged(m: Fields, other: Fields): Fields {
    map k | k in m.Keys + other.Keys && (k in other ==> other[k] != "") :: if k in other then other[k] else m[k]
  }

  function FieldsOf(channels: map<Name, Fields>, id: Name): Fields {
    if id in channels then channels[id] else map[]
  }

  function MergedAll(channels: map<Name, Fields>, other: map<Name, Fields>): map<Name, Fields> {
    map id | id in channels.Keys + other.Keys ::
      if id in other then Merged(FieldsOf(channels, id), other[id]) else channels[id]
  }

  function Elements(s: seq<Name>): set<Name> {
    set x | x in s
  }

  function Restored(s: State, e: CacheEntry): State {
    State(
      e.identifiers,
      Merged(s.connection, e.connection),
      MergedAll(s.channels, e.channels),
      s.subscriptions + (map id | id in e.subscriptions :: Elements(e.subscriptions[id])),
      s.disconnectable || e.disconnectable)
  }

  /** `e` is a cached form of `s`: the streams of a channel are listed once each, in any order. */
  ghost predicate IsEntryOf(e: CacheEntry, s: State) {
    && e.identifiers == s.identifiers && e.connection == s.connection && e.channels == s.channels
    && e.disconnectable == s.disconnectable
    && e.subscriptions.Keys == s.subscriptions.Keys
    && forall id :: id in e.subscriptions ==> Lists(e.subscriptions[id], s.subscriptions[id])
  }

  ghost predicate Lists(streams: seq<Name>, all: set<Name>) {
    |streams| == |all| && forall x :: x in streams <==> x in all
  }

  // The environment, updated in place.

  class SessionEnv {
    var identifiers: string
    var connectionState: Fields
    var channelStates: map<Name, Fields>

    constructor ()
      ensures identifiers == "" && connectionState == map[] && channelStates == map[]
    {
      identifiers, connectionState, channelStates := "", map[], map[];
    }

    method MergeConnectionState(other: Fields)
      modifies this`connectionState
      ensures connectionState == Merged(old(connectionState), other)
    {
      connectionState := MergeFields(connectionState, other);
    }

    method MergeChannelState(id: Name, other: Fields)
      modifies this`channelStates
      ensures channelStates == old(channelStates)[id := Merged(FieldsOf(old(channelStates), id), other)]
    {
      if id !in channelStates {
        channelStates := channelStates[id := map[]];
      }
      var fields := MergeFields(channelStates[id], other);
      channelStates := channelStates[id := fields];
    }

    method RemoveChannelState(id: Name)
      modifies this`channelStates
      ensures channelStates == old(channelStates) - {id}
    {
      channelStates := channelStates - {id};
    }

    method GetChannelStateField(id: Name, field: Name) returns (value: string)
      ensures value == Field(FieldsOf(channelStates, id), field)
    {
      if id !in channelStates {
        return "";
      }
      return if field in channelStates[id] then channelStates[id][field] else "";
    }
  }

  /** Field by field, in any order. */
  method MergeFields(m: Fields, other: Fields) returns (r: Fields)
    ensures r == Merged(m, other)
  {
    r := m;
    var todo := other.Keys;
    while todo != {}
      invariant todo <= other.Keys
      invariant forall k :: k in other && k !in todo ==> (k in r <==> other[k] != "") && (k in r ==> r[k] == other[k])
      invariant forall k :: k in todo || k !in other ==> (k in r <==> k in m) && (k in r ==> r[k] == m[k])
      decreases |todo|
    {
      var k :| k in todo;
      if other[k] == "" {
        r := r - {k};
      } else {
        r := r[k := other[k]];
      }
      todo := todo - {k};
    }
  }

  /** The channel states when all of `other` but the channels in `todo` has been merged. */
  ghost predicate PartlyMerged(
      start: map<Name, Fields>, other: map<Name, Fields>, todo: set<Name>, now: map<Name, Fields>) {
    && (forall id :: id in now <==> id in start || (id in other && id !in todo))
    && (forall id :: id in now ==>
          now[id] == if id in other && id !in todo then Merged(FieldsOf(start, id), other[id]) else start[id])
  }

  lemma MergeOneMore(
      start: map<Name, Fields>, other: map<Name, Fields>, todo: set<Name>, now: map<Name, Fields>, id: Name)
    requires PartlyMerged(start, other, todo, now) && id in todo && id in other
    ensures PartlyMerged(start, other, todo - {id}, now[id := Merged(FieldsOf(now, id), other[id])])
  {
    assert FieldsOf(now, id) == FieldsOf(start, id);
  }

  lemma AllMerged(start: map<Name, Fields>, other: map<Name, Fields>, now: map<Name, Fields>)
    requires PartlyMerged(start, other, {}, now)
    ensures now == MergedAll(start, other)
  {
  }

  ghost predicate PartlyListed(start: Node.Channels, lists: map<Name, seq<Name>>, todo: set<Name>, now: Node.Channels) {
    && (forall id :: id in now <==> id in start || (id in lists && id !in todo))
    && (forall id :: id in now ==> now[id] == if id in lists && id !in todo then Elements(lists[id]) else start[id])
  }

  lemma AllListed(start: Node.Channels, lists: map<Name, seq<Name>>, now: Node.Channels)
    requires PartlyListed(start, lists, {}, now)
    ensures now == start + (map id | id in lists :: Elements(lists[id]))
  {
  }

  class Session {
    const env: SessionEnv
    const subscriptions: Node.SubscriptionState
    var disconnectInterest: bool

    ghost function View(): State
      reads this, env, subscriptions
    {
      State(env.identifiers, env.connectionState, env.channelStates, subscriptions.channels, disconnectInterest)
    }

    constructor ()
      ensures fresh(env) && fresh(subscriptions) && View() == FRESH
    {
      env := new SessionEnv();
      subscriptions := new Node.SubscriptionState();
      disconnectInterest := false;
    }

    method MarkDisconnectable(val: bool)
      modifies this
      ensures View() == old(View()).(disconnectable := old(disconnectInterest) || val)
    {
      disconnectInterest := disconnectInterest || val;
    }

    method ToCacheEntry() returns (e: CacheEntry)
      ensures IsEntryOf(e, View())
    {
      var listed: map<Name, seq<Name>> := map[];
      var todo := subscriptions.channels.Keys;
      while todo != {}
        invariant todo <= subscriptions.channels.Keys && listed.Keys == subscriptions.channels.Keys - todo
        invariant forall id :: id in listed ==> Lists(listed[id], subscriptions.channels[id])
        decreases |todo|
      {
        var id :| id in todo;
        var streams := subscriptions.StreamsFor(id);
        listed := listed[id := streams];
        todo := todo - {id};
      }
      e := CacheEntry(env.identifiers, listed, env.connectionState, env.channelStates, disconnectInterest);
    }

    method RestoreFromCache(e: CacheEntry)
      modifies this, env, subscriptions
      ensures View() == Restored(old(View()), e)
    {
      MarkDisconnectable(e.disconnectable);
      env.identifiers := e.identifiers;
      env.MergeConnectionState(e.connection);
      RestoreChannelStates(e.channels);
      RestoreSubscriptions(e.subscriptions);
    }

    method RestoreChannelStates(other: map<Name, Fields>)
      modifies env`channelStates
      ensures env.channelStates == MergedAll(old(env.channelStates), other)
    {
      ghost var start := env.channelStates;
      var todo := other.Keys;
      while todo != {}
        invariant todo <= other.Keys && PartlyMerged(start, other, todo, env.channelStates)
        decreases |todo|
      {
        var id :| id in todo;
        MergeOneMore(start, other, todo, env.channelStates, id);
        env.MergeChannelState(id, other[id]);
        todo := todo - {id};
      }
      AllMerged(start, other, env.channelStates);
    }

    method RestoreSubscriptions(lists: map<Name, seq<Name>>)
      modifies subscriptions
      ensures subscriptions.channels == old(subscriptions.channels) + (map id | id in lists :: Elements(lists[id]))
    {
      var todo := lists.Keys;
      while todo != {}
        invariant todo <= lists.Keys && PartlyListed(old(subscriptions.channels), lists, todo, subscriptions.channels)
        decreases |todo|
      {
        var id :| id in todo;
        RestoreChannel(id, lists[id]);
        todo := todo - {id};
      }
      AllListed(old(subscriptions.channels), lists, subscriptions.channels);
    }

    method RestoreChannel(id: Name, streams: seq<Name>)
      modifies subscriptions
      ensures subscriptions.channels == old(subscriptions.channels)[id := Elements(streams)]
    {
      subscriptions.AddChannel(id);
      assert Elements(streams[..0]) == {};
      for k := 0 to |streams|
        invariant subscriptions.channels == old(subscriptions.channels)[id := Elements(streams[..k])]
      {
        assert Elements(streams[..k + 1]) == Elements(streams[..k]) + {streams[k]};
        subscriptions.AddChannelStream(id, streams[k]);
      }
      assert streams[..|streams|] == streams;
    }
  }

  // What the merges promise.

  /** The value of a field; a missing field reads as the empty string. */
  function Field(m: Fields, k: Name): string {
    if k in m then m[k] else ""
  }

  predicate NoEmpty(m: Fields) {
    forall k :: k in m ==> m[k] != ""
  }

  predicate Clean(s: State) {
    NoEmpty(s.connection) && forall id :: id in s.channels ==> NoEmpty(s.channels[id])
  }

  /** A merge overwrites the fields it names and no others, whatever it is given. */
  lemma MergeOverwrites(m: Fields, other: Fields, k: Name)
    ensures Field(Merged(m, other), k) == if k in other then other[k] else Field(m, k)
    ensures NoEmpty(m) ==> NoEmpty(Merged(m, other))
  {
  }

  /** A restore into any session, read back: the identifiers are the cached ones, the cached fields and channels
      overwrite those of the same name, and the rest stays. */
  lemma {:induction false} RestoreOverwrites(s: State, e: CacheEntry, id: Name, k: Name)
    ensures var a := Restored(s, e);
      && a.identifiers == e.identifiers && (a.disconnectable <==> s.disconnectable || e.disconnectable)
      && (Field(a.connection, k) == if k in e.connection then e.connection[k] else Field(s.connection, k))
      && (Field(FieldsOf(a.channels, id), k) ==
            if id in e.channels && k in e.channels[id] then e.channels[id][k] else Field(FieldsOf(s.channels, id), k))
      && (id in a.channels <==> id in s.channels || id in e.channels)
      && (id in a.subscriptions <==> id in s.subscriptions || id in e.subscriptions)
      && (id in e.subscriptions ==> forall t :: t in a.subscriptions[id] <==> t in e.subscriptions[id])
      && (id in s.subscriptions && id !in e.subscriptions ==> a.subscriptions[id] == s.subscriptions[id])
  {
    MergeOverwrites(s.connection, e.connection, k);
    if id in e.channels {
      MergeOverwrites(FieldsOf(s.channels, id), e.channels[id], k);
    }
  }

  lemma FromNothing(other: Fields)
    ensures Merged(map[], other) == other <==> NoEmpty(other)
  {
    if k :| k in other && other[k] == "" {
      assert k !in Merged(map[], other);
    }
  }

  lemma AllFromNothing(other: map<Name, Fields>)
    ensures MergedAll(map[], other) == other <==> forall id :: id in other ==> NoEmpty(other[id])
  {
    forall id | id in other
      ensures MergedAll(map[], other)[id] == other[id] <==> NoEmpty(other[id])
    {
      FromNothing(other[id]);
    }
  }

  lemma SubscriptionsFromNothing(e: CacheEntry, s: State)
    requires IsEntryOf(e, s)
    ensures Restored(FRESH, e).subscriptions == s.subscriptions
  {
    forall id | id in s.subscriptions
      ensures Elements(e.subscriptions[id]) == s.subscriptions[id]
    {
      assert Lists(e.subscriptions[id], s.subscriptions[id]);
    }
  }

  /** A new session restored from the cached form of another one equals it exactly when the other holds
      no empty value. */
  lemma RestoreExactIff(s: State, e: CacheEntry)
    requires IsEntryOf(e, s)
    ensures Restored(FRESH, e) == s <==> Clean(s)
  {
    SubscriptionsFromNothing(e, s);
    FromNothing(s.connection);
    AllFromNothing(s.channels);
  }

  // Every run of a session.

  datatype Op =
    | MergeConnection(other: Fields)
    | MergeChannel(id: Name, other: Fields)
    | RemoveChannelState(id: Name)
    | SetIdentifiers(ids: string)
    | Mark(val: bool)
    | SetSubscriptions(channels: Node.Channels)
    | Restore(entry: CacheEntry)

  function Step(s: State, op: Op): State {
    match op
    case MergeConnection(other) => s.(connection := Merged(s.connection, other))
    case MergeChannel(id, other) => s.(channels := s.channels[id := Merged(FieldsOf(s.channels, id), other)])
    case RemoveChannelState(id) => s.(channels := s.channels - {id})
    case SetIdentifiers(ids) => s.(identifiers := ids)
    case Mark(val) => s.(disconnectable := s.disconnectable || val)
    case SetSubscriptions(ch) => s.(subscriptions := ch)
    case Restore(e) => Restored(s, e)
  }

  function Run(ops: seq<Op>): State {
    if ops == [] then FRESH else Step(Run(ops[..|ops| - 1]), ops[|ops| - 1])
  }

  lemma StepClean(s: State, op: Op)
    requires Clean(s)
    ensures Clean(Step(s, op))
  {
    if op.Restore? {
      forall id | id in s.channels || id in op.entry.channels
        ensures NoEmpty(MergedAll(s.channels, op.entry.channels)[id])
      {
        assert NoEmpty(FieldsOf(s.channels, id));
      }
    }
  }

  lemma {:induction false} RunClean(ops: seq<Op>)
    ensures Clean(Run(ops))
  {
    if ops != [] {
      RunClean(ops[..|ops| - 1]);
      StepClean(Run(ops[..|ops| - 1]), ops[|ops| - 1]);
    }
  }

  /** Whatever a session has been through, a new session restored from its cached form is the same. */
  lemma {:induction false} RestoreReproduces(ops: seq<Op>, e: CacheEntry)
    requires IsEntryOf(e, Run(ops))
    ensures Restored(FRESH, e) == Run(ops)
  {
    RunClean(ops);
    RestoreExactIff(Run(ops), e);
  }
}
