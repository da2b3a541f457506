/**
 Broadcasting and catching up, step by step: publishers store a message and hand it to the hub, the
 hub loop hands it to the gate of its stream, the gate loop fans it out, while sessions subscribe,
 unsubscribe and read history, and the broker expires streams (`broker/memory.go`, `hub/hub.go`,
 `hub/gate.go`, `node/node.go`). Every critical section and every channel operation is one step, and the
 steps interleave in any order.
 */
module Pipeline {
  import opened Basics
  import opened Names
  import B = BrokerSteps
  import History
  import Hub

  /** A place in a stream's log: the stream object it is stored in, and the position there. */
  type Place = (nat, nat)

  /** `origin` is the place of the message in history, for the messages that are stored. */
  datatype Msg = Msg(stream: Name, data: string, exclude: Option<Name>, origin: Option<Place>)

  /** A broadcast in the hub's queue or behind it, numbered in the order of enqueueing. */
  datatype Item = Item(no: nat, msg: Msg)

  /** A publisher inside `HandleBroadcast`: it has looked the stream up, or has stored the message. */
  datatype Publisher = Found(stream: Name, data: string, exclude: Option<Name>) | Ready(msg: Msg)

  /** The hub loop between taking a broadcast, checking the gate, and queueing it there. */
  datatype HubHand = HubIdle | Taken(item: Item) | Passed(item: Item)

  /** The gate loop between taking a broadcast, taking the snapshot, and the sends that are left. */
  datatype GateHand = GateIdle | Took(item: Item) | Sending(item: Item, left: set<(Name, Name)>)

  datatype Gate = Gate(queue: seq<Item>, hand: GateHand)

  /** What the broadcasts in a stream object's log excluded. */
  datatype Stored = Stored(owner: Name, excluded: seq<Option<Name>>)

  datatype Sent = Sent(session: Name, identifier: Name, item: Item)

  /** A session inside `HistoryFrom`, after it has looked up the stream object. */
  datatype Reader = Reader(session: Name, identifier: Name, offset: History.uint64, obj: nat)

  /** `stores` goes along with the broker's stream objects; `enqueued` is all that ever entered the hub's queue. */
  datatype State = State(
    mem: B.State,
    stores: seq<Stored>,
    pubs: map<nat, Publisher>,
    enqueued: seq<Msg>,
    hubQueue: seq<Item>,
    hubHand: HubHand,
    gates: seq<Gate>,
    rel: set<Hub.Triple>,
    sent: seq<Sent>,
    snapshots: map<nat, set<(Name, Name)>>,
    readers: map<nat, Reader>)

  datatype Action =
    | Whisper(pub: nat, msg: Msg)
    | Lookup(pub: nat, stream: Name, data: string, exclude: Option<Name>)
    | Store(pub: nat, now: int)
    | Enqueue(pub: nat)
    | HubTake
    | HubCheck
    | HubForward
    | GateTake(gate: nat)
    | GateSnapshot(gate: nat)
    | GateSend(gate: nat, to: (Name, Name))
    | GateDone(gate: nat)
    | Subscribe(triple: Hub.Triple)
    | Unsubscribe(triple: Hub.Triple)
    | Expiry(step: B.Action)
    | ReadLookup(reader: nat, session: Name, stream: Name, identifier: Name, offset: History.uint64)
    | Read(reader: nat)

  predicate OnGate(a: Action) {
    a.GateTake? || a.GateSnapshot? || a.GateSend? || a.GateDone?
  }

  /** What does not change during a run. */
  datatype World = World(config: History.Config, hash: Name -> nat)

  predicate Good(w: World) {
    w.config.limit >= 1
  }

  function Log(w: World, o: B.Object): seq<History.Entry>
    requires Good(w)
  {
    History.Log(w.config, o.ops)
  }

  function HistoryOf(w: World, o: B.Object, offset: History.uint64): History.Result<seq<History.Entry>>
    requires Good(w)
  {
    History.From(B.Content(w.config, o).data, offset)
  }

  /** The broker's state is sound, its objects and the stores go together, and publishers and readers have
      objects that exist. */
  ghost predicate Sound(s: State) {
    && B.Good(s.mem) && |s.stores| == |s.mem.objects|
    && (forall i :: 0 <= i < |s.stores| ==> s.stores[i].owner == s.mem.objects[i].owner)
    && (forall p :: p in s.pubs && s.pubs[p].Found? ==>
          p in s.mem.held && s.mem.objects[s.mem.held[p]].owner == s.pubs[p].stream)
    && (forall r :: r in s.readers ==> s.readers[r].obj < |s.mem.objects|)
  }

  /** Who gets a broadcast: every subscribed (session, identifier), except for the excluded socket. */
  function Audience(rel: set<Hub.Triple>, msg: Msg): set<(Name, Name)> {
    set t | t in rel && t.0 == msg.stream && msg.exclude != Some(t.1) :: (t.1, t.2)
  }

  predicate HasSubscribers(rel: set<Hub.Triple>, stream: Name) {
    exists t :: t in rel && t.0 == stream
  }

  predicate Enabled(s: State, a: Action) {
    match a
    case Whisper(p, msg) => p !in s.pubs && msg.origin == None
    case Lookup(p, stream, _, _) => p !in s.pubs && B.Enabled(s.mem, B.Lookup(p, stream))
    case Store(p, _) => p in s.pubs && s.pubs[p].Found?
    case Enqueue(p) => p in s.pubs && s.pubs[p].Ready?
    case HubTake => s.hubHand.HubIdle? && s.hubQueue != []
    case HubCheck => s.hubHand.Taken?
    case HubForward => s.hubHand.Passed? && |s.gates| >= 1
    case GateTake(g) => g < |s.gates| && s.gates[g].hand.GateIdle? && s.gates[g].queue != []
    case GateSnapshot(g) => g < |s.gates| && s.gates[g].hand.Took?
    case GateSend(g, to) => g < |s.gates| && s.gates[g].hand.Sending? && to in s.gates[g].hand.left
    case GateDone(g) => g < |s.gates| && s.gates[g].hand.Sending? && s.gates[g].hand.left == {}
    case Subscribe(_) => true
    case Unsubscribe(_) => true
    case Expiry(step) => !step.Lookup? && !step.Append? && B.Enabled(s.mem, step)
    case ReadLookup(r, _, stream, _, _) => r !in s.readers && s.mem.pass.None? && stream in s.mem.current
    case Read(r) => r in s.readers
  }

  function Do(w: World, s: State, a: Action): State
    requires Good(w) && Sound(s) && Enabled(s, a)
  {
    match a
    case Whisper(p, msg) => s.(pubs := s.pubs[p := Ready(msg)])
    case Lookup(p, stream, data, exclude) =>
      s.(mem := B.Do(w.config, s.mem, B.Lookup(p, stream)),
         stores := if stream in s.mem.current then s.stores else s.stores + [Stored(stream, [])],
         pubs := s.pubs[p := Found(stream, data, exclude)])
    case Store(p, now) =>
      var Found(stream, data, exclude) := s.pubs[p];
      var i := s.mem.held[p];
      s.(mem := B.Do(w.config, s.mem, B.Append(p, History.Add(data, now))),
         stores := s.stores[i := s.stores[i].(excluded := s.stores[i].excluded + [exclude])],
         pubs := s.pubs[p := Ready(Msg(stream, data, exclude, Some((i, |s.stores[i].excluded|))))])
    case Enqueue(p) =>
      s.(hubQueue := s.hubQueue + [Item(|s.enqueued|, s.pubs[p].msg)],
         enqueued := s.enqueued + [s.pubs[p].msg], pubs := s.pubs - {p})
    case HubTake => s.(hubHand := Taken(s.hubQueue[0]), hubQueue := s.hubQueue[1..])
    case HubCheck =>
      s.(hubHand := if HasSubscribers(s.rel, s.hubHand.item.msg.stream) then Passed(s.hubHand.item) else HubIdle)
    case HubForward =>
      var g := Hub.Index(w.hash, s.hubHand.item.msg.stream, |s.gates|);
      s.(hubHand := HubIdle, gates := s.gates[g := s.gates[g].(queue := s.gates[g].queue + [s.hubHand.item])])
    case GateTake(g) =>
      s.(gates := s.gates[g := Gate(s.gates[g].queue[1..], Took(s.gates[g].queue[0]))])
    case GateSnapshot(g) =>
      var item := s.gates[g].hand.item;
      var audience := Audience(s.rel, item.msg);
      s.(gates := s.gates[g := s.gates[g].(hand := Sending(item, audience))],
        snapshots := s.snapshots[item.no := audience])
    case GateSend(g, to) =>
      var hand := s.gates[g].hand;
      s.(gates := s.gates[g := s.gates[g].(hand := Sending(hand.item, hand.left - {to}))],
         sent := s.sent + [Sent(to.0, to.1, hand.item)])
    case GateDone(g) => s.(gates := s.gates[g := s.gates[g].(hand := GateIdle)])
    case Subscribe(t) => s.(rel := s.rel + {t})
    case Unsubscribe(t) => s.(rel := s.rel - {t})
    case Expiry(step) => s.(mem := B.Do(w.config, s.mem, step))
    case ReadLookup(r, session, stream, identifier, offset) =>
      s.(readers := s.readers[r := Reader(session, identifier, offset, s.mem.current[stream])])
    case Read(r) => s.(readers := s.readers - {r})
  }

  ghost predicate Init(s: State, gates: nat) {
    && (exists epoch :: s.mem == B.Initial(epoch))
    && s == State(s.mem, [], map[], [], [], HubIdle, seq(gates, i => Gate([], GateIdle)), {}, [], map[], map[])
  }

  /** The states of a run that takes the given actions. */
  ghost predicate IsRun(w: World, gates: nat, acts: seq<Action>, ss: seq<State>)
    requires Good(w)
  {
    && |ss| == |acts| + 1 && Init(ss[0], gates)
    && forall i :: 0 <= i < |acts| ==> Sound(ss[i]) && Enabled(ss[i], acts[i]) && ss[i + 1] == Do(w, ss[i], acts[i])
  }

  lemma SoundLookup(w: World, s: State, a: Action)
    requires Good(w) && Sound(s) && Enabled(s, a) && a.Lookup?
    ensures Sound(Do(w, s, a))
  {
    B.DoGood(w.config, s.mem, B.Lookup(a.pub, a.stream));
  }

  lemma SoundStore(w: World, s: State, a: Action)
    requires Good(w) && Sound(s) && Enabled(s, a) && a.Store?
    ensures Sound(Do(w, s, a))
  {
    B.DoGood(w.config, s.mem, B.Append(a.pub, History.Add(s.pubs[a.pub].data, a.now)));
  }

  lemma SoundExpiry(w: World, s: State, a: Action)
    requires Good(w) && Sound(s) && Enabled(s, a) && a.Expiry?
    ensures Sound(Do(w, s, a))
  {
    B.DoGood(w.config, s.mem, a.step);
  }

  lemma SoundStep(w: World, s: State, a: Action)
    requires Good(w) && Sound(s) && Enabled(s, a)
    ensures Sound(Do(w, s, a))
  {
    if a.Lookup? {
      SoundLookup(w, s, a);
    } else if a.Store? {
      SoundStore(w, s, a);
    } else if a.Expiry? {
      SoundExpiry(w, s, a);
    } else {
      assert Do(w, s, a).mem == s.mem && Do(w, s, a).stores == s.stores;
    }
  }

  /** Soundness is never in the way of a run. */
  lemma RunSound(w: World, gates: nat, acts: seq<Action>, ss: seq<State>, k: nat)
    requires Good(w) && IsRun(w, gates, acts, ss) && k < |ss|
    ensures Sound(ss[k])
  {
    if k > 0 {
      SoundStep(w, ss[k - 1], acts[k - 1]);
    }
  }
}
