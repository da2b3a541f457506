/**
 The close protocol of a session (`node/session.go`): the critical sections of sending, disconnecting
 and writing, interleaved in every order by any number of goroutines.
 */
module SessionClose {

  const CAPACITY := 256

  const CLOSE_NORMAL := 1000

  const CLOSE_ABNORMAL := 1006

  datatype Frame = Data(payload: string) | Close(code: int)

  /** What the session's mutex protects. `open` belongs to the channel and `hasChannel` to the session's
      reference to it; `enqueued`, `closings`, `executed` and `written` record what has happened. */
  datatype Core = Core(
    hasChannel: bool,
    open: bool,
    queue: seq<Frame>,
    connected: bool,
    closed: bool,
    enqueued: seq<Frame>,
    closings: nat,
    executed: nat,
    written: seq<Frame>,
    panicked: bool)

  const NEW := Core(true, true, [], false, false, [], 0, 0, [], false)

  /** One critical section, or one call made outside of them. */
  datatype Action =
    | SendFrame(frame: Frame)
    | MarkClosed
    | LeaveNode
    | ExecutorDisconnect
    | CheckConnected(code: int)
    | WriteClose(code: int)
    | CloseChannel

  datatype Call = Send(frame: Frame) | Disconnect(code: int) | DisconnectNow(code: int)

  function Program(call: Call): seq<Action> {
    match call
    case Send(f) => [SendFrame(f)]
    case Disconnect(code) => [SendFrame(Close(code)), MarkClosed, LeaveNode]
    case DisconnectNow(code) => [CheckConnected(code)]
  }

  function Programs(calls: seq<Call>): seq<Action> {
    if calls == [] then [] else Program(calls[0]) + Programs(calls[1..])
  }

  /** Closing a closed channel panics, and so does sending on one. */
  function ClosedChannel(c: Core): Core {
    c.(hasChannel := false, open := false, closings := c.closings + 1, panicked := c.panicked || !c.open)
  }

  /** The effect of an action, and what its goroutine does next because of it. */
  function Act(c: Core, a: Action): (Core, seq<Action>) {
    match a
    case SendFrame(f) =>
      if !c.hasChannel then (c, [])
      else if !c.open then (c.(panicked := true), [])
      else if |c.queue| < CAPACITY then (c.(queue := c.queue + [f], enqueued := c.enqueued + [f]), [])
      else (ClosedChannel(c), Program(Disconnect(CLOSE_ABNORMAL)))
    case MarkClosed => (c.(closed := true), [])
    case LeaveNode => (c.(connected := false), if c.connected then [ExecutorDisconnect] else [])
    case ExecutorDisconnect => (c.(executed := c.executed + 1), [])
    case CheckConnected(code) =>
      (c, if c.connected then [LeaveNode, WriteClose(code), CloseChannel, MarkClosed] else [])
    case WriteClose(code) => (c.(written := c.written + [Close(code)]), [])
    case CloseChannel => (if c.hasChannel then ClosedChannel(c) else c, [])
  }

  // Termination: the work an action still has in it.

  function Weight(hasChannel: bool, a: Action): nat {
    match a
    case SendFrame(_) => if hasChannel then 5 else 1
    case LeaveNode => 2
    case CheckConnected(_) => 6
    case _ => 1
  }

  function Work(hasChannel: bool, todo: seq<Action>): nat {
    if todo == [] then 0 else Weight(hasChannel, todo[0]) + Work(hasChannel, todo[1..])
  }

  lemma {:induction false} WorkConcat(h: bool, p: seq<Action>, q: seq<Action>)
    ensures Work(h, p + q) == Work(h, p) + Work(h, q)
  {
    if p == [] {
      assert p + q == q;
    } else {
      assert (p + q)[1..] == p[1..] + q;
      WorkConcat(h, p[1..], q);
    }
  }

  /** Losing the channel only ever makes the remaining work smaller. */
  lemma {:induction false} WorkShrinks(h: bool, h': bool, todo: seq<Action>)
    requires h' ==> h
    ensures Work(h', todo) <= Work(h, todo)
  {
    if todo != [] {
      WorkShrinks(h, h', todo[1..]);
    }
  }

  lemma {:induction false} WorkOf(h: bool, todo: seq<Action>)
    requires |todo| == 3 || |todo| == 4
    ensures Work(h, todo) == Weight(h, todo[0]) + Weight(h, todo[1]) + Weight(h, todo[2]) +
                             if |todo| == 4 then Weight(h, todo[3]) else 0
  {
    assert todo[1..][1..] == todo[2..] && todo[2..][1..] == todo[3..];
    assert Work(h, todo[1..]) == Weight(h, todo[1]) + Work(h, todo[2..]);
    assert Work(h, todo[2..]) == Weight(h, todo[2]) + Work(h, todo[3..]);
    if |todo| == 4 {
      assert todo[3..] == [todo[3]] && [todo[3]][1..] == [];
      assert Work(h, [todo[3]]) == Weight(h, todo[3]) + Work(h, []);
    }
  }

  lemma ActWorks(c: Core, a: Action)
    ensures var (c', more) := Act(c, a);
      (c'.hasChannel ==> c.hasChannel) && Work(c'.hasChannel, more) < Weight(c.hasChannel, a)
  {
    var (c', more) := Act(c, a);
    if |more| > 1 {
      WorkOf(c'.hasChannel, more);
    }
  }

  /** Every action leaves its goroutine with strictly less to do. */
  lemma {:induction false} StepWorks(c: Core, todo: seq<Action>)
    requires todo != []
    ensures var (c', more) := Act(c, todo[0]);
      Work(c'.hasChannel, more + todo[1..]) < Work(c.hasChannel, todo)
  {
    var (c', more) := Act(c, todo[0]);
    ActWorks(c, todo[0]);
    WorkConcat(c'.hasChannel, more, todo[1..]);
    WorkShrinks(c.hasChannel, c'.hasChannel, todo[1..]);
  }

  // One goroutine running by itself: the session as the code writes it.

  function Alone(c: Core, todo: seq<Action>): Core
    decreases Work(c.hasChannel, todo)
  {
    if todo == [] then c
    else
      StepWorks(c, todo);
      var (c', more) := Act(c, todo[0]);
      Alone(c', more + todo[1..])
  }

  lemma {:induction false} AloneConcat(c: Core, p: seq<Action>, q: seq<Action>)
    ensures Alone(c, p + q) == Alone(Alone(c, p), q)
    decreases Work(c.hasChannel, p)
  {
    if p == [] {
      assert p + q == q;
    } else {
      var (c', more) := Act(c, p[0]);
      StepWorks(c, p);
      assert more + (p + q)[1..] == more + p[1..] + q;
      AloneConcat(c', more + p[1..], q);
    }
  }

  lemma {:induction false} AloneOne(c: Core, a: Action, rest: seq<Action>)
    ensures var (c', more) := Act(c, a); Alone(c, [a] + rest) == Alone(Alone(c', more), rest)
  {
    var (c', more) := Act(c, a);
    assert ([a] + rest)[1..] == rest;
    AloneConcat(c', more, rest);
  }

  // What the calls achieve.

  lemma {:induction false} AloneThree(c: Core, a: Action, b: Action, d: Action)
    ensures Alone(c, [a, b, d]) == Alone(Alone(Alone(c, [a]), [b]), [d])
  {
    assert [a, b, d] == [a] + ([b] + [d]);
    AloneConcat(c, [a], [b] + [d]);
    AloneConcat(Alone(c, [a]), [b], [d]);
  }

  lemma {:induction false} AloneFour(c: Core, a: Action, b: Action, d: Action, e: Action)
    ensures Alone(c, [a, b, d, e]) == Alone(Alone(Alone(Alone(c, [a]), [b]), [d]), [e])
  {
    assert [a, b, d, e] == [a] + [b, d, e];
    AloneConcat(c, [a], [b, d, e]);
    AloneThree(Alone(c, [a]), b, d, e);
  }

  lemma {:induction false} LeaveEffect(c: Core)
    ensures Alone(c, [LeaveNode]) ==
      c.(connected := false, executed := if c.connected then c.executed + 1 else c.executed)
  {
    AloneOne(c, LeaveNode, []);
    AloneOne(c.(connected := false), ExecutorDisconnect, []);
  }

  lemma {:induction false} MarkEffect(c: Core)
    ensures Alone(c, [MarkClosed]) == c.(closed := true)
  {
    AloneOne(c, MarkClosed, []);
  }

  /** A disconnect leaves the session closed and off the node, with the executor told if it was on it. */
  lemma DisconnectEffect(c: Core, code: int)
    requires c.hasChannel ==> c.open && |c.queue| < CAPACITY
    ensures Alone(c, Program(Disconnect(code))) ==
      var sent :=
        if c.hasChannel then c.(queue := c.queue + [Close(code)], enqueued := c.enqueued + [Close(code)]) else c;
      sent.(closed := true, connected := false, executed := if c.connected then c.executed + 1 else c.executed)
  {
    AloneThree(c, SendFrame(Close(code)), MarkClosed, LeaveNode);
    AloneOne(c, SendFrame(Close(code)), []);
    var sent := Act(c, SendFrame(Close(code))).0;
    MarkEffect(sent);
    LeaveEffect(sent.(closed := true));
  }

  /** A send that finds the channel full loses its frame, closes the channel and disconnects the session;
      the close frame of that disconnect is lost too. Otherwise the frame is queued, if there is a channel. */
  lemma {:induction false} SendEffect(c: Core, f: Frame)
    requires c.hasChannel ==> c.open
    ensures Alone(c, Program(Send(f))) ==
      if !c.hasChannel then c
      else if |c.queue| < CAPACITY then c.(queue := c.queue + [f], enqueued := c.enqueued + [f])
      else c.(hasChannel := false, open := false, closings := c.closings + 1, closed := true, connected := false,
              executed := if c.connected then c.executed + 1 else c.executed)
  {
    AloneOne(c, SendFrame(f), []);
    if c.hasChannel && |c.queue| >= CAPACITY {
      DisconnectEffect(ClosedChannel(c), CLOSE_ABNORMAL);
    }
  }

  /** The same for every state of the channel: a full one is closed, and the executor is still told once. */
  lemma {:induction false} DisconnectAlways(c: Core, code: int)
    requires c.hasChannel ==> c.open
    ensures var after := Alone(c, Program(Disconnect(code)));
      && after.closed && !after.connected
      && after.executed == c.executed + (if c.connected then 1 else 0)
      && after.hasChannel == (c.hasChannel && |c.queue| < CAPACITY)
      && after.enqueued == if after.hasChannel then c.enqueued + [Close(code)] else c.enqueued
  {
    AloneThree(c, SendFrame(Close(code)), MarkClosed, LeaveNode);
    SendEffect(c, Close(code));
    var sent := Alone(c, [SendFrame(Close(code))]);
    MarkEffect(sent);
    LeaveEffect(sent.(closed := true));
  }

  /** An immediate disconnect of a connected session tells the executor, writes the close frame itself, and
      leaves the session closed without a channel; of any other session it does nothing. */
  lemma {:induction false} DisconnectNowEffect(c: Core, code: int)
    requires c.hasChannel ==> c.open
    ensures Alone(c, Program(DisconnectNow(code))) ==
      if !c.connected then c
      else c.(connected := false, executed := c.executed + 1, written := c.written + [Close(code)], closed := true,
              hasChannel := false, open := c.open && !c.hasChannel,
              closings := if c.hasChannel then c.closings + 1 else c.closings)
  {
    AloneOne(c, CheckConnected(code), []);
    if c.connected {
      AloneFour(c, LeaveNode, WriteClose(code), CloseChannel, MarkClosed);
      LeaveEffect(c);
      var told := Alone(c, [LeaveNode]);
      AloneOne(told, WriteClose(code), []);
      var wrote := told.(written := c.written + [Close(code)]);
      AloneOne(wrote, CloseChannel, []);
      MarkEffect(Alone(wrote, [CloseChannel]));
    }
  }

  class Channel {
    var buffer: seq<Frame>
    var closed: bool

    constructor ()
      ensures buffer == [] && !closed
    {
      buffer, closed := [], false;
    }

    /** Sending on a closed channel panics. */
    method TrySend(f: Frame) returns (sent: bool)
      requires !closed
      modifies this
      ensures sent == (|old(buffer)| < CAPACITY) && !closed
      ensures buffer == if sent then old(buffer) + [f] else old(buffer)
    {
      sent := |buffer| < CAPACITY;
      if sent {
        buffer := buffer + [f];
      }
    }

    /** Closing a closed channel panics. */
    method CloseOnce()
      requires !closed
      modifies this
      ensures closed && buffer == old(buffer)
    {
      closed := true;
    }
  }

  class Session {
    const channel: Channel
    var sendCh: Channel?
    var connected: bool
    var closed: bool
    var written: seq<Frame>
    ghost var enqueued: seq<Frame>
    ghost var closings: nat
    ghost var executed: nat

    ghost predicate Valid()
      reads this, channel
    {
      (sendCh == null || sendCh == channel) && (sendCh == null <==> channel.closed)
    }

    ghost function View(): Core
      reads this, channel
    {
      Core(sendCh != null, !channel.closed, channel.buffer, connected, closed,
        enqueued, closings, executed, written, false)
    }

    constructor ()
      ensures Valid() && View() == NEW && fresh(channel)
    {
      var ch := new Channel();
      channel, sendCh := ch, ch;
      connected, closed, written := false, false, [];
      enqueued, closings, executed := [], 0, 0;
    }

    method SendFrame(f: Frame)
      requires Valid()
      modifies this, channel
      ensures Valid() && View() == Alone(old(View()), [Action.SendFrame(f)])
      decreases sendCh != null, 1
    {
      AloneOne(View(), Action.SendFrame(f), []);
      if sendCh == null {
        return;
      }
      var sent := sendCh.TrySend(f);
      if sent {
        enqueued := enqueued + [f];
      } else {
        sendCh.CloseOnce();
        sendCh, closings := null, closings + 1;
        Disconnect(CLOSE_ABNORMAL);
      }
    }

    method Disconnect(code: int)
      requires Valid()
      modifies this, channel
      ensures Valid() && View() == Alone(old(View()), Program(Call.Disconnect(code)))
      decreases sendCh != null, 2
    {
      AloneThree(View(), Action.SendFrame(Close(code)), Action.MarkClosed, Action.LeaveNode);
      SendFrame(Close(code));
      MarkClosed();
      DisconnectFromNode();
    }

    method MarkClosed()
      requires Valid()
      modifies this`closed
      ensures Valid() && View() == Alone(old(View()), [Action.MarkClosed])
    {
      AloneOne(View(), Action.MarkClosed, []);
      if closed {
        return;
      }
      closed := true;
    }

    method DisconnectFromNode()
      requires Valid()
      modifies this`connected, this`executed
      ensures Valid() && View() == Alone(old(View()), [Action.LeaveNode])
    {
      AloneOne(View(), Action.LeaveNode, []);
      var was := connected;
      connected := false;
      if was {
        AloneOne(View(), Action.ExecutorDisconnect, []);
        executed := executed + 1;
      }
    }

    method CloseSendCh()
      requires Valid()
      modifies this`sendCh, this`closings, channel
      ensures Valid() && View() == Alone(old(View()), [Action.CloseChannel])
    {
      AloneOne(View(), Action.CloseChannel, []);
      if sendCh != null {
        sendCh.CloseOnce();
        sendCh, closings := null, closings + 1;
      }
    }

    method WriteCloseFrame(code: int)
      requires Valid()
      modifies this`written
      ensures Valid() && View() == Alone(old(View()), [Action.WriteClose(code)])
    {
      AloneOne(View(), Action.WriteClose(code), []);
      written := written + [Close(code)];
    }

    method DisconnectNow(code: int)
      requires Valid()
      modifies this, channel
      ensures Valid() && View() == Alone(old(View()), Program(Call.DisconnectNow(code)))
    {
      AloneOne(View(), CheckConnected(code), []);
      if !connected {
        return;
      }
      AloneFour(View(), Action.LeaveNode, WriteClose(code), Action.CloseChannel, Action.MarkClosed);
      DisconnectFromNode();
      WriteCloseFrame(code);
      CloseSendCh();
      MarkClosed();
    }
  }

  // Any number of goroutines, one action at a time.

  /** The goroutine that drains the channel; `Stuck` is one that found no channel to drain. */
  datatype Writer = Starting | Stuck | Waiting | Writing(frame: Frame) | Done

  /** `taken` is what the writer received, `emitted` what it wrote, and `connects` how often the session became
      connected. */
  datatype State = State(
    core: Core,
    goroutines: seq<seq<Action>>,
    writer: Writer,
    taken: seq<Frame>,
    emitted: seq<Frame>,
    connects: nat)

  const START := State(NEW, [], Starting, [], [], 0)

  datatype Step =
    | Spawn(calls: seq<Call>)
    | Go(g: nat)
    | Connect
    | StartWriter
    | Receive
    | Write(ok: bool)

  predicate Enabled(s: State, step: Step) {
    match step
    case Spawn(_) => true
    case Go(g) => g < |s.goroutines| && s.goroutines[g] != []
    case Connect => true
    case StartWriter => s.writer == Starting
    case Receive => s.writer == Waiting && (s.core.queue != [] || !s.core.open)
    case Write(ok) => s.writer.Writing?
  }

  /** The writer ends by disconnecting: after a close frame always, after another frame if it failed. */
  function Take(s: State, step: Step): State
    requires Enabled(s, step)
  {
    match step
    case Spawn(calls) => s.(goroutines := s.goroutines + [Programs(calls)])
    case Go(g) =>
      var (c, more) := Act(s.core, s.goroutines[g][0]);
      s.(core := c, goroutines := s.goroutines[g := more + s.goroutines[g][1..]])
    case Connect => s.(core := s.core.(connected := true), connects := s.connects + One(!s.core.connected))
    case StartWriter => s.(writer := if s.core.hasChannel then Waiting else Stuck)
    case Receive =>
      if s.core.queue == [] then s.(writer := Done)
      else
        var f := s.core.queue[0];
        s.(core := s.core.(queue := s.core.queue[1..]), writer := Writing(f), taken := s.taken + [f])
    case Write(ok) =>
      var after := s.(emitted := s.emitted + [s.writer.frame]);
      if s.writer.frame.Close? then
        after.(writer := Done, goroutines := s.goroutines + [Program(DisconnectNow(CLOSE_NORMAL))])
      else if !ok then
        after.(writer := Done, goroutines := s.goroutines + [Program(DisconnectNow(CLOSE_ABNORMAL))])
      else after.(writer := Waiting)
  }

  /** Where a run leads; a step that is not enabled is passed over. */
  function Run(from: State, steps: seq<Step>): State {
    if steps == [] then from
    else
      var before, step := Run(from, steps[..|steps| - 1]), steps[|steps| - 1];
      if Enabled(before, step) then Take(before, step) else before
  }

  // What every interleaving keeps.

  /** The session refers to its channel exactly while the channel is open, and it was closed at most once. */
  predicate ChannelSafe(c: Core) {
    !c.panicked && c.hasChannel == c.open && c.closings == if c.open then 0 else 1
  }

  function Pending(todo: seq<Action>): nat {
    if todo == [] then 0 else (if todo[0] == ExecutorDisconnect then 1 else 0) + Pending(todo[1..])
  }

  function AllPending(gs: seq<seq<Action>>): nat {
    if gs == [] then 0 else Pending(gs[|gs| - 1]) + AllPending(gs[..|gs| - 1])
  }

  function One(b: bool): nat {
    if b then 1 else 0
  }

  /** Every time the session became connected, the executor has been told, or is about to be, or the session still
      is connected. */
  predicate OncePerConnect(s: State) {
    s.core.executed + AllPending(s.goroutines) + One(s.core.connected) == s.connects
  }

  /** What the writer received and what is still queued is what was sent, in order. It wrote all it
      received but the frame in its hands, and only its last frame can be a close frame. */
  predicate InOrder(s: State) {
    && s.taken + s.core.queue == s.core.enqueued
    && s.taken == s.emitted + (if s.writer.Writing? then [s.writer.frame] else [])
    && (forall i :: 0 <= i < |s.emitted| && s.emitted[i].Close? ==> i == |s.emitted| - 1 && s.writer == Done)
  }

  lemma ActSafe(c: Core, a: Action)
    requires ChannelSafe(c)
    ensures ChannelSafe(Act(c, a).0)
  {
  }

  lemma {:induction false} PendingConcat(p: seq<Action>, q: seq<Action>)
    ensures Pending(p + q) == Pending(p) + Pending(q)
  {
    if p == [] {
      assert p + q == q;
    } else {
      assert (p + q)[1..] == p[1..] + q;
      PendingConcat(p[1..], q);
    }
  }

  lemma {:induction false} NoneIn(todo: seq<Action>)
    requires ExecutorDisconnect !in todo
    ensures Pending(todo) == 0
  {
    if todo != [] {
      NoneIn(todo[1..]);
    }
  }

  lemma {:induction false} NoneInPrograms(calls: seq<Call>)
    ensures Pending(Programs(calls)) == 0
  {
    if calls != [] {
      NoneInPrograms(calls[1..]);
      var p := Program(calls[0]);
      NoneIn(p);
      PendingConcat(p, Programs(calls[1..]));
    }
  }

  lemma {:induction false} AllPendingUpdate(gs: seq<seq<Action>>, g: nat, todo: seq<Action>)
    requires g < |gs|
    ensures AllPending(gs[g := todo]) == AllPending(gs) - Pending(gs[g]) + Pending(todo)
  {
    var last := |gs| - 1;
    if g == last {
      assert gs[g := todo][..last] == gs[..last];
    } else {
      assert gs[g := todo][..last] == gs[..last][g := todo];
      AllPendingUpdate(gs[..last], g, todo);
    }
  }

  lemma {:induction false} AllPendingAppend(gs: seq<seq<Action>>, todo: seq<Action>)
    ensures AllPending(gs + [todo]) == AllPending(gs) + Pending(todo)
  {
    assert (gs + [todo])[..|gs|] == gs;
  }

  /** Only leaving the node schedules a call of the executor, and it ends a connection to do so. */
  lemma ActPays(c: Core, a: Action)
    ensures var (c', more) := Act(c, a);
      c'.executed + Pending(more) + One(c'.connected) == c.executed + One(a == ExecutorDisconnect) + One(c.connected)
  {
    var (_, more) := Act(c, a);
    if |more| > 1 {
      NoneIn(more);
    }
  }

  lemma GoPays(c: Core, gs: seq<seq<Action>>, g: nat)
    requires g < |gs| && gs[g] != []
    ensures var (c', more) := Act(c, gs[g][0]);
      c'.executed + AllPending(gs[g := more + gs[g][1..]]) + One(c'.connected) ==
      c.executed + AllPending(gs) + One(c.connected)
  {
    var todo := gs[g];
    var (c', more) := Act(c, todo[0]);
    ActPays(c, todo[0]);
    PendingConcat(more, todo[1..]);
    AllPendingUpdate(gs, g, more + todo[1..]);
  }

  lemma TakePays(s: State, step: Step)
    requires Enabled(s, step) && OncePerConnect(s)
    ensures OncePerConnect(Take(s, step))
  {
    if step.Go? {
      GoPays(s.core, s.goroutines, step.g);
    } else if step.Spawn? {
      NoneInPrograms(step.calls);
      AllPendingAppend(s.goroutines, Programs(step.calls));
    } else if step.Write? {
      AllPendingAppend(s.goroutines, [CheckConnected(CLOSE_NORMAL)]);
      AllPendingAppend(s.goroutines, [CheckConnected(CLOSE_ABNORMAL)]);
    }
  }

  lemma ActInOrder(c: Core, a: Action, taken: seq<Frame>)
    requires taken + c.queue == c.enqueued
    ensures taken + Act(c, a).0.queue == Act(c, a).0.enqueued
  {
    if a.SendFrame? {
      assert taken + (c.queue + [a.frame]) == taken + c.queue + [a.frame];
    }
  }

  lemma TakeInOrder(s: State, step: Step)
    requires Enabled(s, step) && InOrder(s)
    ensures InOrder(Take(s, step))
  {
    if step.Go? {
      ActInOrder(s.core, s.goroutines[step.g][0], s.taken);
    } else if step.Receive? && s.core.queue != [] {
      assert s.taken + [s.core.queue[0]] + s.core.queue[1..] == s.taken + s.core.queue;
    } else if step.Write? {
      WriteInOrder(s, step.ok);
    }
  }

  lemma WriteInOrder(s: State, ok: bool)
    requires s.writer.Writing? && InOrder(s)
    ensures InOrder(Take(s, Write(ok)))
  {
    var f := s.writer.frame;
    assert s.emitted + [f] + [] == s.emitted + [f];
  }

  /** In every interleaving the channel is closed at most once and never used afterwards; the executor is told of a
      disconnect at most once for every time the session became connected, and exactly once when the session is off
      the node and nobody is about to tell it; and the writer writes the frames in the order they were sent, at most
      one close frame, and nothing after it. */
  lemma {:induction false} RunSafe(steps: seq<Step>)
    ensures var s := Run(START, steps);
      && ChannelSafe(s.core) && OncePerConnect(s) && InOrder(s)
      && !s.core.panicked && s.core.closings <= 1 && s.core.executed <= s.connects
      && (!s.core.connected && AllPending(s.goroutines) == 0 ==> s.core.executed == s.connects)
      && s.emitted <= s.core.enqueued
      && forall i :: 0 <= i < |s.emitted| - 1 ==> !s.emitted[i].Close?
  {
    if steps != [] {
      var before, step := Run(START, steps[..|steps| - 1]), steps[|steps| - 1];
      RunSafe(steps[..|steps| - 1]);
      if Enabled(before, step) {
        TakePays(before, step);
        TakeInOrder(before, step);
        if step.Go? {
          ActSafe(before.core, before.goroutines[step.g][0]);
        }
      }
    }
  }

  /** The actions goroutine `g` takes in a run. */
  function StepsOf(from: State, steps: seq<Step>, g: nat): nat {
    if steps == [] then 0
    else
      var init := steps[..|steps| - 1];
      One(steps[|steps| - 1] == Go(g) && Enabled(Run(from, init), Go(g))) + StepsOf(from, init, g)
  }

  lemma TakeWorks(s: State, step: Step, g: nat)
    requires Enabled(s, step) && g < |s.goroutines|
    ensures var s' := Take(s, step);
      && g < |s'.goroutines|
      && Work(s'.core.hasChannel, s'.goroutines[g]) + One(step == Go(g)) <= Work(s.core.hasChannel, s.goroutines[g])
  {
    if step.Go? {
      StepWorks(s.core, s.goroutines[step.g]);
      ActWorks(s.core, s.goroutines[step.g][0]);
      if step.g != g {
        WorkShrinks(s.core.hasChannel, Take(s, step).core.hasChannel, s.goroutines[g]);
      }
    }
  }

  /** However the goroutines are interleaved, one that has calls to make finishes them within a number of
      steps fixed when it starts, and it is never blocked before: overflowing the channel, which makes
      a send disconnect the session and so send again, happens at most once. */
  lemma {:induction false} CallsTerminate(from: State, steps: seq<Step>, g: nat)
    requires g < |from.goroutines|
    ensures var s, bound := Run(from, steps), Work(from.core.hasChannel, from.goroutines[g]);
      && g < |s.goroutines|
      && StepsOf(from, steps, g) + Work(s.core.hasChannel, s.goroutines[g]) <= bound
      && (StepsOf(from, steps, g) == bound ==> s.goroutines[g] == [])
      && (s.goroutines[g] != [] ==> Enabled(s, Go(g)))
  {
    if steps != [] {
      var before, step := Run(from, steps[..|steps| - 1]), steps[|steps| - 1];
      CallsTerminate(from, steps[..|steps| - 1], g);
      if Enabled(before, step) {
        TakeWorks(before, step, g);
      }
    }
  }

  /** What a goroutine is about to make true for good. */
  predicate Kept(s: State, g: nat, a: Action)
    requires g < |s.goroutines|
  {
    a in s.goroutines[g] || (a == MarkClosed && s.core.closed) || (a == CloseChannel && !s.core.hasChannel)
  }

  lemma TakeKeeps(s: State, step: Step, g: nat, a: Action)
    requires Enabled(s, step) && g < |s.goroutines| && Kept(s, g, a) && (a == MarkClosed || a == CloseChannel)
    ensures g < |Take(s, step).goroutines| && Kept(Take(s, step), g, a)
  {
    if step.Go? && step.g == g && a in s.goroutines[g] {
      var todo := s.goroutines[g];
      assert a == todo[0] || a in todo[1..];
    }
  }

  /** However others interleave, a goroutine that was to close the session, or its channel, has done so when it
      is finished, and neither is ever open again. */
  lemma {:induction false} ClosedWhenDone(from: State, steps: seq<Step>, g: nat, a: Action)
    requires g < |from.goroutines| && Kept(from, g, a) && (a == MarkClosed || a == CloseChannel)
    ensures var s := Run(from, steps);
      && g < |s.goroutines| && Kept(s, g, a)
      && (s.goroutines[g] == [] ==> if a == MarkClosed then s.core.closed else !s.core.hasChannel)
  {
    if steps != [] {
      var before, step := Run(from, steps[..|steps| - 1]), steps[|steps| - 1];
      ClosedWhenDone(from, steps[..|steps| - 1], g, a);
      if Enabled(before, step) {
        TakeKeeps(before, step, g, a);
      }
    }
  }

  /** The writer has written a close frame, or has failed to write another. */
  predicate WriterEnds(s: State, ok: bool) {
    s.writer.Writing? && (s.writer.frame.Close? || !ok)
  }

  /** The goroutine has yet to disconnect the session, or is doing so, or has, or has found it off the node. */
  ghost predicate Disconnects(from: State, steps: seq<Step>, g: nat, code: int) {
    var s := Run(from, steps);
    && g < |s.goroutines|
    && (|| s.goroutines[g] == [CheckConnected(code)]
        || (Kept(s, g, MarkClosed) && Kept(s, g, CloseChannel))
        || (s.goroutines[g] == [] && exists k :: 0 <= k <= |steps| && !Run(from, steps[..k]).core.connected))
  }

  lemma {:induction false} DisconnectsStep(from: State, steps: seq<Step>, step: Step, g: nat, code: int)
    requires Disconnects(from, steps, g, code)
    ensures Disconnects(from, steps + [step], g, code)
  {
    var s, all := Run(from, steps), steps + [step];
    assert all[..|steps|] == steps;
    if Enabled(s, step) {
      var s' := Take(s, step);
      if s.goroutines[g] == [CheckConnected(code)] {
        if step == Go(g) {
          var more := [LeaveNode, WriteClose(code), CloseChannel, MarkClosed];
          assert more[2] == CloseChannel && more[3] == MarkClosed;
          assert s.core.connected ==> s'.goroutines[g] == more + [] == more;
          assert !s.core.connected ==> !Run(from, all[..|steps|]).core.connected;
        }
      } else if Kept(s, g, MarkClosed) && Kept(s, g, CloseChannel) {
        TakeKeeps(s, step, g, MarkClosed);
        TakeKeeps(s, step, g, CloseChannel);
      } else {
        var k :| 0 <= k <= |steps| && !Run(from, steps[..k]).core.connected;
        assert all[..k] == steps[..k];
      }
    } else if s.goroutines[g] == [] {
      if k :| 0 <= k <= |steps| && !Run(from, steps[..k]).core.connected {
        assert all[..k] == steps[..k];
      }
    }
  }

  lemma {:induction false} DisconnectsOn(from: State, steps: seq<Step>, g: nat, code: int)
    requires g < |from.goroutines| && from.goroutines[g] == [CheckConnected(code)]
    ensures Disconnects(from, steps, g, code)
  {
    if steps != [] {
      var init, step := steps[..|steps| - 1], steps[|steps| - 1];
      DisconnectsOn(from, init, g, code);
      DisconnectsStep(from, init, step, g, code);
      assert init + [step] == steps;
    }
  }

  /** However others interleave, a writer that ends on a close frame, or because it failed to write, disconnects the
      session: when it is finished, the session and its channel are closed, or the session was off the node already. */
  lemma {:induction false} WriterDisconnects(before: State, ok: bool, steps: seq<Step>)
    requires WriterEnds(before, ok)
    ensures var from, g := Take(before, Write(ok)), |before.goroutines|;
      && from.writer == Done
      && Disconnects(from, steps, g, if before.writer.frame.Close? then CLOSE_NORMAL else CLOSE_ABNORMAL)
      && (Run(from, steps).goroutines[g] == [] ==>
            || (Run(from, steps).core.closed && !Run(from, steps).core.hasChannel)
            || exists k :: 0 <= k <= |steps| && !Run(from, steps[..k]).core.connected)
  {
    var code := if before.writer.frame.Close? then CLOSE_NORMAL else CLOSE_ABNORMAL;
    DisconnectsOn(Take(before, Write(ok)), steps, |before.goroutines|, code);
  }

  lemma {:induction false} ProgramsConcat(p: seq<Call>, q: seq<Call>)
    ensures Programs(p + q) == Programs(p) + Programs(q)
  {
    if p == [] {
      assert p + q == q && [] + Programs(q) == Programs(q);
    } else {
      assert (p + q)[0] == p[0] && (p + q)[1..] == p[1..] + q;
      ProgramsConcat(p[1..], q);
    }
  }

  /** A goroutine makes its calls one after the other: by itself, the last of them finds what the others left. */
  lemma {:induction false} CallsInOrder(c: Core, calls: seq<Call>, last: Call)
    ensures Alone(c, Programs(calls + [last])) == Alone(Alone(c, Programs(calls)), Program(last))
  {
    ProgramsConcat(calls, [last]);
    assert [last][1..] == [] && Program(last) + [] == Program(last);
    AloneConcat(c, Programs(calls), Program(last));
  }

  lemma {:induction false} ProgramsWork(h: bool, calls: seq<Call>)
    ensures Work(h, Programs(calls)) <= 8 * |calls|
  {
    if calls != [] {
      ProgramsWork(h, calls[1..]);
      var p := Program(calls[0]);
      WorkConcat(h, p, Programs(calls[1..]));
      if |p| > 1 {
        WorkOf(h, p);
      }
    }
  }
}
