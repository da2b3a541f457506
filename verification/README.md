# AnyCable real-time core, in Dafny

A model of the stateful core of AnyCable's Go server, with proofs about every run of it.

The server keeps many facts twice: what a stream holds and where its offsets start, who is present in
a stream and where a session is present, which gate holds a subscription and which subscriptions a
session must give back, what a session believes and what the hub does. The project models the code
that keeps those pairs in step, and proves that it does (or exactly when it does) after every sequence
or interleaving of operations.

| file | what it models |
|---|---|
| `Basics.dfy`, `Names.dfy` | shared types; names, which are only compared |
| `Common.dfy` | stream messages, and the replies made of them |
| `History.dfy` | one stream's bounded, expiring, offset-numbered log, read back by index arithmetic |
| `MemoryBroker.dfy` | the streams of the in-memory broker, the epoch, resume requests, the expiry pass |
| `BrokerSteps.dfy` | the same broker at the granularity of its locks: lookups, appends and the pass interleaved |
| `HistoryRequest.dfy` | a history request over all streams of a channel |
| `Replies.dfy` | a stored message as it is sent live, and as it is read back from the history |
| `SessionCache.dfy` | cached sessions and the queue of finished ones |
| `Presence.dfy` | the two presence indexes, and the join and leave events |
| `PresenceRuns.dfy` | who is present, and until when, told from the operations alone |
| `StreamsTracker.dfy` | when a broker takes up and releases a stream of its broadcaster |
| `Gate.dfy` | one shard of the hub, and the fan-out of a broadcast |
| `SessionStreams.dfy` | a session's list of subscriptions, swept in place while it is ranged over |
| `Hub.dfy` | the sharded hub as one flat relation |
| `HubSteps.dfy` | the hub at the granularity of its locks |
| `Pipeline.dfy` | publishers, hub loop, gate loops, subscribers and history readers as interleaved steps |
| `Delivery.dfy` | order and exactly-once delivery in every interleaving |
| `CatchUp.dfy` | subscribe-then-history leaves no gap in any interleaving |
| `LogOrder.dfy` | when live sends follow the log, and when they do not |
| `Node.dfy` | a session's commands, its own view of its subscriptions, and what the broker is told |
| `SessionState.dfy` | a session's state, its merges, and its way through the cache |
| `SessionClose.dfy` | the close protocol of a session, in every interleaving |
| `RedisSubscriber.dfy` | Redis subscriptions across dropped connections |
| `Retry.dfy` | the RPC retry loop and its backoff |
| `EventId.dfy` | the SSE event id, printed and parsed |

Objects that the server updates in place are classes. Their methods are proved against functions on
values, and the theorems about runs are proved about those functions. Loops over Go maps take the
elements in any order. Protocols between goroutines are state machines whose steps are the critical
sections and channel operations of the code, taken in any order. Time is an input. Stream names,
session ids, identifiers, presence ids and epochs are values of a type that only supports equality.
Inductions are written out: no lemma relies on automatic induction.

Some properties that one would expect of this code do not hold. For each of them the model keeps to the
code, a lemma gives a run or an input that shows it, and a theorem says when the property does hold:

- Unsubscribing a session from a channel ranges over a slice that is shifted while it is ranged over, and
  skips pairs (`SessionStreams.MiddleStreamSkipped`). For every list it unsubscribes exactly the pairs it
  reads (`SessionStreams.SweepReadsExactly`). It removes the whole channel if the channel's pairs are spaced
  out in the list (`Hub.ChannelRemovedIfSpaced`), and only if, when the list has no repeats
  (`Hub.ChannelRemovedIffSpaced`, `SessionStreams.RepeatsClearedUnspaced`).
- Two subscribes and two unsubscribes leave a stream taken up (`StreamsTracker.TwiceStays`): a count above one
  is never given back (`StreamsTracker.ReleasableIffOnce`).
- A release that is told to the broadcaster late drops a stream that is in use
  (`StreamsTracker.LateReleaseLoses`). With nothing about a stream on its way, tracker and broadcaster agree on it
  if and only if as many subscribes as unsubscribes of it were told in vain (`StreamsTracker.InStepIffVainEven`), as
  when the calls about it take turns (`StreamsTracker.NeverTooEarlyInTurn`).
- An unsubscribe from a channel gives no stream back to the broadcaster, since the channel is forgotten before its
  streams are asked for (`Node.UnsubscribeGivesNothingBack`, `Node.SubscribedForGood`); `Node.GivenBackIff` says of
  every command which streams it gives back.
- A resume over offsets with gaps may leave messages out (`History.GapMissed`); it is complete if and only if
  no offset up to the requested one is missing (`History.ResumeWithGaps`).
- Offsets wrap at 64 bits (`History.WrapBreaksResume`); they increase if and only if no add is made at the
  largest one (`History.NumberedIffNoWrap`).
- An entry dated far ahead can be live when its stream is deleted (`History.FutureEntryLost`); an accepted
  entry keeps its stream safe to delete past its deadline if and only if it is dated at most nine TTLs ahead
  (`History.SafeIffWithinReach`).
- An append that overlaps an expiry pass can be lost (`BrokerSteps.AppendDuringPassLost`): an entry is stored
  under its name if and only if its stream was not deleted between the lookup and the append
  (`BrokerSteps.StoredIffNotDropped`), and a pass loses nothing live but what was appended after its test
  (`BrokerSteps.PassLosesFresh`).
- A stream that was deleted starts numbering again in the same epoch (`MemoryBroker.NumberingRestarts`): an
  old offset is answered completely if and only if the stream was not deleted before the reader looked it up and
  nothing strayed to another object (`BrokerSteps.OldOffsetCompleteIff`).
- A message can overtake an earlier one of its log, and a client that resumes from it misses the earlier one
  (`LogOrder.ResumeMissesOvertaken`). With none of a log waiting, its messages were enqueued in its order if and only
  if none overtook (`LogOrder.InLogOrderIff`). Then sends follow the log (`LogOrder.SendsFollowLog`), and a client
  that comes back misses nothing (`LogOrder.ComesBackWhole`).
- A subscribe during the removal of its session leaves a subscription behind
  (`HubSteps.SubscribeDuringRemovalLost`). `HubSteps.LosesIff` says exactly which steps lose one: none, if the
  operations of the session take turns (`HubSteps.SurvivesSplit`).
- A session goes on with its command after it was disconnected and removed, and what the reply then starts stays in
  the hub (`Node.ReplyAfterRemoval`, `Node.LeftForGood`). Nobody is left behind if and only if no stream is started
  for a removed session (`Node.NobodyLeftBehindIff`). A session that is registered after its removal stays listed
  (`Node.ListedBehindIff`).
- Overlapping calls about one stream can leave Redis subscribed to a stream that was given up
  (`RedisSubscriber.OverlapDiverges`), and a failed batch leaves streams out until the next connection
  (`RedisSubscriber.FailedBatchMissing`). With the link up, nothing failed over it and nothing about a stream on its
  way, server and record agree on the stream if and only if no command about it was carried out over this link, or
  the last one asked for what is recorded (`RedisSubscriber.ConvergesIff`), as when its calls do not overlap
  (`RedisSubscriber.StreamConverges`).

## Model

| member | source | states |
|---|---|---|
| `CatchUp.NothingMissed` | node/node.go:465-481 | catch-up has no gap: after every interleaving of store, publish, hub loop, gate loops, subscribe, unsubscribe, expiry and history reads, for a session that subscribes, is answered a history request and stays subscribed, every message ever stored under the stream's name, in whichever stream object, was sent to it, is on its way, or excludes it; or was in the object read and is in the reply or not after the offset asked for; or was stored in another object before the session subscribed |
| `CatchUp.RequestMissesNothing` | node/node.go:465-481 | the same from the request on: the reply is read from the object the stream had when the request looked it up, for the session, channel and offset of the request, and nothing stored under the stream's name is missed |
| `CatchUp.ReadsWhatWasFound` | broker/memory.go:341-349 | in every interleaving, a history request reads the object that its stream had at the lookup, with the offset it asked for |
| `CatchUp.StoredSinceCovered` | broker/memory.go:593-609 | everything stored under a name after a session subscribed, also in a stream deleted and created anew, is covered for as long as the session stays subscribed |
| `CatchUp.RunKeeps` | broker/memory.go:294-306 | in every reachable state a message on its way carries the stream, place and excluded socket it was stored with, and stores and logs agree |
| `CatchUp.CoveredStep` | hub/gate.go:47-63 | a message on its way to a subscribed session is not lost by any step: it stays on its way or is sent |
| `CatchUp.FaithfulStep` | hub/hub.go:113-135 | no step changes the stream, the place or the excluded socket of a message on its way |
| `Delivery.SendsFollowEnqueueOrder` | hub/hub.go:113-150 | in every interleaving the sends of a stream follow the order in which its broadcasts were enqueued, and strictly so for one (session, identifier) |
| `Delivery.SentExactlyOnce` | hub/gate.go:124-162 | in every interleaving a broadcast its gate is done with was sent exactly once to every (session, identifier) of its snapshot and to no one else, and nothing is ever sent to the socket it excludes |
| `Delivery.SnapshotExactly` | hub/gate.go:142-149 | in every run, a snapshot holds exactly those subscribed to the stream of the broadcast in the state it is taken in, under the identifiers they are subscribed with, except for the excluded socket |
| `Delivery.OnlySubscribersSent` | hub/gate.go:135-162 | over every interleaving, everyone ever sent a broadcast was subscribed to its own stream, under that identifier, when the snapshot for it was taken |
| `Delivery.SentToSubscribersExactly` | hub/gate.go:135-162 | over every interleaving, a broadcast its gate is done with was sent to exactly those subscribed to its stream when its snapshot was taken, except for the excluded socket |
| `LogOrder.InLogOrderIff` | broker/memory.go:294-306 | after every run that leaves none of a log's messages waiting between store and enqueueing, they were enqueued in the order of the log if and only if no message was enqueued while one stored before it was waiting |
| `LogOrder.SendsFollowLog` | broker/memory.go:294-306 | in every interleaving in which no message of a log overtakes another, its sends follow the log |
| `LogOrder.SentIsLogged` | broker/memory.go:294-306 | in every interleaving, what is sent of a stored message is the data that the log of its stream has at its place |
| `LogOrder.ComesBackWhole` | node/node.go:465-481 | a client that was sent a message, comes back and resumes from it, with no overtaking before: everything stored in the log since it first subscribed was sent to it, is on its way, excludes it, or is in the reply |
| `LogOrder.ResumeMissesOvertaken` | broker/memory.go:294-306 | a run where a message overtakes an earlier one, and the session that saw it resumes from it and never gets the earlier one |
| `Delivery.RunDelivers` | hub/hub.go:305-307 | every reachable state keeps the lanes of all gates in enqueue order, every broadcast number in one place, and every started broadcast split between sent and left to send |
| `Delivery.OrderedStep` | hub/gate.go:47-63 | every step keeps hub queue, gate queues and sends in one order per stream |
| `Delivery.NumberedStep` | hub/hub.go:148-150 | every step keeps a broadcast in at most one place between the hub's queue and a gate's hand |
| `Delivery.FannedStep` | hub/gate.go:135-162 | every step keeps, for every broadcast with a snapshot, sent and unsent addressees disjoint and together the snapshot |
| `History.MemStream.AppendEntry` | broker/memory.go:80-95 | keeps the newest entries up to the limit, keeps the lowest offset right, and moves the deadline |
| `History.MemStream.Add` | broker/memory.go:34-51 | appends under the next 64-bit offset, zero after the largest one, and returns it |
| `History.MemStream.Insert` | broker/memory.go:53-78 | appends under a given offset, or refuses one that is not past the last and changes nothing |
| `History.MemStream.Expire` | broker/memory.go:97-126 | the cut loop drops exactly the longest stale prefix and recomputes the lowest offset |
| `History.MemStream.FilterByOffset` | broker/memory.go:128-151 | the index arithmetic stays within 64 bits, and the loop returns the entries behind the index or the right refusal |
| `History.MemStream.FilterByTime` | broker/memory.go:153-164 | returns exactly the entries at or after a time, in order |
| `History.RunEndsLog` | broker/memory.go:34-126 | after every run the data held is a suffix of everything ever logged, no longer than the limit, and the offset is the last one logged |
| `History.HoldsNewest` | broker/memory.go:80-95 | until something expires, a stream holds the newest entries of its log, as many as the limit allows |
| `History.NumberedIffNoWrap` | broker/memory.go:34-51 | logged offsets are positive and strictly increase if and only if no add happened at the largest offset |
| `History.RunConsecutive` | broker/memory.go:53-95 | without wraps and gaps the data held has consecutive offsets after every run |
| `History.ResumeExact` | broker/memory.go:128-151 | resume is exact: after every run without wraps and gaps a request is answered iff its offset is between the lowest held and the last, and the answer is all of the log after it, in order |
| `History.ResumeNumbered` | broker/memory.go:128-151 | entry by entry: an answer has as many entries as there are offsets from the requested one to the last, they are the end of the log, and they are numbered on from the requested offset |
| `History.ResumeWithGaps` | broker/memory.go:128-151 | with gaps, after every run without wraps, the answer holds only held entries after the offset, and it holds all of them iff no offset from the lowest to the requested one is missing |
| `History.GapMissed` | broker/memory.go:128-151 | with offsets 1 and 5 stored, a request for everything after 2 is answered with nothing |
| `History.WrapBreaksResume` | broker/memory.go:34-51 | a concrete run over the 64-bit limit whose resume answers with an entry numbered zero |
| `History.ExpireKeepsLive` | broker/memory.go:97-126 | the prefix cut never drops an entry within the TTL, whatever the timestamps |
| `History.ExpireExact` | broker/memory.go:97-126 | the prefix cut equals the filter by age iff no stale entry follows a live one |
| `History.ClockedExpireExact` | broker/memory.go:97-126 | with a clock that never goes back the prefix cut equals the filter by age after every run |
| `History.DeadlineCoversData` | broker/memory.go:92-94 | once a stream's deadline has passed, deleting it loses nothing within the TTL, after every run whose entries are dated at most nine TTLs ahead of the clock |
| `History.SafeIffWithinReach` | broker/memory.go:53-95 | after any such run, an accepted entry leaves the stream safe to delete past its deadline if and only if it is dated at most nine TTLs ahead of the clock |
| `History.FutureEntryLost` | broker/memory.go:53-95 | a concrete entry dated ahead of the clock that is still live when its stream's deadline passes |
| `MemoryBroker.Memory.FindOrCreate` | broker/memory.go:593-609 | finds the named stream or creates an empty one, and leaves the other streams alone |
| `MemoryBroker.Memory.Handle` | broker/memory.go:294-306 | the lookup and the append of a broadcast in sequence are one add to its own stream, and return the offset it was given |
| `MemoryBroker.Memory.HandleBroadcast` | broker/memory.go:294-306 | a transient message goes on as it is; any other is stored and goes on under the offset it was given and the epoch |
| `MemoryBroker.Memory.Store` | broker/memory.go:391-407 | the lookup and the insert in sequence store under a given offset in the entry's own stream, or refuse |
| `MemoryBroker.Memory.HistoryFrom` | broker/memory.go:334-363 | refuses a foreign epoch, an unknown stream and an offset not held, and otherwise answers with the entries behind the index in order, each with its data and offset, under the stream and the epoch |
| `MemoryBroker.Memory.HistorySince` | broker/memory.go:365-389 | answers with the stream's entries at or after a time in order, each with its data and offset, under the stream and the epoch, and with none for an unknown stream |
| `MemoryBroker.SinceEntryByEntry` | broker/memory.go:365-389 | message by message: a read by time gives all held entries at or after the time, and no others, in the order they are held |
| `MemoryBroker.Memory.Sweep` | broker/memory.go:625-644 | the pass over the map cuts every stream and marks exactly those past their deadline, in any order |
| `MemoryBroker.Memory.Expire` | broker/memory.go:625-644 | one pass cuts every stream and deletes exactly those past their deadline, whatever the order of the map |
| `MemoryBroker.NumberingRestarts` | broker/memory.go:625-644 | a concrete run where deleting a stream restarts its numbering in the same epoch and a resume misses a message |
| `BrokerSteps.StoredIffNotDropped` | broker/memory.go:593-609 | in every interleaving of lookups, appends and passes, an entry is stored under its name if and only if its stream was not deleted between its lookup and its append; otherwise no later lookup finds it |
| `BrokerSteps.AppendDuringPassLost` | broker/memory.go:625-642 | a run where a live entry is appended between a stream's test and its deletion, and is lost |
| `BrokerSteps.PassLosesFresh` | broker/memory.go:625-642 | whatever runs in between, all that a pass deletes with a stream is stale but what was appended after the stream's test; without such an append it loses nothing live |
| `BrokerSteps.CutKeepsLive` | broker/memory.go:632-633 | the cut of a pass keeps every entry live at that moment |
| `BrokerSteps.LogIsAllIff` | broker/memory.go:593-609 | what a stream object logs is all that is stored under its name, if and only if nothing strays to an object deleted before |
| `BrokerSteps.SplitReadExact` | broker/memory.go:334-363 | with the epoch check, the lookup (which a pass blocks) and the read of the stream (which it does not) spread over a run, a resume is answered iff the epoch was current when checked, the stream there when looked up, and the offset held when read, with all the object found had logged after it by then |
| `BrokerSteps.ReplyMessageByMessage` | broker/memory.go:334-363 | with the read spread over a run, an answer has exactly one message for every offset after the one asked for up to the last of the object found, in order, with the data logged under that offset, under the stream's name and the epoch asked for |
| `BrokerSteps.EpochLastSet` | broker/memory.go:270-282 | in every run the epoch is the one last set |
| `BrokerSteps.ReadAlone` | broker/memory.go:334-363 | a read with nothing in between is the one operation that `MemoryBroker` specifies |
| `BrokerSteps.ResumeExactSinceCreation` | broker/memory.go:334-363 | a reader that looks a stream up between its creation and its deletion is answered, if nothing strays, with all that was stored under the name since the creation |
| `BrokerSteps.OldOffsetCompleteIff` | broker/memory.go:334-363 | an answered resume from the last offset seen returns all that was stored under the name since, if and only if the stream was not deleted before the reader looked it up and nothing strayed |
| `BrokerSteps.AppendAlone` | broker/memory.go:593-609 | a lookup and an append with nothing in between are the one operation that `MemoryBroker` specifies |
| `BrokerSteps.WholePass` | broker/memory.go:625-644 | in every run, a whole pass with nothing else in between is the one operation that `MemoryBroker` specifies, in any order of cuts and tests |
| `HistoryRequest.RetrieveHistory` | node/node.go:628-660 | the loop over a channel's streams collects their answers in order, or refuses at the first refusal |
| `HistoryRequest.AnswerExact` | node/node.go:628-660 | with every stream read at its own moment: a request is refused iff one of its positions is then; otherwise its reply holds, for a stream with a position, what follows it, for one without, what came since the time asked for or nothing without a time, each in order, and nothing else |
| `HistoryRequest.AnswerInOrder` | node/node.go:628-660 | the reply has the streams in the order they are asked about |
| `HistoryRequest.SendHistory` | node/node.go:586-626 | a client is sent the backlog, one reply per message with its content, stream, offset and epoch, and then a confirmation; or only a rejection |
| `Replies.LiveAsHistory` | common/common.go:393-419 | across broker, gate and history: what is sent of a broadcast live, and what a client gets that later resumes from before it, is the same content of the same stream under the same offset, and under the same epoch iff the client asks for the one it was published under |
| `SessionCache.Cache.FinishSession` | broker/memory.go:435-446 | queues a cached session with its deadline, and does nothing for an unknown one |
| `SessionCache.Cache.Expire` | broker/memory.go:646-661 | the loop drops exactly the sessions of the due prefix of the queue |
| `SessionCache.PrefixCutExact` | broker/memory.go:646-661 | when sessions are finished at clock readings that never go back (a pass may use an older one), cutting the front of the queue gives after every run the same state as looking at all of it |
| `SessionCache.DroppedIffDue` | broker/memory.go:435-446 | a session leaves the cache iff an expiry pass finds a queued finish of it past its deadline, and that finish happened in the run |
| `SessionCache.DroppedIffFinished` | broker/memory.go:435-446 | from the operations alone: a pass drops a cached session iff it was finished while cached, the deadline of that finish has passed, and no pass in between had found it so |
| `SessionCache.QueuedIff` | broker/memory.go:435-446 | after every run the queue holds exactly the finishes of cached sessions that no pass has found due |
| `SessionCache.RestoresLatest` | broker/memory.go:409-433 | after every run a session that is restored is the one last committed |
| `SessionCache.CutExactIff` | broker/memory.go:646-661 | for any queue, the prefix cut leaves nothing due behind iff no due entry is queued behind one that is not |
| `SessionCache.QueueOfRun` | broker/memory.go:435-446 | after every such run the queue is sorted by deadline, and every entry was queued by a finish of a cached session |
| `Presence.PresenceState.Enter` | broker/memory.go:460-506 | records the session in both indexes or refuses a second id in the same stream, leaving both as they were |
| `Presence.PresenceState.PresenceAdd` | broker/memory.go:460-506 | keeps the indexes inverse to each other, error path included, and makes a join event iff nobody was present under that id |
| `Presence.PresenceState.TakeOut` | broker/memory.go:187-204 | takes the session out of a record and removes a record and a stream that become empty |
| `Presence.PresenceState.PresenceRemove` | broker/memory.go:508-558 | keeps the indexes inverse, error paths included, and makes a leave event iff the last session of that id left |
| `Presence.PresenceState.PresenceInfo` | broker/memory.go:560-591 | reports every presence id of the stream once, with its latest info, and their number |
| `Presence.PresenceState.Expire` | broker/memory.go:667-729 | in any order of sessions and streams, both indexes end as they were without the expired sessions, record by record and in their order, stay inverse, and the leave events are, once each, exactly the presences that ended |
| `Presence.ThinnedUnique` | broker/memory.go:667-718 | what has expired determines the index that is left, so no order of visits can make a difference |
| `Presence.LeaveIffAllExpired` | broker/memory.go:667-718 | someone leaves in a pass iff all their sessions in that stream are past a deadline; `PresenceRuns.LeavesIffAllDue` says which these are |
| `Presence.StepLegal` | broker/memory.go:460-558 | no operation makes a join for someone present or a leave for someone absent, and replaying its events gives the new presences |
| `Presence.RunLegal` | broker/memory.go:460-729 | over every run, replaying all events from nothing gives exactly who is present |
| `Presence.EventsTellPresence` | broker/memory.go:460-729 | over every run the joins and leaves of each presence id in each stream alternate, starting with a join, and the number present equals joins minus leaves |
| `PresenceRuns.GoneIffDue` | broker/memory.go:448-458 | over every run, a session present when a pass begins is gone after it iff it was finished since it last became present and the deadline of the last such finish has passed |
| `PresenceRuns.UnfinishedStays` | broker/memory.go:673-677 | a session not finished since it last became present is never dropped by a pass |
| `PresenceRuns.LeavesIffAllDue` | broker/memory.go:667-718 | over every run, a pass makes a leave for someone iff all their sessions in that stream are so finished |
| `PresenceRuns.PresentIff` | broker/memory.go:460-558 | after every run, a session is present in a stream under an id iff it joined under it without being refused, and was neither removed from the stream nor dropped by a pass since |
| `PresenceRuns.LatestInfo` | broker/memory.go:206-212 | after every run, what is reported about someone present is what the last accepted join under that id said |
| `PresenceRuns.JoinTells` | broker/memory.go:497-503 | over every run, a join event tells of an accepted join, with what it said |
| `StreamsTracker.Tracker.Subscribe` | broker/memory.go:314-322 | subscribes the broadcaster exactly when the stream was unknown |
| `StreamsTracker.Tracker.Unsubscribe` | broker/memory.go:324-332 | releases the stream exactly when its count was one |
| `StreamsTracker.NeverTooEarly` | broker/broker.go:117-151 | for calls made one at a time, over every run the broadcaster's set is the tracker's domain, and a stream with more subscribes than unsubscribes is in it |
| `StreamsTracker.ReleasableIffOnce` | broker/broker.go:138-151 | a subscribed stream can still be released by some continuation iff its count is one |
| `StreamsTracker.TwiceStays` | broker/broker.go:138-151 | two subscribes and two unsubscribes leave the stream taken up |
| `StreamsTracker.InStepIffVainEven` | broker/memory.go:314-332 | with tracker and broadcaster called one after the other and any callers interleaved: after every run with nothing about a stream on its way, the broadcaster has it iff the tracker does, if and only if as many subscribes of it were told while the broadcaster had it as unsubscribes while it had not |
| `StreamsTracker.NeverTooEarlyInTurn` | broker/memory.go:314-332 | with tracker and broadcaster called one after the other and any callers interleaved: if the calls about a stream take turns, then between them the broadcaster has it iff the tracker does, and has it while more subscribes than unsubscribes were made |
| `StreamsTracker.LateReleaseLoses` | broker/memory.go:314-332 | a run where an unsubscribe told after a new subscribe releases a stream in use |
| `Gate.Shard.Subscribe` | hub/gate.go:66-79 | adds the identifier under stream and session, creating missing maps |
| `Gate.Shard.RemoveSubscribed` | hub/gate.go:102-114 | the write-locked phase, from any state it may find, removes the identifier and the maps left empty |
| `Gate.Shard.Unsubscribe` | hub/gate.go:82-114 | both phases together remove the triple if it is there and change nothing otherwise |
| `Gate.Shard.PerformBroadcast` | hub/gate.go:135-162 | sends once to every subscribed (session, identifier) and nothing to the excluded socket; every reply has the addressee's identifier, the message's data, offset and epoch, its stream exactly if it has an epoch, and the type its meta asks for |
| `Gate.Snapshot` | hub/gate.go:174-189 | the snapshot lists exactly the subscribed pairs, each once, in any order of the maps |
| `Gate.SubscribedIds` | hub/gate.go:66-79 | a subscribe adds one triple, disturbs no other, and leaves no empty map |
| `Gate.UnsubscribedIds` | hub/gate.go:102-114 | an unsubscribe removes one triple, disturbs no other, and leaves no empty map |
| `Gate.RunNoEmpty` | hub/gate.go:66-114 | no run of subscribes and unsubscribes leaves an empty inner map |
| `Gate.TwoPhaseUnsubscribe` | hub/gate.go:82-114 | whatever runs between its phases, the unsubscribe acts as if at one moment, removes its own triple and no other, and leaves no empty map |
| `SessionStreams.RemoveInPlace` | hub/hub.go:45-52 | removes the first occurrence from the backing array by shifting, and leaves the cells behind the new length as they were |
| `SessionStreams.SweepTouches` | hub/hub.go:253-271 | for every list, the aliased loop unsubscribes only listed pairs of the channel, and every other pair stays listed |
| `SessionStreams.SweepExact` | hub/hub.go:253-271 | for a list without repeats, what the aliased loop leaves, pair by pair, and that it unsubscribes exactly the rest of the channel |
| `SessionStreams.ChannelClearedIffSpaced` | hub/hub.go:253-271 | the loop unsubscribes the whole channel iff its pairs are spaced out in the list |
| `SessionStreams.SweepReadsExactly` | hub/hub.go:253-271 | for every list, repeats included, the aliased loop unsubscribes exactly the pairs a scan of the list reads that skips one behind every pair of the channel |
| `SessionStreams.SpacedAllRead` | hub/hub.go:253-271 | for every list, repeats included, it reads the whole channel if the channel's pairs are spaced out |
| `SessionStreams.RepeatsClearedUnspaced` | hub/hub.go:253-271 | with repeats the converse fails |
| `SessionStreams.MiddleStreamSkipped` | hub/hub.go:260-266 | with three streams in one channel the middle one stays subscribed |
| `Hub.Index` | hub/hub.go:374-382 | every stream has one gate, within the number of gates |
| `Hub.Hub.constructor` | hub/hub.go:94-110 | a hub of any positive number of gates starts as the empty relation |
| `Hub.Hub.SubscribeSession` | hub/hub.go:273-288 | refines adding one triple to the flat relation and one pair to the session's list |
| `Hub.Hub.UnsubscribeSession` | hub/hub.go:290-303 | refines removing one triple, and the first occurrence of its pair |
| `Hub.Hub.RemoveSession` | hub/hub.go:210-236 | refines removing every triple listed for the session |
| `Hub.Hub.UnsubscribeSessionFromChannel` | hub/hub.go:253-271 | refines the aliased loop: gates and list change exactly as the in-place sweep says |
| `Hub.Hub.StreamsSize` | hub/hub.go:182-188 | adding up the gates counts every subscribed stream once |
| `Hub.RunTracked` | hub/hub.go:190-303 | after every run, every subscription in a gate is on its session's list |
| `Hub.RemoveSessionForgets` | hub/hub.go:210-251 | after every run, removing a session removes exactly its subscriptions: no gate mentions it, and no other session loses one |
| `Hub.OthersUntouched` | hub/hub.go:190-303 | an operation on one session changes no subscription and no list of another |
| `Hub.ChannelTouchesTarget` | hub/hub.go:253-271 | unsubscribing a channel touches no subscription of another channel, repeats included |
| `Hub.ChannelKeepsUnread` | hub/hub.go:253-271 | for every list, a subscription of the channel stays in its gate iff the loop does not read it |
| `Hub.ChannelRemovedIfSpaced` | hub/hub.go:253-271 | for every list, it removes every subscription of the channel if the channel's pairs are spaced out |
| `Hub.ChannelRemovedIffSpaced` | hub/hub.go:253-271 | for a list without repeats that is all subscribed, it removes every subscription of the channel iff the channel's pairs are spaced out |
| `HubSteps.SurvivesSplit` | hub/hub.go:210-303 | with gate and list changed in separate critical sections and removals in three, and everything interleaved: if the operations of a session take turns, between them every subscription of it in a gate is on its list, and when its removal ends no gate mentions it |
| `HubSteps.SubscribeAlone` | hub/hub.go:273-288 | a subscribe with nothing in between its two critical sections is the one operation that `Hub` specifies |
| `HubSteps.UnsubscribeAlone` | hub/hub.go:290-303 | so is an unsubscribe |
| `HubSteps.RemoveAlone` | hub/hub.go:210-236 | so is a removal with nothing in between its three |
| `HubSteps.OneSection` | hub/hub.go:253-271 | unsubscribing a channel, whatever else is in progress, removes exactly the subscriptions of the channel that the loop reads |
| `HubSteps.LosesIff` | hub/hub.go:190-303 | a step takes a session's subscription in a gate off every list, with nobody about to list it, if and only if it begins a new list, deletes the list, or removes its last mention while the subscription is in a gate |
| `HubSteps.NeverLostIff` | hub/hub.go:190-303 | over every run, a session's operations overlapping or not, its subscriptions in gates stay on its list or about to be, throughout, if and only if no such step is taken |
| `HubSteps.SubscribeDuringRemovalLost` | hub/hub.go:210-288 | a run where a subscribe during a removal leaves a subscription on no list |
| `Node.SubscriptionState.RemoveChannelStreams` | node/subscription_state.go:89-108 | empties the channel but keeps it, and returns what it held |
| `Node.SubscriptionState.StreamsFor` | node/subscription_state.go:110-127 | lists the channel's streams once each |
| `Node.Session.HandleCommandReply` | node/node.go:884-919 | a reply changes hub, view and the broker's tracker together: stop-all, or the stopped streams, then the new ones |
| `Node.Session.Execute` | node/node.go:437-584 | subscribe, unsubscribe and perform, with their channel checks and every outcome of the call, change hub, view and tracker as specified |
| `Node.Session.Resubscribe` | node/node.go:411-417 | a restored session is subscribed in the hub, and in the tracker, to everything in its view, once each and in any order |
| `Node.ResubscribedExactly` | node/node.go:408-417 | a restore adds to the hub what the restored view holds, for that session, and nothing else |
| `Node.RepliedAgrees` | node/node.go:884-919 | no reply leaves a stream in the session's view that is not in the hub, and none touches another session's subscriptions |
| `Node.RepliedExactly` | node/node.go:884-919 | a reply leaves a known channel with what it had, less what it stops, plus what it starts, in the view and (short of stop-all) in the hub, and no other channel changes |
| `Node.AnswerTakesEffect` | node/node.go:437-584 | a confirmed subscribe makes the channel known with exactly the streams of the reply, a rejected one leaves it unknown, an unsubscribe forgets it, and a perform changes its streams as the reply says |
| `Node.CommandInHub` | node/node.go:437-584 | whatever the command and the outcome of its call: a refused one changes nothing; otherwise a stream of the channel is in the hub afterwards iff the reply starts it, or it was there and is not stopped, where a stop-all reply and every answered unsubscribe stop what the removal reads of the session's list |
| `Node.StopAllExactly` | node/node.go:892-899 | what a reply that stops all streams leaves of the channel in the hub |
| `Node.UnsubscribeClears` | node/node.go:512-528 | an answered unsubscribe that starts nothing leaves nothing of the channel in the hub if its pairs are spaced out in the session's list |
| `Node.RaisedCounts` | node/node.go:911-919 | every stream a reply starts is counted by the tracker once more for each time it is named |
| `Node.RestoredCounts` | node/node.go:411-417 | a restore counts a stream once more for every channel of the view that has it |
| `Node.ExecutedAgrees` | node/node.go:437-584 | no command leaves a stream in the session's view that is not in the hub, whatever the call returns |
| `Node.CommandIsPlan` | node/node.go:437-584 | a command is a sequence of steps on hub and view, stream by stream |
| `Node.GivenBackIff` | node/node.go:884-919 | whatever the command and the outcome of its call, a stream is given back to the broadcaster if and only if the reply handled gives it up and does not start it again, and the tracker counts it once |
| `Node.UnsubscribeGivesNothingBack` | node/node.go:514-527 | an answered unsubscribe gives no stream back and lowers no count, whatever the reply names |
| `Node.StopAllGivesBack` | node/node.go:892-899 | a perform told to stop all streams gives back exactly those of the channel that are counted once and not started again |
| `Node.SubscribedForGood` | node/node.go:437-544 | after an answered subscribe and an answered unsubscribe of a channel the broadcaster still has its streams |
| `Node.ViewsWithinHub` | node/node.go:379-584 | in every state of every run of any number of sessions whose restores and commands interleave step by step, and go on after a disconnect: until a session is removed, every stream in its view is subscribed in the hub under that channel, or waits for its turn in the restore |
| `Node.RegisteredUntilRemoved` | node/node.go:406-409 | in every state of every run the hub knows every session that has come to be registered, until it is removed |
| `Node.LeavesBehindIff` | node/node.go:804-828 | when the hub mentions only sessions connected or about to be removed, a step keeps it so if and only if it does not start a stream for a session already removed |
| `Node.ListedBehindIff` | hub/hub.go:190-208 | a step leaves a removed session on the hub's list of sessions iff it registers one, or starts a stream for one |
| `Node.NobodyLeftBehindIff` | node/node.go:804-828 | over every run, however sessions come and go, the hub mentions only sessions connected or about to be removed, throughout, if and only if no stream is ever started for a session already removed |
| `Node.ReplyAfterRemoval` | node/node.go:911-919 | a run where a session is disconnected and removed while it waits for the application, and the reply subscribes it |
| `Node.LeftForGood` | hub/hub.go:273-288 | such a subscription stays whatever the other sessions do, until the removed session itself stops it |
| `SessionState.SessionEnv.MergeConnectionState` | common/common.go:118-126 | the loop over the update, in any order, overwrites the named fields and removes those given empty |
| `SessionState.SessionEnv.MergeChannelState` | common/common.go:131-143 | the same for one channel, whose state is created when missing, and no other channel changes |
| `SessionState.MergeOverwrites` | common/common.go:118-143 | read back field by field, a merge overwrites what it names, keeps the rest, and leaves no empty value |
| `SessionState.Session.ToCacheEntry` | node/session.go:435-448 | the cached form holds the whole state, with every channel's streams once each |
| `SessionState.Session.RestoreFromCache` | node/session.go:450-480 | the cached form is merged into whatever the session holds, in any order of its maps |
| `SessionState.RestoreExactIff` | node/session.go:435-480 | a new session restored from another's cached form equals it iff the other holds no empty value |
| `SessionState.RestoreReproduces` | node/session.go:435-480 | whatever a session went through, restores included, a new session restored from its cached form is the same |
| `SessionState.RestoreOverwrites` | node/session.go:450-480 | read back field by field, a restore into any session takes the cached identifiers, overwrites the fields and channels the cached form names, and keeps the rest |
| `SessionClose.Session.SendFrame` | node/session.go:559-579 | by itself, a send terminates, never uses a closed channel, and on overflow closes it once and disconnects |
| `SessionClose.Session.Disconnect` | node/session.go:399-403 | by itself, a disconnect terminates and runs its parts in order |
| `SessionClose.Session.DisconnectFromNode` | node/session.go:486-493 | the executor is told exactly when the session was connected |
| `SessionClose.Session.DisconnectNow` | node/session.go:499-522 | nothing for a session not connected; otherwise leaves the node, writes a close frame, closes the channel and marks the session closed |
| `SessionClose.SendEffect` | node/session.go:559-579 | a send queues its frame, does nothing without a channel, and on a full channel loses the frame, closes the channel and leaves the session closed, off the node, with the executor told once |
| `SessionClose.DisconnectAlways` | node/session.go:399-403 | from every state a disconnect leaves the session closed and off the node and tells the executor once if it was connected; its close frame is queued unless the channel is gone or full |
| `SessionClose.DisconnectNowEffect` | node/session.go:499-522 | an immediate disconnect of a connected session leaves it closed, off the node and without a channel, with one close frame written; of any other session it does nothing |
| `SessionClose.RunSafe` | node/session.go:331-348 | in every interleaving of any number of goroutines and the writer, the channel is closed at most once and never used afterwards, the executor is told at most once per time the session became connected, and exactly once when the session is off the node with nobody about to tell it, and the writer writes what was sent in order, with at most one close frame and nothing after it |
| `SessionClose.ClosedWhenDone` | node/session.go:499-542 | however others interleave, a goroutine that was to close the session or its channel has done so when it is finished, and neither opens again |
| `SessionClose.WriterDisconnects` | node/session.go:331-348 | however others interleave, a writer that ends on a close frame or a failed write disconnects the session with the right code: when it is finished, session and channel are closed, or the session was off the node already |
| `SessionClose.CallsInOrder` | node/session.go:399-403 | a goroutine makes all its calls, each after the ones before |
| `SessionClose.StepWorks` | node/session.go:559-579 | every action of a goroutine strictly reduces the work it has left, overflow included |
| `SessionClose.CallsTerminate` | node/session.go:399-403 | however others interleave, a goroutine finishes its calls within a number of steps fixed when it starts, and is never blocked before |
| `SessionClose.ProgramsWork` | node/session.go:486-579 | that number is at most eight steps per call |
| `RedisSubscriber.Subscriber.Subscribe` | pubsub/redis.go:143-150 | records the stream and issues a subscribe command, also for a stream already recorded |
| `RedisSubscriber.Subscriber.Unsubscribe` | pubsub/redis.go:152-163 | forgets a recorded stream and issues a command, and does neither for an unknown one |
| `RedisSubscriber.Subscriber.Resubscribe` | pubsub/redis.go:313-350 | the loop with its reused buffer sends the batches of the keys in order and stops at the first that fails |
| `RedisSubscriber.BatchesCover` | pubsub/redis.go:313-342 | the batches hold every key exactly once and in order, from 1 to 256 each, and all but the last are full |
| `RedisSubscriber.RecordedIffCalled` | pubsub/redis.go:143-163 | after every run, a stream is recorded iff the last call about it was a subscribe; without a call, only the internal channel is |
| `RedisSubscriber.StreamConverges` | pubsub/redis.go:210-311 | over any number of drops and reconnects, a stream whose calls do not overlap is subscribed on the server iff it is recorded, whenever the link is up, nothing sent over it has failed, and nothing about the stream is on its way |
| `RedisSubscriber.ConvergesIff` | pubsub/redis.go:210-350 | over any number of drops and reconnects and however the calls overlap: when the link is up, nothing sent over it has failed and nothing about a stream is on its way, the stream is subscribed on the server iff it is recorded, if and only if no command about it was carried out over this link or the last one asked for what is recorded |
| `RedisSubscriber.Converges` | pubsub/redis.go:143-163 | with one caller at a time the server's subscriptions equal the recorded ones whenever the link is up, nothing sent over it has failed, and the queue is drained |
| `RedisSubscriber.OverlapDiverges` | pubsub/redis.go:143-163 | a run of two overlapping callers that ends connected and drained with a stream subscribed that was given up |
| `RedisSubscriber.FailedBatchMissing` | pubsub/redis.go:313-342 | a failed batch leaves the link up and its streams out |
| `Retry.Run` | rpc/rpc.go:456-514 | the loop ends for every sequence of replies, after at most 73 calls and 5560 ms of sleep, with the outcome its last reply calls for |
| `Retry.RunBounded` | rpc/rpc.go:456-514 | across switches between the two kinds of reply, the time slept is at least the interval times (2^attempt - 1), and bounds the rounds made |
| `Retry.ScheduleBounded` | rpc/rpc.go:456-514 | no schedule sleeps more than 5560 ms or takes more than 72 rounds |
| `Retry.SleepReached` | rpc/rpc.go:456-514 | 5560 ms is reached |
| `Retry.RoundsReached` | rpc/rpc.go:456-514 | 72 rounds are reached |
| `EventId.PrintParse` | sse/sse.go:129-150 | parsing a printed number returns it exactly up to the 64-bit limit, and fails above |
| `EventId.RoundTrip` | sse/encoder.go:67-71 | an id is written exactly for events with an offset, an epoch and a stream; read back, it asks for the history after exactly that event of that stream, slashes in the stream name included, iff the epoch has no slash |
| `EventId.DecodeExactly` | sse/sse.go:129-150 | what any header asks for: without two slashes nothing; otherwise offset, epoch and, slashes included, stream; malformed iff the first part is not a 64-bit number |
| `EventId.HeaderForms` | sse/sse.go:129-150 | every header is of one of the forms that `EventId.DecodeExactly` is about |
| `EventId.IdsDistinct` | sse/encoder.go:67-71 | two events with slash-free epochs never share an id |

## Left out

- History.MemStream.AppendEntry: asks for a history limit of at least one, since the code indexes an empty slice otherwise.
- MemoryBroker.Memory.Handle: does not model 64-bit overflow of clock plus ten times the TTL; times are unbounded integers.
- MemoryBroker.Memory.Store: is the lookup and the insert in sequence; what may come in between is in `BrokerSteps`.
- StreamsTracker.Tracker.Subscribe: is the tracker's call and the broadcaster's in sequence, and takes counts as unbounded; what may come in between is in `StreamsTracker.NeverTooEarlyInTurn`.
- SessionStreams.SweepExact: says what is left of the list for lists without repeats only; what is unsubscribed is said for every list in `SessionStreams.SweepReadsExactly`.
- Hub.Hub.SubscribeSession: is the gate's change and the list's in sequence; what may come in between is in `HubSteps`.
- Hub.RunTracked: asks that a session is added only while no gate mentions it, since the code overwrites the list.
- Node.Session.Execute: the two error paths that return with the session's state mutex held change nothing, and what then blocks is not modelled.
- Node.ViewsWithinHub: the change of the hub and that of the view for one stream are one step.
- History.MemStream.Add: takes the two readings of the clock inside one append, for the entry and for the deadline, to be one.
- Gate.Shard.PerformBroadcast: takes the payload as text; decoding it as JSON before it is encoded again is not modelled.
- SessionState.Session.ToCacheEntry: takes the JSON encoding between the two calls to be faithful.
- RedisSubscriber.Subscriber.Resubscribe: the back-off between reconnects and their limit are not modelled.
- CatchUp.NothingMissed: queues are unbounded, where the code's senders block on full channels.
- The hub's map from connection identifiers to sessions, with remote disconnects and session lookup: it takes no part in subscriptions or delivery.
- The priority queue of `utils`: its order comes from Go's container/heap, which is not in the repository.
- The disconnect queue: enqueueing races with its shutdown, and it promises no delivery that could be stated.
- The encoding cache, pools, barriers, counters and metrics: no other part of the system relies on their internals.
- SSE wire framing, such as line breaks inside names, beyond the id text.
- NATS and JetStream brokers, the Redis client itself, RPC transports, WebSocket and HTTP handlers, JWT and HMAC: foreign clients and codecs.
- Timers, pings, and whether anything happens in time: only safety and bounds on steps are proved.
- Command line, configuration, telemetry and logging: they do not change what is modelled here.
