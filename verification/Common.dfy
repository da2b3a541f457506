/** The messages that brokers, hub and node pass on, and what a client is sent (`common/common.go`). */
module Common {
  import opened Basics
  import opened Names

  datatype Meta = Meta(excludeSocket: Name, broadcastType: Name, transient: bool)

  /** Only a message that was stored has an epoch. */
  datatype StreamMessage =
    StreamMessage(stream: Name, data: string, meta: Option<Meta>, offset: nat, epoch: Option<Name>)

  datatype Reply = Reply(identifier: Name, message: string, streamId: Option<Name>, offset: nat,
                         epoch: Option<Name>, kind: Option<Name>)

  /** Names the stream only if the message was stored. */
  function ToReplyFor(msg: StreamMessage, id: Name): Reply {
    Reply(id, msg.data, if msg.epoch.Some? then Some(msg.stream) else None, msg.offset, msg.epoch, None)
  }
}
