// The wire protocol of the chat pipeline: what travels on chat.msg, chat.push and chat.ack.
module Chat {
  type Uid = string
  type ConvId = string
  type Content = string  // a JSON text, never looked into

  /** Message ids. A random UUID (version 4) and a name-based one (version 5) never coincide, and
      two name-based ones coincide only when their names do. */
  datatype Id = NoId | Drawn(serial: nat) | Named(name: string)

  datatype Kind = Unset | Single | Group | SystemEvent | Other(name: string)

  /** A chat.msg payload. `newConv` and `draw` are the random values the persist worker would draw
      for a conversation id and for a message id while it handles this delivery of the frame. */
  datatype Msg = Msg(
    id: Id,
    cliId: string,
    convId: ConvId,
    fromUid: Uid,
    toUid: Uid,
    kind: Kind,
    content: Content,
    mentions: seq<Uid>,
    mentionAll: bool,
    newConv: ConvId,
    draw: nat)

  /** A chat.push payload; its Kafka key is `toUid`. */
  datatype Push = Push(
    id: Id,
    cliId: string,
    convId: ConvId,
    seqNo: int,
    fromUid: Uid,
    toUid: Uid,
    kind: Kind,
    content: Content,
    mention: bool)

  /** A chat.ack payload; its Kafka key is `fromUid`. */
  datatype Ack = Ack(
    id: Id,
    cliId: string,
    convId: ConvId,
    seqNo: int,
    fromUid: Uid,
    toUid: Uid)

  function AckFromPush(p: Push): Ack {
    Ack(p.id, p.cliId, p.convId, p.seqNo, p.fromUid, p.toUid)
  }

  /** The value of an online:{uid} record: `cs` names the owning server, `addr` its gRPC address. */
  datatype OnlineValue = Malformed(raw: string) | Route(cs: string, addr: string)
}
