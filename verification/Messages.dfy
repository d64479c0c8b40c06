/** The values that travel between the log, the subscriber socket and the client. */
module Messages {

  /** A random identifier; that fresh ones do not collide is stated where it is needed. */
  type Uuid = nat

  /** An emitted event, with what the runtime supplies for it on append: its fresh id and
      the lengths of its stored value and of its serialized frame. */
  datatype Emission = Emission(channel: string, payload: string, id: Uuid, stored: nat, text: nat)

  /** A stamped event, as stored in the log and as delivered. */
  datatype Row = Row(seqno: nat, id: Uuid, tsMs: nat, channel: string, payload: string, stored: nat, text: nat)

  datatype ClosingReason = Shutdown | Revoked

  datatype ServerMsg =
    | Welcome
    | OkMsg(op: string)
    | ErrorMsg(op: string, msg: string)
    | Pong
    | EventMsg(row: Row)
    | ReplayGap(fromSeq: nat, earliestSeq: nat)
    | Replayed(throughSeq: nat)
    | Lagged(dropped: nat)
    | Closing(reason: ClosingReason)

  function Stamp(seqno: nat, event: Emission, tsMs: nat): Row {
    Row(seqno, event.id, tsMs, event.channel, event.payload, event.stored, event.text)
  }
}
