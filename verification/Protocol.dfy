/** The frames that travel on a connection, as far as calls are concerned. */
module Protocol {

  /** Request, item and response payloads: only their identity matters here. */
  type Payload(==, 0, !new)

  type CallId = string

  /** Which peer produces the items of a stream. */
  datatype Direction = FromClient | FromServer

  datatype Body =
    | Open
    | Cancel
    | Window(direction: Direction, credit: int)
    | Item(direction: Direction, sequence: nat, payload: Payload)
    | End(direction: Direction)
    | Result
    | Error

  /** A frame of one call, or a frame of the whole session (hello, ping, pong, drain, …). */
  datatype Frame = Call(callId: CallId, body: Body) | Session(nonce: string)

  predicate IsControlBody(body: Body) { body.Cancel? || body.Window? }

  /** Frames that are sent ahead of everything that belongs to a call's data. */
  predicate IsControl(frame: Frame) { frame.Session? || IsControlBody(frame.body) }
}
