/** Rows of the client's local tables, and the small values every module shares. */
module Entities {

  datatype Option<+T> = None | Some(value: T)

  /** Outcome of a fallible call: a value, or the error the caller sees. */
  datatype Result<+T> = Ok(value: T) | Err(code: string)

  /** Row of `messages`: primary key `id`, unique on (`groupId`, `seqNo`). */
  datatype Message = Message(
    id: string,
    groupId: string,
    seqNo: int,
    senderId: string,
    body: string,
    clientMessageId: Option<string>,
    createdAt: int
  )

  datatype OutboxState = Pending | InFlight | Confirmed

  /** Row of `outbox`: primary key `clientMessageId`. Times are epoch milliseconds. */
  datatype OutboxRow = OutboxRow(
    clientMessageId: string,
    groupId: string,
    body: string,
    state: OutboxState,
    errorCode: Option<string>,
    attemptCount: int,
    nextAttemptAt: Option<int>,
    lastAttemptAt: Option<int>,
    createdAt: int,
    confirmedMessageId: Option<string>,
    confirmedSeq: Option<int>
  )

  /** How the UI shows an outgoing message. */
  datatype OutgoingState = ShownPending | ShownSent | ShownFailed

  function NewRow(id: string, groupId: string, body: string, now: int): OutboxRow {
    OutboxRow(id, groupId, body, Pending, None, 0, None, None, now, None, None)
  }

  function Outgoing(row: OutboxRow): OutgoingState {
    if row.state == Confirmed then ShownSent
    else if row.errorCode.Some? && row.nextAttemptAt.None? then ShownFailed
    else ShownPending
  }

  function Max(a: int, b: int): int {
    if a < b then b else a
  }

  function Min(a: int, b: int): int {
    if a < b then a else b
  }
}
