/** The frames a server sends (core/frames.py). */
module Frames {
  import opened Basics
  import opened Jobs
  import opened SessionLog

  datatype ErrorCode =
    | BadFrame | UnsupportedVersion | TooManyTurns | TooManyConnections | GoingAway | Internal | ResumeTooOld

  datatype ServerFrame =
    | Ack(clientMsgId: string, seqNo: nat, messageId: Uuid, replyMessageId: Option<Uuid>)
    | Delta(messageId: Uuid, chunkIndex: nat, text: string)
    | Done(messageId: Uuid, seqNo: nat)
    | Error(code: ErrorCode, retryable: bool)
    | Pong
    | Message(stored: StoredMessage)
    | JobStatus(event: JobEvent)
}
