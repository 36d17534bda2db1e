/**
 * The record shapes shared by the hooks and the client: conversation messages, their
 * sources, and the `{response, data}` envelopes the chat backend answers with.
 */
module Types {
  import opened Wrappers

  /** The two roles a message may carry. */
  const USER := "USER"
  const ASSISTANT := "ASSISTANT"

  /** A document the backend cites for an answer; `similarity` is a score in [0, 1]. */
  datatype Source = Source(url: string, title: string, similarity: real, excerpt: string)

  /** One transcript entry; `timestamp` is in milliseconds since the epoch. */
  datatype Message = Message(
    id: string,
    role: string,
    content: string,
    timestamp: nat,
    sources: Option<seq<Source>>)

  /** The `response` part of every envelope. */
  datatype Head = Head(status: string, message: string, code: int)

  /** A backend answer: the status head and the payload. */
  datatype Envelope<D> = Envelope(response: Head, data: D)

  datatype ChatData = ChatData(answer: string, sources: seq<Source>, sessionId: string)

  /** One message of a stored conversation as the backend returns it. */
  datatype HistoryEntry = HistoryEntry(role: string, content: string, createdAt: string)

  datatype HistoryData = HistoryData(sessionId: string, messages: seq<HistoryEntry>)

  /** The body of an HTTP error response; `response` is absent when the body has no such field. */
  datatype ErrorResponse = ErrorResponse(response: Option<Head>, errors: Option<map<string, seq<string>>>)

  /** A value thrown in JavaScript: an `Error` with its message, or anything else. */
  datatype Thrown = Error(message: string) | NonError

  /** How an awaited request settles: its payload, or the value it was rejected with. */
  datatype Outcome<D> = Success(data: D) | Failure(thrown: Thrown)
}
