/**
 * `useCustomerSupport`: the conversation-state controller. It keeps the transcript and the
 * session id in two persisted cells, plus a busy flag and the last error, and drives the
 * API client. Each asynchronous operation is split at its `await` into a begin step and a
 * complete step; the clock, the random text and the network outcome are parameters.
 */
module CustomerSupport {
  import opened Wrappers
  import opened Strings
  import opened Types
  import opened LocalStorage
  import ApiClient

  const SESSION_STORAGE_KEY := "customer_support_session_id"
  const MESSAGES_STORAGE_KEY := "customer_support_messages"
  const CLIENT_NOT_INITIALIZED := "API client not initialized"
  const HOOK_SEND_FALLBACK := "Failed to send message"
  const HOOK_HISTORY_FALLBACK := "Failed to load history"
  const ERROR_REPLY_PREFIX := "Sorry, I encountered an error: "

  /** The USER message a send appends at clock reading `now`; it carries the question untrimmed. */
  function UserMessage(question: string, now: nat): (m: Message)
    ensures m.id == "user_" + Decimal(now) && m.role == USER
    ensures m.content == question && m.timestamp == now && m.sources.None?
  {
    Message("user_" + Decimal(now), USER, question, now, None)
  }

  /** The ASSISTANT message for a successful answer: its text and its sources. */
  function AssistantMessage(data: ChatData, now: nat): (m: Message)
    ensures m.id == "assistant_" + Decimal(now) && m.role == ASSISTANT
    ensures m.content == data.answer && m.timestamp == now && m.sources == Some(data.sources)
  {
    Message("assistant_" + Decimal(now), ASSISTANT, data.answer, now, Some(data.sources))
  }

  /** The synthetic ASSISTANT message that shows a failed send in the transcript. */
  function ErrorReply(message: string, now: nat): (m: Message)
    ensures m.id == "error_" + Decimal(now) && m.role == ASSISTANT
    ensures m.content == ERROR_REPLY_PREFIX + message && m.timestamp == now && m.sources.None?
  {
    Message("error_" + Decimal(now), ASSISTANT, ERROR_REPLY_PREFIX + message, now, None)
  }

  /** The message a send appends once its request has settled. */
  function SendReply(outcome: Outcome<ChatData>, now: nat): Message
  {
    match outcome
    case Success(data) => AssistantMessage(data, now)
    case Failure(thrown) => ErrorReply(ApiClient.Rethrow(thrown, HOOK_SEND_FALLBACK).message, now)
  }

  /**
   * A send the client rejects shows the client's own message in the transcript: the
   * hook's "Failed to send message" fallback is never reached through the client.
   */
  lemma ClientFailureReply(t: ApiClient.Transport<ChatData>, now: nat)
    requires ApiClient.SendMessageResult(t).Failure?
    ensures var reply := SendReply(ApiClient.SendMessageResult(t), now);
      && reply.role == ASSISTANT && reply.sources.None?
      && reply.content == ERROR_REPLY_PREFIX + ApiClient.Settle(t).thrown.message
  {
    ApiClient.CatchKeepsSettledOutcome(t, ApiClient.SEND_FAILED);
  }

  /**
   * A send's USER message and its reply never share an id, whatever the clock readings:
   * the ids start with different words.
   */
  lemma UserAndReplyIdsDiffer(question: string, n1: nat, outcome: Outcome<ChatData>, n2: nat)
    ensures UserMessage(question, n1).id != SendReply(outcome, n2).id
  {
    var u, r := UserMessage(question, n1).id, SendReply(outcome, n2).id;
    assert u[0] == 'u';
    assert r[0] == 'a' || r[0] == 'e';
  }

  /** USER messages appended at distinct clock readings have distinct ids. */
  lemma UserIdsAtDistinctTimesDiffer(q1: string, n1: nat, q2: string, n2: nat)
    requires n1 != n2
    ensures UserMessage(q1, n1).id != UserMessage(q2, n2).id
  {
    var p := "user_";
    if UserMessage(q1, n1).id == UserMessage(q2, n2).id {
      assert Decimal(n1) == (p + Decimal(n1))[|p|..];
      assert Decimal(n2) == (p + Decimal(n2))[|p|..];
      DecimalInjective(n1, n2);
    }
  }

  /** The updater `prev => [...prev, m]`. */
  function Appending(m: Message): Action<seq<Message>>
  {
    Updater(prev => Some(prev + [m]))
  }

  /**
   * The transcript one send leaves as the hook is written: both of its writes hand their
   * updater the list the setter captured when the call began, so the reply's write
   * replaces the list that held the USER message.
   */
  function SendTranscriptAsWritten(snapshot: seq<Message>, user: Message, reply: Message): seq<Message>
  {
    NextValue(snapshot, Appending(reply)).value
  }

  /** The transcript one send leaves when each updater is handed the list as it stands. */
  function SendTranscript(snapshot: seq<Message>, user: Message, reply: Message): seq<Message>
  {
    NextValue(NextValue(snapshot, Appending(user)).value, Appending(reply)).value
  }

  /** As written, a completed send keeps the reply and loses the USER message. */
  lemma AsWrittenSendDropsUserMessage(snapshot: seq<Message>, user: Message, reply: Message)
    requires user !in snapshot && user != reply
    ensures SendTranscriptAsWritten(snapshot, user, reply) == snapshot + [reply]
    ensures user !in SendTranscriptAsWritten(snapshot, user, reply)
  {
  }

  /** Sending "Hello" to an empty transcript and getting "Hi there" back leaves one message, not two. */
  lemma AsWrittenHelloScenario()
    ensures var user := UserMessage("Hello", 1);
            var reply := AssistantMessage(ChatData("Hi there", [], "session_abc"), 2);
            SendTranscriptAsWritten([], user, reply) == [reply] &&
            SendTranscript([], user, reply) == [user, reply]
  {
  }

  /** With updaters handed the current list, a send appends exactly its USER message and then its reply. */
  lemma IntendedSendAppendsBoth(snapshot: seq<Message>, user: Message, reply: Message)
    ensures SendTranscript(snapshot, user, reply) == snapshot + [user, reply]
    ensures |SendTranscript(snapshot, user, reply)| == |snapshot| + 2
    ensures SendTranscript(snapshot, user, reply)[..|snapshot|] == snapshot
  {
  }

  /** The id a loaded history message gets: lower-cased role, position and clock reading. */
  function HistoryMessageId(role: string, index: nat, now: nat): string
  {
    AsciiLower(role) + "_" + Decimal(index) + "_" + Decimal(now)
  }

  /** The message history entry `e` at position `index` becomes at clock reading `now`. */
  function LoadedMessage(e: HistoryEntry, index: nat, now: nat, toMillis: string -> nat): (m: Message)
    ensures m.id == HistoryMessageId(e.role, index, now) && m.role == AsciiUpper(e.role)
    ensures m.content == e.content && m.timestamp == toMillis(e.createdAt) && m.sources.None?
  {
    Message(HistoryMessageId(e.role, index, now), AsciiUpper(e.role), e.content, toMillis(e.createdAt), None)
  }

  /**
   * `history.messages.map((msg, index) => ...)`; `clock(i)` is the reading `Date.now()` gives
   * while entry `i` is mapped, and `toMillis` stands for `new Date(created_at)`.
   */
  function LoadedMessages(entries: seq<HistoryEntry>, clock: nat -> nat, toMillis: string -> nat): (r: seq<Message>)
    ensures |r| == |entries|
  {
    seq(|entries|, i requires 0 <= i < |entries| => LoadedMessage(entries[i], i, clock(i), toMillis))
  }

  /**
   * Entry `i` of a loaded history: the role upper-cased, the content kept, no sources, and
   * an id made of the lower-cased role, the position and the clock reading.
   */
  lemma LoadedHistoryAt(entries: seq<HistoryEntry>, clock: nat -> nat, toMillis: string -> nat, i: nat)
    requires i < |entries|
    ensures var m := LoadedMessages(entries, clock, toMillis)[i];
      && m.role == AsciiUpper(entries[i].role) && AsciiUpper(m.role) == m.role
      && m.id == AsciiLower(m.role) + "_" + Decimal(i) + "_" + Decimal(clock(i))
      && m.content == entries[i].content
      && m.timestamp == toMillis(entries[i].createdAt)
      && m.sources.None?
  {
    assert LoadedMessages(entries, clock, toMillis)[i] == LoadedMessage(entries[i], i, clock(i), toMillis);
    UpperIdempotent(entries[i].role);
    LowerOfUpper(entries[i].role);
  }

  predicate IdsUnique(msgs: seq<Message>)
  {
    forall i, j :: 0 <= i < j < |msgs| ==> msgs[i].id != msgs[j].id
  }

  /** The position and the clock reading are recoverable from a history id, whatever the roles are. */
  lemma {:induction false} HistoryIdDeterminesIndex(r1: string, i: nat, n1: nat, r2: string, j: nat, n2: nat)
    requires HistoryMessageId(r1, i, n1) == HistoryMessageId(r2, j, n2)
    ensures i == j && n1 == n2
  {
    var a, b := AsciiLower(r1) + "_" + Decimal(i), AsciiLower(r2) + "_" + Decimal(j);
    assert HistoryMessageId(r1, i, n1) == a + ['_'] + Decimal(n1);
    assert HistoryMessageId(r2, j, n2) == b + ['_'] + Decimal(n2);
    DecimalExcludes(n1, '_');
    DecimalExcludes(n2, '_');
    SplitAtLastSeparator(a, Decimal(n1), b, Decimal(n2), '_');
    DecimalInjective(n1, n2);
    assert a == AsciiLower(r1) + ['_'] + Decimal(i) && b == AsciiLower(r2) + ['_'] + Decimal(j);
    DecimalExcludes(i, '_');
    DecimalExcludes(j, '_');
    SplitAtLastSeparator(AsciiLower(r1), Decimal(i), AsciiLower(r2), Decimal(j), '_');
    DecimalInjective(i, j);
  }

  /** A loaded history never holds two messages with the same id, whatever the roles and clock readings. */
  lemma LoadedIdsUnique(entries: seq<HistoryEntry>, clock: nat -> nat, toMillis: string -> nat)
    ensures IdsUnique(LoadedMessages(entries, clock, toMillis))
  {
    var r := LoadedMessages(entries, clock, toMillis);
    forall i, j | 0 <= i < j < |r| ensures r[i].id != r[j].id {
      if r[i].id == r[j].id {
        HistoryIdDeterminesIndex(entries[i].role, i, clock(i), entries[j].role, j, clock(j));
      }
    }
  }

  /** `prev.filter((msg) => msg.id !== id)`. */
  function Without(msgs: seq<Message>, id: string): (r: seq<Message>)
    ensures |r| <= |msgs|
    ensures forall i :: 0 <= i < |r| ==> r[i].id != id
  {
    if msgs == [] then []
    else (if msgs[0].id == id then [] else [msgs[0]]) + Without(msgs[1..], id)
  }

  /** A message survives the deletion of `id` exactly when it was there and carries another id. */
  lemma {:induction false} WithoutMembers(msgs: seq<Message>, id: string, m: Message)
    ensures m in Without(msgs, id) <==> m in msgs && m.id != id
  {
    if msgs != [] {
      WithoutMembers(msgs[1..], id, m);
      assert m in msgs <==> m == msgs[0] || m in msgs[1..];
    }
  }

  /** Filtering distributes over concatenation, so the kept messages stay in their order. */
  lemma {:induction false} WithoutAppend(a: seq<Message>, b: seq<Message>, id: string)
    ensures Without(a + b, id) == Without(a, id) + Without(b, id)
  {
    if a == [] {
      assert a + b == b;
    } else {
      var head := if a[0].id == id then [] else [a[0]];
      assert (a + b)[0] == a[0] && (a + b)[1..] == a[1..] + b;
      assert Without(a + b, id) == head + Without(a[1..] + b, id);
      WithoutAppend(a[1..], b, id);
      assert Without(a, id) == head + Without(a[1..], id);
    }
  }

  /** Deleting an id no message carries changes nothing. */
  lemma {:induction false} WithoutAbsent(msgs: seq<Message>, id: string)
    requires forall i :: 0 <= i < |msgs| ==> msgs[i].id != id
    ensures Without(msgs, id) == msgs
  {
    if msgs != [] {
      WithoutAbsent(msgs[1..], id);
    }
  }

  /** With unique ids, deleting the id at position `k` removes exactly that message. */
  lemma WithoutRemovesOne(msgs: seq<Message>, id: string, k: nat)
    requires IdsUnique(msgs) && k < |msgs| && msgs[k].id == id
    ensures Without(msgs, id) == msgs[..k] + msgs[k + 1..]
    ensures |Without(msgs, id)| == |msgs| - 1
  {
    var front, x, back := msgs[..k], msgs[k], msgs[k + 1..];
    assert msgs == front + ([x] + back);
    forall i | 0 <= i < |front| ensures front[i].id != id {
      assert front[i] == msgs[i];
    }
    forall i | 0 <= i < |back| ensures back[i].id != id {
      assert back[i] == msgs[k + 1 + i];
    }
    calc {
      Without(msgs, id);
      { WithoutAppend(front, [x] + back, id); }
      Without(front, id) + Without([x] + back, id);
      { WithoutAppend([x], back, id); }
      Without(front, id) + (Without([x], id) + Without(back, id));
      { assert [x][1..] == []; WithoutAbsent(front, id); WithoutAbsent(back, id); }
      front + ([] + back);
    }
    assert front + ([] + back) == front + back;
  }

  /** What `onError?.(e)` records: one call when a handler was given, none otherwise. */
  function Emitted(hasHandler: bool, message: string): seq<string>
  {
    if hasHandler then [message] else []
  }

  /** What a send carries across its `await`: the values its closures captured, and its request. */
  datatype PendingSend = PendingSend(
    question: string,
    sessionId: string,
    snapshot: seq<Message>,
    userMessage: Message,
    request: ApiClient.Request)

  class Controller {
    const storage: Storage
    const messages: Cell<seq<Message>>
    const sessionId: Cell<string>
    const hasOnError: bool
    var isLoading: bool
    var error: Option<string>
    var client: ApiClient.CustomerSupportClient?
    ghost var onErrorCalls: seq<string>

    ghost predicate Valid()
    {
      && messages.storage == storage && sessionId.storage == storage
      && messages.key == MESSAGES_STORAGE_KEY && sessionId.key == SESSION_STORAGE_KEY
      && messages as object != sessionId as object
    }

    /** The hook's first render: both cells read their initial values; no client exists yet. */
    constructor (storage: Storage, messagesCodec: Codec<seq<Message>>, sessionCodec: Codec<string>,
                 hasOnError: bool, now: nat, randomText: string)
      ensures Valid() && this.storage == storage && this.hasOnError == hasOnError
      ensures fresh(messages) && fresh(sessionId)
      ensures messages.codec == messagesCodec && sessionId.codec == sessionCodec
      ensures messages.value == ReadInitial(storage.entries, storage.readable, MESSAGES_STORAGE_KEY, [], messagesCodec.decode)
      ensures sessionId.value == ReadInitial(storage.entries, storage.readable, SESSION_STORAGE_KEY,
                                             GenerateSessionId(now, randomText), sessionCodec.decode)
      ensures !isLoading && error == None && client == null && onErrorCalls == []
      ensures storage.entries == old(storage.entries)
    {
      this.storage := storage;
      this.hasOnError := hasOnError;
      messages := new Cell(storage, MESSAGES_STORAGE_KEY, [], messagesCodec);
      sessionId := new Cell(storage, SESSION_STORAGE_KEY, GenerateSessionId(now, randomText), sessionCodec);
      isLoading := false;
      error := None;
      client := null;
      onErrorCalls := [];
    }

    /** The effect that (re)creates the API client from the hook's options. */
    method InitClient(apiKey: string, baseUrl: Option<string>)
      modifies this
      ensures client != null && fresh(client)
      ensures client.instanceApiKey == Some(apiKey) && client.commonApiKey == None && client.baseUrl == baseUrl.GetOr(ApiClient.DEFAULT_BASE_URL)
      ensures isLoading == old(isLoading) && error == old(error) && onErrorCalls == old(onErrorCalls)
    {
      client := new ApiClient.CustomerSupportClient(apiKey, baseUrl);
    }

    method ClearError()
      modifies this
      ensures error == None
      ensures isLoading == old(isLoading) && client == old(client) && onErrorCalls == old(onErrorCalls)
    {
      error := None;
    }

    /**
     * `sendMessage(question)` up to its `await`. Without a client it records and reports
     * the error; a blank question changes nothing; otherwise the USER message is appended
     * and the request is returned for the network.
     */
    method BeginSend(question: string, now: nat) returns (pending: Option<PendingSend>)
      requires Valid()
      modifies this, messages, storage
      ensures client == old(client) && sessionId.value == old(sessionId.value)
      ensures storage.readable == old(storage.readable) && storage.writable == old(storage.writable)
      ensures old(client) == null ==>
        && pending.None?
        && error == Some(CLIENT_NOT_INITIALIZED)
        && onErrorCalls == old(onErrorCalls) + Emitted(hasOnError, CLIENT_NOT_INITIALIZED)
        && isLoading == old(isLoading)
        && messages.value == old(messages.value) && storage.entries == old(storage.entries)
      ensures old(client) != null && Trim(question) == "" ==>
        && pending.None?
        && error == old(error) && onErrorCalls == old(onErrorCalls) && isLoading == old(isLoading)
        && messages.value == old(messages.value) && storage.entries == old(storage.entries)
      ensures old(client) != null && Trim(question) != "" ==>
        && pending == Some(PendingSend(question, old(sessionId.value), old(messages.value), UserMessage(question, now),
                                       old(client.ChatRequest(question, Some(sessionId.value)))))
        && messages.value == old(messages.value) + [UserMessage(question, now)]
        && storage.entries == StoredAfter(old(storage.entries), old(storage.writable), MESSAGES_STORAGE_KEY,
                                          messages.codec.encode(messages.value))
        && isLoading && error == None && onErrorCalls == old(onErrorCalls)
    {
      if client == null {
        error := Some(CLIENT_NOT_INITIALIZED);
        onErrorCalls := onErrorCalls + Emitted(hasOnError, CLIENT_NOT_INITIALIZED);
        return None;
      }
      if Trim(question) == "" {
        return None;
      }
      pending := AppendUserMessage(question, now);
    }

    /** The non-blank path of `BeginSend`: append the USER message and prepare the request. */
    method AppendUserMessage(question: string, now: nat) returns (pending: Option<PendingSend>)
      requires Valid() && client != null
      modifies this, messages, storage
      ensures client == old(client) && sessionId.value == old(sessionId.value)
      ensures storage.readable == old(storage.readable) && storage.writable == old(storage.writable)
      ensures pending == Some(PendingSend(question, old(sessionId.value), old(messages.value), UserMessage(question, now),
                                          old(client.ChatRequest(question, Some(sessionId.value)))))
      ensures messages.value == old(messages.value) + [UserMessage(question, now)]
      ensures storage.entries == StoredAfter(old(storage.entries), old(storage.writable), MESSAGES_STORAGE_KEY,
                                             messages.codec.encode(messages.value))
      ensures isLoading && error == None && onErrorCalls == old(onErrorCalls)
    {
      var user := UserMessage(question, now);
      var snapshot := messages.value;
      pending := Some(PendingSend(question, sessionId.value, snapshot, user, client.ChatRequest(question, Some(sessionId.value))));
      assert NextValue(snapshot, Appending(user)) == Some(snapshot + [user]);
      messages.Set(snapshot, Appending(user));
      isLoading := true;
      error := None;
    }

    /**
     * The state a settled send leaves when the reply's updater is handed `base`: the reply
     * appended to `base`, the session id migrated on success, the error recorded and
     * reported on failure, and the busy flag cleared either way.
     */
    twostate predicate SendSettled(p: PendingSend, outcome: Outcome<ChatData>, now: nat, base: seq<Message>)
      reads this, messages, sessionId, storage
    {
      && !isLoading && client == old(client)
      && messages.value == base + [SendReply(outcome, now)]
      && storage.readable == old(storage.readable) && storage.writable == old(storage.writable)
      && (outcome.Success? ==>
            var migrated := outcome.data.sessionId != p.sessionId;
            && error == old(error) && onErrorCalls == old(onErrorCalls)
            && sessionId.value == (if migrated then outcome.data.sessionId else old(sessionId.value))
            && storage.entries ==
                 StoredAfter(StoredAfter(old(storage.entries), old(storage.writable), MESSAGES_STORAGE_KEY,
                                         messages.codec.encode(messages.value)),
                             old(storage.writable) && migrated, SESSION_STORAGE_KEY,
                             sessionId.codec.encode(sessionId.value)))
      && (outcome.Failure? ==>
            var m := ApiClient.Rethrow(outcome.thrown, HOOK_SEND_FALLBACK).message;
            && error == Some(m) && onErrorCalls == old(onErrorCalls) + Emitted(hasOnError, m)
            && sessionId.value == old(sessionId.value)
            && storage.entries == StoredAfter(old(storage.entries), old(storage.writable), MESSAGES_STORAGE_KEY,
                                              messages.codec.encode(messages.value)))
    }

    method FinishSend(p: PendingSend, outcome: Outcome<ChatData>, now: nat, base: seq<Message>)
      requires Valid()
      modifies this, messages, sessionId, storage
      ensures SendSettled(p, outcome, now, base)
    {
      var reply := SendReply(outcome, now);
      match outcome {
        case Success(data) =>
          messages.Set(base, Appending(reply));
          if data.sessionId != p.sessionId {
            sessionId.Set(sessionId.value, Value(data.sessionId));
          }
        case Failure(thrown) =>
          var m := ApiClient.Rethrow(thrown, HOOK_SEND_FALLBACK).message;
          error := Some(m);
          onErrorCalls := onErrorCalls + Emitted(hasOnError, m);
          messages.Set(base, Appending(reply));
      }
      isLoading := false;
    }

    /**
     * `sendMessage` after its `await`, as written: the reply's updater is handed the list
     * captured when the call began.
     */
    method CompleteSend(p: PendingSend, outcome: Outcome<ChatData>, now: nat)
      requires Valid()
      modifies this, messages, sessionId, storage
      ensures SendSettled(p, outcome, now, p.snapshot)
      ensures messages.value == SendTranscriptAsWritten(p.snapshot, p.userMessage, SendReply(outcome, now))
      ensures outcome.Success? && old(sessionId.value) == p.sessionId ==> sessionId.value == outcome.data.sessionId
    {
      FinishSend(p, outcome, now, p.snapshot);
    }

    /** `sendMessage` after its `await` with the reply's updater handed the list as it stands. */
    method CompleteSendIntended(p: PendingSend, outcome: Outcome<ChatData>, now: nat)
      requires Valid()
      modifies this, messages, sessionId, storage
      ensures SendSettled(p, outcome, now, old(messages.value))
      ensures old(messages.value) == p.snapshot + [p.userMessage] ==>
        messages.value == SendTranscript(p.snapshot, p.userMessage, SendReply(outcome, now))
      ensures outcome.Success? && old(sessionId.value) == p.sessionId ==> sessionId.value == outcome.data.sessionId
    {
      FinishSend(p, outcome, now, messages.value);
    }

    /**
     * `loadHistory()` up to its `await`: nothing without a client or a session id;
     * otherwise busy, error cleared, and the request returned for the network.
     */
    method BeginLoadHistory() returns (request: Option<ApiClient.Request>)
      requires Valid()
      modifies this
      ensures client == old(client) && onErrorCalls == old(onErrorCalls)
      ensures old(client) == null || sessionId.value == "" ==>
        request.None? && isLoading == old(isLoading) && error == old(error)
      ensures old(client) != null && sessionId.value != "" ==>
        request == Some(client.HistoryRequest(sessionId.value)) && isLoading && error == None
    {
      if client == null || sessionId.value == "" {
        return None;
      }
      isLoading := true;
      error := None;
      request := Some(client.HistoryRequest(sessionId.value));
    }

    /**
     * `loadHistory()` after its `await`: on success the transcript is replaced by the
     * loaded one; on failure it is kept and the error recorded and reported.
     */
    method CompleteLoadHistory(outcome: Outcome<HistoryData>, clock: nat -> nat, toMillis: string -> nat)
      requires Valid()
      modifies this, messages, storage
      ensures !isLoading && client == old(client) && sessionId.value == old(sessionId.value)
      ensures storage.readable == old(storage.readable) && storage.writable == old(storage.writable)
      ensures outcome.Success? ==>
        && messages.value == LoadedMessages(outcome.data.messages, clock, toMillis)
        && storage.entries == StoredAfter(old(storage.entries), old(storage.writable), MESSAGES_STORAGE_KEY,
                                          messages.codec.encode(messages.value))
        && error == old(error) && onErrorCalls == old(onErrorCalls)
      ensures outcome.Failure? ==>
        var m := ApiClient.Rethrow(outcome.thrown, HOOK_HISTORY_FALLBACK).message;
        && messages.value == old(messages.value) && storage.entries == old(storage.entries)
        && error == Some(m) && onErrorCalls == old(onErrorCalls) + Emitted(hasOnError, m)
    {
      match outcome {
        case Success(history) =>
          messages.Set(messages.value, Value(LoadedMessages(history.messages, clock, toMillis)));
        case Failure(thrown) =>
          var m := ApiClient.Rethrow(thrown, HOOK_HISTORY_FALLBACK).message;
          error := Some(m);
          onErrorCalls := onErrorCalls + Emitted(hasOnError, m);
      }
      isLoading := false;
    }

    /** `clearHistory()`: an empty transcript and a freshly generated session id, both persisted. */
    method ClearHistory(now: nat, randomText: string)
      requires Valid()
      modifies messages, sessionId, storage
      ensures messages.value == [] && sessionId.value == GenerateSessionId(now, randomText)
      ensures storage.readable == old(storage.readable) && storage.writable == old(storage.writable)
      ensures storage.entries ==
        StoredAfter(StoredAfter(old(storage.entries), old(storage.writable), MESSAGES_STORAGE_KEY, messages.codec.encode([])),
                    old(storage.writable), SESSION_STORAGE_KEY, sessionId.codec.encode(sessionId.value))
    {
      messages.Set(messages.value, Value([]));
      sessionId.Set(sessionId.value, Value(GenerateSessionId(now, randomText)));
    }

    /** `deleteMessage(id)`: the messages whose id differs from `id`, in order, persisted. */
    method DeleteMessage(id: string)
      requires Valid()
      modifies messages, storage
      ensures messages.value == Without(old(messages.value), id)
      ensures storage.readable == old(storage.readable) && storage.writable == old(storage.writable)
      ensures storage.entries == StoredAfter(old(storage.entries), old(storage.writable), MESSAGES_STORAGE_KEY,
                                             messages.codec.encode(messages.value))
    {
      messages.Set(messages.value, Updater(prev => Some(Without(prev, id))));
    }
  }
}
