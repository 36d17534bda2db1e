/**
 * `CustomerSupportAPIClient`: its configuration, the requests it issues, and how it
 * turns every way a request can end into a payload or an `Error` with a message.
 * The transport (axios) is replaced by its outcome, a `Transport` value.
 */
module ApiClient {
  import opened Wrappers
  import opened Strings
  import opened Types

  const DEFAULT_BASE_URL := "http://localhost:8000/api"
  const TIMEOUT_MS := 30000
  const CONTENT_TYPE := "application/json"
  const CHAT_PATH := "/chat/"
  const HISTORY_PATH_PREFIX := "/chat/history/"
  const SUCCESS := "success"

  const UNKNOWN_ERROR := "An unknown error occurred"
  const NO_RESPONSE := "No response from server. Please check your connection."
  const REQUEST_FAILED := "Request failed"
  const SEND_FAILED := "Failed to send message"
  const HISTORY_FAILED := "Failed to load conversation history"

  datatype Verb = Get | Post

  /** The JSON body of a chat request; an absent session id is left out of the body. */
  datatype ChatBody = ChatBody(question: string, sessionId: Option<string>)

  /**
   * A request as the client configures it: target, the `X-API-Key` header it carries
   * (`None` when no layer sets one), timeout and body.
   */
  datatype Request = Request(
    verb: Verb,
    baseUrl: string,
    path: string,
    apiKey: Option<string>,
    contentType: string,
    timeoutMs: nat,
    body: Option<ChatBody>)

  /**
   * What the response interceptor sees of a failed request: the response body (`None` when
   * there was no response or its body is empty), whether the request went out, and the
   * transport's own message ("" when it has none).
   */
  datatype RequestFailure = RequestFailure(responseData: Option<ErrorResponse>, requestSent: bool, message: string)

  /** How a request issued through axios ends: a response envelope, or a rejection. */
  datatype Transport<D> = Received(envelope: Envelope<D>) | Rejected(failure: RequestFailure)

  /** The message of the `Error` the response interceptor throws for a failed request. */
  function InterceptedMessage(f: RequestFailure): (m: string)
    ensures m != ""
    ensures f.responseData.Some? ==>
      var head := f.responseData.value.response;
      m == (if head.Some? && head.value.message != "" then head.value.message else UNKNOWN_ERROR)
    ensures f.responseData.None? && f.requestSent ==> m == NO_RESPONSE
    ensures f.responseData.None? && !f.requestSent ==> m == (if f.message != "" then f.message else REQUEST_FAILED)
  {
    if f.responseData.Some? then
      match f.responseData.value.response
      case Some(head) => if head.message != "" then head.message else UNKNOWN_ERROR
      case None => UNKNOWN_ERROR
    else if f.requestSent then NO_RESPONSE
    else if f.message != "" then f.message
    else REQUEST_FAILED
  }

  /** The body of the `try` block: the payload of a "success" envelope, or an `Error`. */
  function Settle<D>(t: Transport<D>): (r: Outcome<D>)
    ensures r.Success? <==> t.Received? && t.envelope.response.status == SUCCESS
    ensures r.Success? ==> r.data == t.envelope.data
    ensures t.Received? && t.envelope.response.status != SUCCESS ==> r == Failure(Error(t.envelope.response.message))
    ensures t.Rejected? ==> r == Failure(Error(InterceptedMessage(t.failure)))
  {
    match t
    case Received(env) =>
      if env.response.status != SUCCESS then Failure(Error(env.response.message)) else Success(env.data)
    case Rejected(f) => Failure(Error(InterceptedMessage(f)))
  }

  /** The `catch` block: an `Error` is rethrown as it is, anything else becomes `Error(fallback)`. */
  function Rethrow(t: Thrown, fallback: string): (r: Thrown)
    ensures r.Error?
    ensures t.Error? ==> r == t
    ensures t.NonError? ==> r.message == fallback
  {
    match t
    case Error(_) => t
    case NonError => Error(fallback)
  }

  function Caught<D>(o: Outcome<D>, fallback: string): (r: Outcome<D>)
    ensures r.Success? <==> o.Success?
    ensures r.Success? ==> r.data == o.data
    ensures r.Failure? ==> r.thrown == Rethrow(o.thrown, fallback)
  {
    match o
    case Success(_) => o
    case Failure(t) => Failure(Rethrow(t, fallback))
  }

  /**
   * Everything the `try` block throws is already an `Error`, so the `catch` block hands
   * it on unchanged and the generic fallback message is never produced.
   */
  lemma {:induction false} CatchKeepsSettledOutcome<D>(t: Transport<D>, fallback: string)
    ensures Caught(Settle(t), fallback) == Settle(t)
  {
    var o := Settle(t);
    if o.Failure? {
      assert o.thrown.Error?;
    }
  }

  /**
   * `sendMessage`: what the promise it returns settles to. The catch block changes
   * nothing, so it is the try block's outcome and never the "Failed to send message" fallback.
   */
  function SendMessageResult(t: Transport<ChatData>): (r: Outcome<ChatData>)
    ensures r == Settle(t)
    ensures r.Failure? ==> r.thrown.Error?
  {
    CatchKeepsSettledOutcome(t, SEND_FAILED);
    Caught(Settle(t), SEND_FAILED)
  }

  /**
   * `getConversationHistory`: what the promise it returns settles to. As for a send, it is
   * the try block's outcome and never the "Failed to load conversation history" fallback.
   */
  function HistoryResult(t: Transport<HistoryData>): (r: Outcome<HistoryData>)
    ensures r == Settle(t)
    ensures r.Failure? ==> r.thrown.Error?
  {
    CatchKeepsSettledOutcome(t, HISTORY_FAILED);
    Caught(Settle(t), HISTORY_FAILED)
  }

  /** A rejection carries an empty message only when the backend's own envelope message was empty. */
  lemma EmptyMessageOnlyFromEnvelope<D>(t: Transport<D>, fallback: string)
    requires Caught(Settle(t), fallback).Failure?
    requires Caught(Settle(t), fallback).thrown.message == ""
    ensures t.Received? && t.envelope.response.status != SUCCESS && t.envelope.response.message == ""
  {
  }

  /** The history endpoint for one session; the session id can be read back from it. */
  function HistoryPath(sessionId: string): (p: string)
    ensures |p| == |HISTORY_PATH_PREFIX| + |sessionId| + 1
    ensures p[..|HISTORY_PATH_PREFIX|] == HISTORY_PATH_PREFIX && p[|p| - 1] == '/'
    ensures p[|HISTORY_PATH_PREFIX|..|p| - 1] == sessionId
  {
    HISTORY_PATH_PREFIX + sessionId + "/"
  }

  /** Different sessions are fetched from different endpoints. */
  lemma HistoryPathInjective(a: string, b: string)
    requires HistoryPath(a) == HistoryPath(b)
    ensures a == b
  {
  }

  /**
   * The value axios sends for the `X-API-Key` header. A request's headers are
   * `headers.common` with the instance's own headers (those given to `axios.create`)
   * merged over them, so an instance header hides the common one.
   */
  function MergedHeader(instance: Option<string>, common: Option<string>): (r: Option<string>)
    ensures r.Some? <==> instance.Some? || common.Some?
    ensures instance.Some? ==> r == instance
    ensures instance.None? ==> r == common
  {
    if instance.Some? then instance else common
  }

  /**
   * Once the constructor has set the instance header, a key written to `headers.common`
   * is never sent: whatever it is, the request still carries the constructor's key.
   */
  lemma CommonKeyShadowed(instanceKey: string, common: Option<string>, newKey: string)
    requires newKey != instanceKey
    ensures MergedHeader(Some(instanceKey), common) == Some(instanceKey)
    ensures MergedHeader(Some(instanceKey), Some(newKey)) != Some(newKey)
  {
  }

  /**
   * The client object; its configuration is what axios's instance defaults hold. The API
   * key lives in two header layers: the instance's own headers, which the constructor
   * sets, and `headers.common`, which `updateApiKey` writes.
   */
  class CustomerSupportClient {
    var baseUrl: string
    var instanceApiKey: Option<string>
    var commonApiKey: Option<string>

    /** An absent base URL falls back to the local development default. */
    constructor (apiKey: string, baseUrl: Option<string>)
      ensures instanceApiKey == Some(apiKey) && commonApiKey == None
      ensures this.baseUrl == baseUrl.GetOr(DEFAULT_BASE_URL)
    {
      instanceApiKey := Some(apiKey);
      commonApiKey := None;
      this.baseUrl := baseUrl.GetOr(DEFAULT_BASE_URL);
    }

    /** The `X-API-Key` header the client's requests carry. */
    function SentApiKey(): (k: Option<string>)
      reads this
      ensures k == MergedHeader(instanceApiKey, commonApiKey)
    {
      MergedHeader(instanceApiKey, commonApiKey)
    }

    /** The POST that `sendMessage(question, sessionId)` issues with the current configuration. */
    function ChatRequest(question: string, sessionId: Option<string>): (r: Request)
      reads this
      ensures r.verb == Post && r.path == CHAT_PATH && r.body == Some(ChatBody(question, sessionId))
      ensures r.baseUrl == baseUrl && r.apiKey == MergedHeader(instanceApiKey, commonApiKey)
      ensures r.contentType == CONTENT_TYPE && r.timeoutMs == TIMEOUT_MS
    {
      Request(Post, baseUrl, CHAT_PATH, SentApiKey(), CONTENT_TYPE, TIMEOUT_MS, Some(ChatBody(question, sessionId)))
    }

    /** The GET that `getConversationHistory(sessionId)` issues with the current configuration. */
    function HistoryRequest(sessionId: string): (r: Request)
      reads this
      ensures r.verb == Get && r.path == HistoryPath(sessionId) && r.body.None?
      ensures r.baseUrl == baseUrl && r.apiKey == MergedHeader(instanceApiKey, commonApiKey)
      ensures r.contentType == CONTENT_TYPE && r.timeoutMs == TIMEOUT_MS
    {
      Request(Get, baseUrl, HistoryPath(sessionId), SentApiKey(), CONTENT_TYPE, TIMEOUT_MS, None)
    }

    /**
     * `updateApiKey(apiKey)` as written: it sets `headers.common`, which the instance
     * header the constructor set hides, so the key the requests carry does not change.
     */
    method UpdateApiKey(apiKey: string)
      modifies this
      ensures commonApiKey == Some(apiKey)
      ensures instanceApiKey == old(instanceApiKey) && baseUrl == old(baseUrl)
      ensures old(instanceApiKey).Some? ==> SentApiKey() == old(SentApiKey())
    {
      commonApiKey := Some(apiKey);
    }

    /** `updateApiKey(apiKey)` writing the header layer requests read it from, so they carry the new key. */
    method UpdateApiKeyIntended(apiKey: string)
      modifies this
      ensures instanceApiKey == Some(apiKey)
      ensures commonApiKey == old(commonApiKey) && baseUrl == old(baseUrl)
      ensures SentApiKey() == Some(apiKey)
      ensures forall q, s :: ChatRequest(q, s).apiKey == Some(apiKey)
      ensures forall s :: HistoryRequest(s).apiKey == Some(apiKey)
    {
      instanceApiKey := Some(apiKey);
    }

    method UpdateBaseUrl(baseUrl: string)
      modifies this
      ensures this.baseUrl == baseUrl
      ensures instanceApiKey == old(instanceApiKey) && commonApiKey == old(commonApiKey)
    {
      this.baseUrl := baseUrl;
    }
  }
}
