/**
 * The client's five calls to the assistant's HTTP API (`ui/chatbot.py`,
 * `check_api_health`, `send_message`, `ingest_document`, `search_knowledge`,
 * `get_knowledge_stats`).
 *
 * The transport is not modelled: what a call sends is an `HttpCall` value and
 * what comes back is an `Outcome` value chosen by the environment. Each call is
 * then a total classification of the outcome into the dictionary the Python
 * function returns; none of them raises.
 */
module Backend {

  import opened Wrappers
  import opened JsonValues
  import Decimal

  const ApiBaseUrl := "http://localhost:9000/api/v1"

  /** Per-call timeouts, in seconds. */
  const HealthTimeout: nat := 5
  const ChatTimeout: nat := 120
  const IngestTimeout: nat := 60
  const SearchTimeout: nat := 30
  const StatsTimeout: nat := 10

  datatype Verb = HttpGet | HttpPost

  /** One request as handed to `requests.get` / `requests.post`. */
  datatype HttpCall = HttpCall(verb: Verb, url: string, payload: Option<Json>, timeoutSeconds: nat)

  /**
   * What a call produced. `Response` is an answer from the server: its status
   * and, when the status is 200, the decoded body (ignored for other statuses).
   * A 200 whose body does not decode raises inside `response.json()`, which is
   * neither a timeout nor a connection error: it is an `OtherFailure`.
   * Each exception carries its `str(e)`.
   */
  datatype Outcome =
    | Response(status: int, body: Json)
    | Timeout(message: string)
    | ConnectionFailure(message: string)
    | OtherFailure(message: string)

  /** One call as the client sees it: the request it sent and the reply it got back. */
  datatype Exchange = Exchange(call: HttpCall, reply: Json)

  predicate IsOk(o: Outcome) {
    o.Response? && o.status == 200
  }

  /** `{"error": text}`, the shape every failure is reported in. */
  function ErrorDict(text: string): Json {
    JObj(map["error" := JStr(text)])
  }

  /** Python's `"error" in reply` when `reply` is a dictionary. */
  predicate IsErrorReply(reply: Json) {
    reply.JObj? && "error" in reply.fields
  }

  function OptionalText(t: Option<string>): Json {
    match t
    case None => JNull
    case Some(s) => JStr(s)
  }

  // ----- requests -----

  const HealthCall := HttpCall(HttpGet, ApiBaseUrl + "/health", None, HealthTimeout)

  const StatsCall := HttpCall(HttpGet, ApiBaseUrl + "/knowledge/stats", None, StatsTimeout)

  /** The chat request: the message, the two session toggles as they are now, and no streaming. */
  function ChatCall(message: string, useKnowledgeBase: bool, categoryFilter: Option<string>): (r: HttpCall)
    ensures r.verb == HttpPost && r.timeoutSeconds == ChatTimeout
    ensures r.payload.Some? && r.payload.value.JObj?
    ensures r.payload.value.fields.Keys == {"message", "use_knowledge_base", "category_filter", "stream"}
    ensures r.payload.value.fields["message"] == JStr(message)
    ensures r.payload.value.fields["use_knowledge_base"] == JBool(useKnowledgeBase)
    ensures r.payload.value.fields["stream"] == JBool(false)
    ensures r.payload.value.fields["category_filter"] == JNull <==> categoryFilter.None?
    ensures categoryFilter.Some? ==> r.payload.value.fields["category_filter"] == JStr(categoryFilter.value)
  {
    HttpCall(HttpPost, ApiBaseUrl + "/chat",
      Some(JObj(map[
        "message" := JStr(message),
        "use_knowledge_base" := JBool(useKnowledgeBase),
        "category_filter" := OptionalText(categoryFilter),
        "stream" := JBool(false)])),
      ChatTimeout)
  }

  function IngestCall(text: string, source: string, category: Option<string>): (r: HttpCall)
    ensures r.verb == HttpPost && r.timeoutSeconds == IngestTimeout
    ensures r.payload.Some? && r.payload.value.JObj?
    ensures r.payload.value.fields.Keys == {"text", "source", "category"}
    ensures r.payload.value.fields["category"] == JNull <==> category.None?
  {
    HttpCall(HttpPost, ApiBaseUrl + "/knowledge/ingest",
      Some(JObj(map[
        "text" := JStr(text),
        "source" := JStr(source),
        "category" := OptionalText(category)])),
      IngestTimeout)
  }

  function SearchCall(query: string, topK: int, category: Option<string>): (r: HttpCall)
    ensures r.verb == HttpPost && r.timeoutSeconds == SearchTimeout
    ensures r.payload.Some? && r.payload.value.JObj?
    ensures r.payload.value.fields.Keys == {"query", "top_k", "category"}
    ensures r.payload.value.fields["top_k"] == JInt(topK)
    ensures r.payload.value.fields["category"] == JNull <==> category.None?
  {
    HttpCall(HttpPost, ApiBaseUrl + "/knowledge/search",
      Some(JObj(map[
        "query" := JStr(query),
        "top_k" := JInt(topK),
        "category" := OptionalText(category)])),
      SearchTimeout)
  }

  // ----- replies -----

  // Each two-sentence message is written as its two sentences joined, which
  // lets the verifier look at the first characters without unfolding the whole literal.
  const TimeoutText := "Request timed out." + " The model may be processing a complex query."
  const ConnectionText := "Could not connect to the API." + " Make sure the server is running."
  const StatsUnavailableText := "Could not fetch stats"
  const StatsUnreachableText := "Could not connect to API"

  /** `f"API Error: {response.status_code}"`: the prefix followed by the status's decimal text. */
  function ApiErrorText(status: int): (t: string)
    ensures |t| > 11 && t[..11] == "API Error: "
    ensures t[11..] == Decimal.IntText(status)
  {
    "API Error: " + Decimal.IntText(status)
  }

  /** The error text `send_message` reports for an outcome that is not a 200 answer. */
  function ChatErrorText(o: Outcome): (t: string)
    requires !IsOk(o)
    ensures o.Response? ==> |t| > 11 && t[..11] == "API Error: " && t[11..] == Decimal.IntText(o.status)
    ensures o.OtherFailure? ==> t == o.message
    ensures o.Timeout? ==> t == TimeoutText
    ensures o.ConnectionFailure? ==> t == ConnectionText
  {
    match o
    case Response(status, _) => ApiErrorText(status)
    case Timeout(_) => TimeoutText
    case ConnectionFailure(_) => ConnectionText
    case OtherFailure(m) => m
  }

  /** `check_api_health`: the decoded body of a 200 answer, otherwise `None`. */
  function CheckApiHealthReply(o: Outcome): (r: Json)
    ensures IsOk(o) ==> r == o.body
    ensures !IsOk(o) ==> r == JNull
  {
    if IsOk(o) then o.body else JNull
  }

  /**
   * `send_message`: a 200 answer's body is passed on as it is; a server error,
   * a timeout and a refused connection get their own messages; any other
   * exception is reported by its text.
   */
  function SendMessageReply(o: Outcome): (r: Json)
    ensures IsOk(o) ==> r == o.body
    ensures !IsOk(o) ==> IsErrorReply(r) && r.fields["error"] == JStr(ChatErrorText(o))
    ensures !IsOk(o) ==> r.fields.Keys == {"error"}
  {
    if IsOk(o) then o.body else ErrorDict(ChatErrorText(o))
  }

  /**
   * `ingest_document` and `search_knowledge` (the two have the same handling):
   * a 200 body as it is, `API Error: <status>` for another status, and every
   * exception, timeouts and refused connections included, by its text.
   */
  function ForwardReply(o: Outcome): (r: Json)
    ensures IsOk(o) ==> r == o.body
    ensures o.Response? && o.status != 200 ==> r == ErrorDict(ApiErrorText(o.status))
    ensures !o.Response? ==> r == ErrorDict(o.message)
  {
    match o
    case Response(status, body) => if status == 200 then body else ErrorDict(ApiErrorText(status))
    case Timeout(m) => ErrorDict(m)
    case ConnectionFailure(m) => ErrorDict(m)
    case OtherFailure(m) => ErrorDict(m)
  }

  /** `get_knowledge_stats`: two fixed messages, one for a bad status and one for any exception. */
  function GetKnowledgeStatsReply(o: Outcome): (r: Json)
    ensures IsOk(o) ==> r == o.body
    ensures o.Response? && o.status != 200 ==> r == ErrorDict(StatsUnavailableText)
    ensures !o.Response? ==> r == ErrorDict(StatsUnreachableText)
  {
    if IsOk(o) then o.body
    else if o.Response? then ErrorDict(StatsUnavailableText)
    else ErrorDict(StatsUnreachableText)
  }

  // ----- properties of the classification -----

  /**
   * The fixed chat failure messages tell the failures apart: a timeout, a
   * refused connection and each non-200 status give pairwise different texts.
   * (An arbitrary exception's own text may of course coincide with any of them.)
   */
  lemma ChatErrorTextsDistinguish(o1: Outcome, o2: Outcome)
    requires !IsOk(o1) && !IsOk(o2)
    requires !o1.OtherFailure? && !o2.OtherFailure?
    requires ChatErrorText(o1) == ChatErrorText(o2)
    ensures o1.Response? <==> o2.Response?
    ensures o1.Timeout? <==> o2.Timeout?
    ensures o1.ConnectionFailure? <==> o2.ConnectionFailure?
    ensures o1.Response? ==> o1.status == o2.status
  {
    assert TimeoutText[0] == 'R' && ConnectionText[0] == 'C';
    if o1.Response? && o2.Response? {
      ApiErrorTextInjective(o1.status, o2.status);
    }
  }

  /** The status code can be read back from an `API Error: <status>` message. */
  lemma ApiErrorTextInjective(a: int, b: int)
    requires ApiErrorText(a) == ApiErrorText(b)
    ensures a == b
  {
    assert ApiErrorText(a)[11..] == Decimal.IntText(a);
    assert ApiErrorText(b)[11..] == Decimal.IntText(b);
    Decimal.IntTextInjective(a, b);
  }

  /**
   * On failure every call answers with an error dictionary whose only key is
   * `"error"`; only a 200 answer can give anything else.
   */
  lemma FailuresAreErrorDicts(o: Outcome)
    requires !IsOk(o)
    ensures IsErrorReply(SendMessageReply(o))
    ensures IsErrorReply(ForwardReply(o))
    ensures IsErrorReply(GetKnowledgeStatsReply(o))
    ensures !Truthy(CheckApiHealthReply(o))
  {
  }
}
