/**
 * The chat client's session state (`st.session_state` in `ui/chatbot.py`) and
 * every step that changes it: `init_session_state`, the health poll, the
 * knowledge-base toggle and category filter of the sidebar, "Clear history",
 * and the submission of a prompt in `render_chat`.
 *
 * Each step is a function from the old `State` value to the new one; the class
 * `SessionStore` holds the four keys as fields and its methods update them in
 * place, each proved to do exactly what its function says.
 */
module Session {

  import opened Wrappers
  import opened JsonValues
  import opened Backend
  import Decimal

  /** Whether a key is present in `st.session_state`, and its value when it is. */
  datatype Slot<T> = Absent | Present(value: T)

  /**
   * The "content" stored for a turn: a value taken from the reply as it is
   * (`response.get("response", ...)` need not be a string), or the f-string
   * `"System Error: {error}"` built from an error value.
   */
  datatype Content = Verbatim(value: Json) | SystemError(error: Json)

  /** One transcript entry: `{"role": "user", "content": prompt}` or an assistant turn with its stored `sources`. */
  datatype Turn =
    | User(prompt: string)
    | Assistant(content: Content, sources: Json)

  datatype State = State(
    messages: Slot<seq<Turn>>,
    useKnowledgeBase: Slot<bool>,
    categoryFilter: Slot<Option<string>>,
    apiConnected: Slot<bool>)
  {
    predicate Initialized() {
      messages.Present? && useKnowledgeBase.Present? && categoryFilter.Present? && apiConnected.Present?
    }
  }

  /** A new browser session, before `init_session_state` has run. */
  const Fresh := State(Absent, Absent, Absent, Absent)

  const SystemErrorPrefix := "System Error: "
  const DefaultResponseText := "Unable to generate response."

  /** Python's `str()` of a scalar value; lists, objects and floats are left out (see README). */
  function ScalarText(j: Json): (r: Option<string>)
    ensures r.None? <==> j.JFloat? || j.JArr? || j.JObj?
    ensures j.JStr? ==> r == Some(j.s)
    ensures j.JNull? ==> r == Some("None")
  {
    match j
    case JNull => Some("None")
    case JBool(b) => Some(if b then "True" else "False")
    case JInt(i) => Some(Decimal.IntText(i))
    case JStr(s) => Some(s)
    case _ => None
  }

  /** The characters of a stored content, where the model has them. */
  function ContentText(c: Content): (t: Option<string>)
    ensures c.SystemError? && t.Some? ==> |t.value| >= |SystemErrorPrefix| && t.value[..|SystemErrorPrefix|] == SystemErrorPrefix
  {
    match c
    case Verbatim(v) => ScalarText(v)
    case SystemError(e) =>
      match ScalarText(e)
      case None => None
      case Some(s) => Some(SystemErrorPrefix + s)
  }

  // ----- init_session_state -----

  /** `init_session_state`: every absent key gets its default; a present key keeps its value. */
  function InitDefaults(s: State): (r: State)
    ensures r.Initialized()
    ensures s.messages.Present? ==> r.messages == s.messages
    ensures s.useKnowledgeBase.Present? ==> r.useKnowledgeBase == s.useKnowledgeBase
    ensures s.categoryFilter.Present? ==> r.categoryFilter == s.categoryFilter
    ensures s.apiConnected.Present? ==> r.apiConnected == s.apiConnected
    ensures s.messages.Absent? ==> r.messages == Present([])
    ensures s.useKnowledgeBase.Absent? ==> r.useKnowledgeBase == Present(true)
    ensures s.categoryFilter.Absent? ==> r.categoryFilter == Present(None)
    ensures s.apiConnected.Absent? ==> r.apiConnected == Present(false)
  {
    State(
      if s.messages.Present? then s.messages else Present([]),
      if s.useKnowledgeBase.Present? then s.useKnowledgeBase else Present(true),
      if s.categoryFilter.Present? then s.categoryFilter else Present(None),
      if s.apiConnected.Present? then s.apiConnected else Present(false))
  }

  /** Running `init_session_state` on every rerun is harmless: on an initialised state it changes nothing. */
  lemma InitChangesNothingOnceInitialized(s: State)
    ensures InitDefaults(InitDefaults(s)) == InitDefaults(s)
    ensures s.Initialized() ==> InitDefaults(s) == s
  {
  }

  // ----- health poll (render_sidebar) -----

  /** How the sidebar reads a health reply. */
  datatype HealthView = Online(llmLoaded: bool, vectorDbConnected: bool) | Offline | Raises

  /**
   * `if health:` decides between online and offline; the online branch calls
   * `health.get(...)`, which raises when a truthy reply is not a dictionary.
   */
  function HealthVerdict(health: Json): (v: HealthView)
    ensures v.Offline? <==> !Truthy(health)
    ensures v.Raises? <==> Truthy(health) && !health.JObj?
  {
    if !Truthy(health) then Offline
    else if health.JObj? then
      Online(Truthy(Get(health.fields, "llm_loaded", JNull)), Truthy(Get(health.fields, "vector_db_connected", JNull)))
    else Raises
  }

  datatype HealthStep = HealthStep(state: State, sent: HttpCall, raised: bool)

  /**
   * The health poll at the top of the sidebar: the health call is made on
   * every rendering, and it sets `api_connected`, unless reading the reply
   * raises first.
   */
  function AfterHealth(s: State, o: Outcome): (r: HealthStep)
    ensures r.sent == HealthCall
    ensures r.state.(apiConnected := s.apiConnected) == s
    ensures r.raised ==> r.state == s
    ensures !r.raised ==> r.state.apiConnected.Present?
  {
    match HealthVerdict(CheckApiHealthReply(o))
    case Online(_, _) => HealthStep(s.(apiConnected := Present(true)), HealthCall, false)
    case Offline => HealthStep(s.(apiConnected := Present(false)), HealthCall, false)
    case Raises => HealthStep(s, HealthCall, true)
  }

  /**
   * `api_connected` becomes true exactly when the health call answered 200 with
   * a non-empty JSON object, and false on any other status, on any exception,
   * and on a 200 whose body is empty or null. A 200 whose body is truthy but
   * not an object makes the sidebar raise before the flag is written, so the
   * flag keeps its old value. Nothing else in the session changes.
   */
  lemma ConnectedExactlyWhenHealthy(s: State, o: Outcome)
    ensures AfterHealth(s, o).raised <==> IsOk(o) && Truthy(o.body) && !o.body.JObj?
    ensures AfterHealth(s, o).raised ==> AfterHealth(s, o).state == s
    ensures !AfterHealth(s, o).raised ==>
      AfterHealth(s, o).state == s.(apiConnected := Present(IsOk(o) && o.body.JObj? && |o.body.fields| > 0))
    ensures !IsOk(o) ==> AfterHealth(s, o).state.apiConnected == Present(false)
  {
  }

  // ----- toggle, filter, clear (render_sidebar) -----

  /** `text or None`: the empty string becomes `None`, any other text is kept as it is. */
  function NoneIfEmpty(text: string): (r: Option<string>)
    ensures r.None? <==> text == ""
    ensures r.Some? ==> r.value == text
  {
    if text == "" then None else Some(text)
  }

  /** The knowledge-base toggle writes the widget's value into the session. */
  function WithKnowledgeBase(s: State, on: bool): (r: State)
    ensures r.useKnowledgeBase == Present(on)
    ensures r.messages == s.messages
    ensures r.categoryFilter == s.categoryFilter
    ensures r.apiConnected == s.apiConnected
  {
    s.(useKnowledgeBase := Present(on))
  }

  /** The category filter writes the widget's text, normalised by `NoneIfEmpty`. */
  function WithCategoryFilter(s: State, text: string): (r: State)
    ensures r.categoryFilter == Present(NoneIfEmpty(text))
    ensures r.categoryFilter.value != Some("")
    ensures r.messages == s.messages
    ensures r.useKnowledgeBase == s.useKnowledgeBase
    ensures r.apiConnected == s.apiConnected
  {
    s.(categoryFilter := Present(NoneIfEmpty(text)))
  }

  /** "Clear history" empties the transcript and nothing else. */
  function Cleared(s: State): (r: State)
    ensures r.messages == Present([])
    ensures r.useKnowledgeBase == s.useKnowledgeBase
    ensures r.categoryFilter == s.categoryFilter
    ensures r.apiConnected == s.apiConnected
  {
    s.(messages := Present([]))
  }

  // ----- prompt submission (render_chat) -----

  /** `sources = response.get("sources", [])`, the value shown under a fresh answer. */
  function LiveSources(fields: map<string, Json>): (r: Json)
    ensures "sources" !in fields ==> !Truthy(r)
    ensures "sources" in fields ==> r == fields["sources"]
  {
    Get(fields, "sources", JArr([]))
  }

  /** Line 450: sources are shown under a fresh answer when they are non-empty and `context_used` is truthy. */
  predicate ShowsSourcesLive(fields: map<string, Json>)
    ensures ShowsSourcesLive(fields) ==> "sources" in fields && "context_used" in fields
  {
    Truthy(LiveSources(fields)) && Truthy(Get(fields, "context_used", JNull))
  }

  /** Line 414: a stored turn's sources are shown on every later rendering when they are truthy. */
  predicate HistoryShowsSources(t: Turn) {
    t.Assistant? && Truthy(t.sources)
  }

  /** Showing one source reads `source["source"]` and formats `source["relevance"]` with `:.2f`. */
  predicate SourceRenderable(j: Json) {
    j.JObj? && "source" in j.fields && "relevance" in j.fields && IsNumber(j.fields["relevance"])
  }

  /** Showing the sources completes only for a list whose every element can be shown. */
  predicate SourcesRenderable(sources: Json) {
    sources.JArr? && forall k :: 0 <= k < |sources.items| ==> SourceRenderable(sources.items[k])
  }

  /**
   * The assistant turn `render_chat` appends for a `send_message` reply, or
   * `None` when handling the reply raises before the append: `"error" in
   * response` and `response.get` fail on anything but a dictionary, and showing
   * malformed sources fails part-way.
   */
  function ReplyTurn(reply: Json): (t: Option<Turn>)
    ensures t.None? <==>
      !reply.JObj? ||
      (!IsErrorReply(reply) && ShowsSourcesLive(reply.fields) && !SourcesRenderable(LiveSources(reply.fields)))
    ensures t.Some? ==> t.value.Assistant?
    ensures IsErrorReply(reply) ==> t == Some(Assistant(SystemError(reply.fields["error"]), JNull))
  {
    if !reply.JObj? then None
    else if "error" in reply.fields then Some(Assistant(SystemError(reply.fields["error"]), JNull))
    else if ShowsSourcesLive(reply.fields) && !SourcesRenderable(LiveSources(reply.fields)) then None
    else Some(Assistant(Verbatim(Get(reply.fields, "response", JStr(DefaultResponseText))), Get(reply.fields, "sources", JNull)))
  }

  /** The chat input is enabled only while connected, and only a non-empty prompt is submitted. */
  predicate Accepts(s: State, prompt: string)
    requires s.Initialized()
  {
    s.apiConnected.value && prompt != ""
  }

  datatype PromptStep = PromptStep(state: State, sent: Option<HttpCall>, raised: bool)

  /**
   * Submitting a prompt: the user turn is appended first, the chat call is
   * made with the session's current toggles, and the assistant turn for its
   * reply is appended unless handling the reply raised.
   */
  function AfterPrompt(s: State, prompt: string, o: Outcome): (r: PromptStep)
    requires s.Initialized()
    ensures r.state.Initialized()
  {
    if !Accepts(s, prompt) then PromptStep(s, None, false)
    else
      var asked := s.messages.value + [User(prompt)];
      var call := ChatCall(prompt, s.useKnowledgeBase.value, s.categoryFilter.value);
      match ReplyTurn(SendMessageReply(o))
      case None => PromptStep(s.(messages := Present(asked)), Some(call), true)
      case Some(t) => PromptStep(s.(messages := Present(asked + [t])), Some(call), false)
  }

  /**
   * What a submission does to the transcript. A rejected prompt changes
   * nothing and sends nothing. An accepted one sends the chat call with the
   * session's current toggles, keeps every earlier entry, appends the user
   * turn holding the prompt and then, unless handling the reply raised,
   * exactly one assistant turn: the transcript grows by 2, or by 1 when it
   * raised. The toggles and the connected flag are untouched.
   */
  lemma PromptAppendsTwoTurns(s: State, prompt: string, o: Outcome)
    requires s.Initialized()
    ensures var r := AfterPrompt(s, prompt, o);
      && (r.sent.Some? <==> Accepts(s, prompt))
      && (!Accepts(s, prompt) ==> r.state == s && !r.raised)
      && r.state.(messages := s.messages) == s
    ensures var r := AfterPrompt(s, prompt, o);
      var before, after := s.messages.value, r.state.messages.value;
      Accepts(s, prompt) ==>
        && r.sent == Some(ChatCall(prompt, s.useKnowledgeBase.value, s.categoryFilter.value))
        && |after| == |before| + (if r.raised then 1 else 2)
        && after[..|before|] == before
        && after[|before|] == User(prompt)
        && (!r.raised ==> after[|before| + 1] == ReplyTurn(SendMessageReply(o)).value)
    ensures Accepts(s, prompt) ==>
      (AfterPrompt(s, prompt, o).raised <==> ReplyTurn(SendMessageReply(o)).None?)
  {
  }

  /**
   * On any failure of the chat call the assistant turn holds
   * `"System Error: "` followed by the error text, and no sources.
   */
  lemma FailedCallAppendsSystemError(s: State, prompt: string, o: Outcome)
    requires s.Initialized() && Accepts(s, prompt)
    requires !IsOk(o)
    ensures var r := AfterPrompt(s, prompt, o);
      var before, after := s.messages.value, r.state.messages.value;
      && !r.raised
      && |after| == |before| + 2
      && after[|before| + 1] == Assistant(SystemError(JStr(ChatErrorText(o))), JNull)
      && ContentText(after[|before| + 1].content) == Some(SystemErrorPrefix + ChatErrorText(o))
  {
  }

  /**
   * On a 200 answer that is a dictionary without an `"error"` key (and whose
   * sources can be shown if they are shown), the assistant turn holds the
   * answer's `response`, or the default text when the key is missing, and the
   * answer's `sources` exactly as received, whatever `context_used` says.
   */
  lemma AnsweredCallStoresReply(s: State, prompt: string, o: Outcome)
    requires s.Initialized() && Accepts(s, prompt)
    requires IsOk(o) && o.body.JObj? && "error" !in o.body.fields
    requires ShowsSourcesLive(o.body.fields) ==> SourcesRenderable(LiveSources(o.body.fields))
    ensures var r := AfterPrompt(s, prompt, o);
      var before, after := s.messages.value, r.state.messages.value;
      && !r.raised
      && |after| == |before| + 2
      && after[|before| + 1] ==
         Assistant(Verbatim(Get(o.body.fields, "response", JStr(DefaultResponseText))),
                   Get(o.body.fields, "sources", JNull))
  {
  }

  /**
   * Stored sources are not gated on `context_used`: a reply whose sources are
   * not shown with the fresh answer (because `context_used` is false) still
   * stores them, and every later rendering of the transcript shows them.
   */
  lemma SourcesStoredWithoutContext(s: State, prompt: string, source: Json)
    requires s.Initialized() && Accepts(s, prompt)
    ensures var body := JObj(map["response" := JStr("ok"), "sources" := JArr([source]), "context_used" := JBool(false)]);
      var after := AfterPrompt(s, prompt, Response(200, body)).state.messages.value;
      && !ShowsSourcesLive(body.fields)
      && |after| == |s.messages.value| + 2
      && HistoryShowsSources(after[|after| - 1])
  {
    var body := JObj(map["response" := JStr("ok"), "sources" := JArr([source]), "context_used" := JBool(false)]);
    assert !ShowsSourcesLive(body.fields);
    AnsweredCallStoresReply(s, prompt, Response(200, body));
  }

  /**
   * A 200 answer that is not a JSON object (here a list) makes `render_chat`
   * raise after the user turn was appended: the prompt stays in the transcript
   * with no assistant turn after it.
   */
  lemma NonObjectAnswerLeavesPromptUnanswered(s: State, prompt: string)
    requires s.Initialized() && Accepts(s, prompt)
    ensures var r := AfterPrompt(s, prompt, Response(200, JArr([])));
      && r.raised
      && r.state.messages.value == s.messages.value + [User(prompt)]
  {
  }

  /**
   * The worked example: with the knowledge base off and no filter, the prompt
   * `What is 2+2?` is sent with `use_knowledge_base` false, a null
   * `category_filter` and `stream` false; the answer `{"response": "4",
   * "sources": [], "context_used": false}` is stored with content `4` and the
   * empty list of sources (the key is kept, not dropped).
   */
  lemma TwoPlusTwoExample(s: State)
    requires s.Initialized() && s.apiConnected.value
    requires s.useKnowledgeBase.value == false && s.categoryFilter.value == None
    ensures var body := JObj(map["response" := JStr("4"), "sources" := JArr([]), "context_used" := JBool(false)]);
      var r := AfterPrompt(s, "What is 2+2?", Response(200, body));
      && r.sent.Some?
      && r.sent.value.payload == Some(JObj(map[
           "message" := JStr("What is 2+2?"),
           "use_knowledge_base" := JBool(false),
           "category_filter" := JNull,
           "stream" := JBool(false)]))
      && r.state.messages.value == s.messages.value + [User("What is 2+2?"), Assistant(Verbatim(JStr("4")), JArr([]))]
  {
  }

  // ----- the session object -----

  /** `st.session_state`, holding the four keys the chat client uses. */
  class SessionStore {
    var messages: Slot<seq<Turn>>
    var useKnowledgeBase: Slot<bool>
    var categoryFilter: Slot<Option<string>>
    var apiConnected: Slot<bool>

    function Snapshot(): State
      reads this
    {
      State(messages, useKnowledgeBase, categoryFilter, apiConnected)
    }

    constructor ()
      ensures Snapshot() == Fresh
    {
      messages, useKnowledgeBase, categoryFilter, apiConnected := Absent, Absent, Absent, Absent;
    }

    /** `init_session_state`. */
    method Init()
      modifies this
      ensures Snapshot() == InitDefaults(old(Snapshot()))
    {
      if messages.Absent? {
        messages := Present([]);
      }
      if useKnowledgeBase.Absent? {
        useKnowledgeBase := Present(true);
      }
      if categoryFilter.Absent? {
        categoryFilter := Present(None);
      }
      if apiConnected.Absent? {
        apiConnected := Present(false);
      }
    }

    /** The health poll of `render_sidebar`: returns the call made and whether reading the reply raised. */
    method RecordHealth(o: Outcome) returns (sent: HttpCall, raised: bool)
      modifies this
      ensures HealthStep(Snapshot(), sent, raised) == AfterHealth(old(Snapshot()), o)
    {
      sent, raised := HealthCall, false;
      var health := CheckApiHealthReply(o);
      match HealthVerdict(health)
      case Online(_, _) =>
        apiConnected := Present(true);
      case Offline =>
        apiConnected := Present(false);
      case Raises =>
        raised := true;
    }

    /** The "Enable Memory Retrieval" toggle. */
    method SetUseKnowledgeBase(on: bool)
      modifies this
      ensures Snapshot() == WithKnowledgeBase(old(Snapshot()), on)
    {
      useKnowledgeBase := Present(on);
    }

    /** The "Filter Category" text input. */
    method SetCategoryFilter(text: string)
      modifies this
      ensures Snapshot() == WithCategoryFilter(old(Snapshot()), text)
    {
      categoryFilter := Present(NoneIfEmpty(text));
    }

    /** The "Clear History" button. */
    method ClearHistory()
      modifies this
      ensures Snapshot() == Cleared(old(Snapshot()))
    {
      messages := Present([]);
    }

    /**
     * The chat input of `render_chat`: returns the chat call it made, if any,
     * and whether handling the reply raised.
     */
    method SubmitPrompt(prompt: string, o: Outcome) returns (sent: Option<HttpCall>, raised: bool)
      requires Snapshot().Initialized()
      modifies this
      ensures PromptStep(Snapshot(), sent, raised) == AfterPrompt(old(Snapshot()), prompt, o)
    {
      sent, raised := None, false;
      if apiConnected.value && prompt != "" {
        messages := Present(messages.value + [User(prompt)]);
        sent := Some(ChatCall(prompt, useKnowledgeBase.value, categoryFilter.value));
        var response := SendMessageReply(o);
        var turn := ReplyTurn(response);
        if turn.Some? {
          messages := Present(messages.value + [turn.value]);
        } else {
          raised := true;
        }
      }
    }
  }
}
