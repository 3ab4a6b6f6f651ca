/**
 * A session as a sequence of the steps the script performs on it (health
 * polls, toggle and filter edits, "Clear history", prompts), and the
 * properties that hold over any such sequence.
 */
module Replay {

  import opened Wrappers
  import opened JsonValues
  import opened Backend
  import opened Session

  datatype Event =
    | HealthPolled(o: Outcome)
    | KnowledgeBaseToggled(on: bool)
    | FilterEdited(text: string)
    | HistoryCleared
    | PromptSubmitted(prompt: string, o: Outcome)

  /** The state after a sequence of steps, and the chat calls made along the way, in order. */
  datatype Trace = Trace(state: State, chatCalls: seq<HttpCall>)

  function Step(s: State, e: Event): (r: PromptStep)
    requires s.Initialized()
    ensures r.state.Initialized()
  {
    match e
    case HealthPolled(o) => PromptStep(AfterHealth(s, o).state, None, AfterHealth(s, o).raised)
    case KnowledgeBaseToggled(on) => PromptStep(WithKnowledgeBase(s, on), None, false)
    case FilterEdited(text) => PromptStep(WithCategoryFilter(s, text), None, false)
    case HistoryCleared => PromptStep(Cleared(s), None, false)
    case PromptSubmitted(prompt, o) => AfterPrompt(s, prompt, o)
  }

  function Run(s: State, events: seq<Event>): (t: Trace)
    requires s.Initialized()
    ensures t.state.Initialized()
    ensures |t.chatCalls| <= |events|
    decreases |events|
  {
    if events == [] then Trace(s, [])
    else
      var r := Step(s, events[0]);
      var rest := Run(r.state, events[1..]);
      Trace(rest.state, (if r.sent.Some? then [r.sent.value] else []) + rest.chatCalls)
  }

  /** A health reply that turns `api_connected` on. */
  predicate ReportsHealthy(o: Outcome) {
    IsOk(o) && o.body.JObj? && |o.body.fields| > 0
  }

  /**
   * While the session is offline and no poll reports it healthy, no prompt is
   * taken and no chat call is made: the transcript stays as it was, or empty
   * if history was cleared along the way.
   */
  lemma {:induction false} OfflineSessionTakesNoPrompts(s: State, events: seq<Event>)
    requires s.Initialized() && !s.apiConnected.value
    requires forall k :: 0 <= k < |events| && events[k].HealthPolled? ==> !ReportsHealthy(events[k].o)
    ensures Run(s, events).chatCalls == []
    ensures !Run(s, events).state.apiConnected.value
    ensures Run(s, events).state.messages.value == if HistoryCleared in events then [] else s.messages.value
    decreases |events|
  {
    if events != [] {
      var r := Step(s, events[0]);
      if events[0].HealthPolled? {
        ConnectedExactlyWhenHealthy(s, events[0].o);
      }
      assert !r.state.apiConnected.value;
      assert r.sent == None;
      assert r.state.messages.value == if events[0].HistoryCleared? then [] else s.messages.value;
      assert forall k :: 0 <= k < |events[1..]| && events[1..][k].HealthPolled? ==> !ReportsHealthy(events[1..][k].o) by {
        forall k | 0 <= k < |events[1..]| && events[1..][k].HealthPolled?
          ensures !ReportsHealthy(events[1..][k].o)
        {
          assert events[1..][k] == events[k + 1];
        }
      }
      OfflineSessionTakesNoPrompts(r.state, events[1..]);
      assert events == [events[0]] + events[1..];
      assert (HistoryCleared in events) <==> events[0].HistoryCleared? || HistoryCleared in events[1..];
    }
  }

  /** The scenario of a failed health poll followed by a prompt: the prompt is refused and no chat call is made. */
  lemma FailedPollBlocksPrompt(s: State, poll: Outcome, prompt: string, reply: Outcome)
    requires s.Initialized() && !IsOk(poll)
    ensures Run(s, [HealthPolled(poll), PromptSubmitted(prompt, reply)]) == Trace(s.(apiConnected := Present(false)), [])
  {
    var events := [HealthPolled(poll), PromptSubmitted(prompt, reply)];
    var s1 := s.(apiConnected := Present(false));
    assert Step(s, events[0]).state == s1;
    assert events[1..] == [PromptSubmitted(prompt, reply)];
    assert Step(s1, events[1]) == PromptStep(s1, None, false);
    assert events[1..][1..] == [];
    assert Run(s1, events[1..]) == Trace(s1, []);
  }

  /** Without "Clear history", the transcript only grows: every earlier entry stays where it was. */
  lemma {:induction false} TranscriptIsAppendOnly(s: State, events: seq<Event>)
    requires s.Initialized()
    requires HistoryCleared !in events
    ensures s.messages.value <= Run(s, events).state.messages.value
    decreases |events|
  {
    if events != [] {
      var r := Step(s, events[0]);
      assert events == [events[0]] + events[1..];
      if events[0].PromptSubmitted? {
        PromptAppendsTwoTurns(s, events[0].prompt, events[0].o);
      }
      assert s.messages.value <= r.state.messages.value;
      TranscriptIsAppendOnly(r.state, events[1..]);
    }
  }

  /** The category filter is never the empty string. */
  predicate FilterNormalised(s: State) {
    s.categoryFilter.Present? && s.categoryFilter.value != Some("")
  }

  /** A chat call whose `category_filter` is not `""`. */
  predicate SendsNoEmptyFilter(call: HttpCall) {
    call.payload.Some? && call.payload.value.JObj? && "category_filter" in call.payload.value.fields &&
    call.payload.value.fields["category_filter"] != JStr("")
  }

  /**
   * Once the filter is normalised it stays so, and no chat call made along the
   * way sends an empty-string `category_filter`.
   */
  lemma {:induction false} FilterStaysNormalised(s: State, events: seq<Event>)
    requires s.Initialized() && FilterNormalised(s)
    ensures FilterNormalised(Run(s, events).state)
    ensures forall k :: 0 <= k < |Run(s, events).chatCalls| ==> SendsNoEmptyFilter(Run(s, events).chatCalls[k])
    decreases |events|
  {
    if events != [] {
      var r := Step(s, events[0]);
      assert FilterNormalised(r.state);
      assert r.sent.Some? ==> SendsNoEmptyFilter(r.sent.value);
      FilterStaysNormalised(r.state, events[1..]);
    }
  }

  /** The transcript alternates strictly: user turn, assistant turn, user turn, ... */
  predicate WellPaired(ts: seq<Turn>) {
    |ts| % 2 == 0 && forall k :: 0 <= k < |ts| ==> (ts[k].User? <==> k % 2 == 0)
  }

  /** A chat outcome that `render_chat` handles without raising. */
  predicate Settles(o: Outcome) {
    ReplyTurn(SendMessageReply(o)).Some?
  }

  /** One submission keeps the transcript paired when its reply is handled without raising. */
  lemma PromptKeepsPairing(s: State, prompt: string, o: Outcome)
    requires s.Initialized() && WellPaired(s.messages.value) && Settles(o)
    ensures WellPaired(AfterPrompt(s, prompt, o).state.messages.value)
  {
    PromptAppendsTwoTurns(s, prompt, o);
    var before, after := s.messages.value, AfterPrompt(s, prompt, o).state.messages.value;
    if Accepts(s, prompt) {
      forall k | 0 <= k < |after| ensures after[k].User? <==> k % 2 == 0 {
        if k < |before| {
          assert after[k] == before[k];
        }
      }
    }
  }

  /**
   * As long as every chat reply is handled without raising, every assistant
   * turn directly follows exactly one user turn and every user turn is
   * answered: the transcript stays paired through any sequence of steps.
   * The condition is put on every submitted prompt's outcome; for a prompt
   * that is refused (offline, or empty) the outcome is never looked at, so
   * the condition costs nothing there: any outcome can be chosen for it.
   */
  lemma {:induction false} TranscriptStaysPaired(s: State, events: seq<Event>)
    requires s.Initialized() && WellPaired(s.messages.value)
    requires forall k :: 0 <= k < |events| && events[k].PromptSubmitted? ==> Settles(events[k].o)
    ensures WellPaired(Run(s, events).state.messages.value)
    decreases |events|
  {
    if events != [] {
      var r := Step(s, events[0]);
      if events[0].PromptSubmitted? {
        PromptKeepsPairing(s, events[0].prompt, events[0].o);
      }
      assert WellPaired(r.state.messages.value);
      forall k | 0 <= k < |events[1..]| && events[1..][k].PromptSubmitted?
        ensures Settles(events[1..][k].o)
      {
        assert events[1..][k] == events[k + 1];
      }
      TranscriptStaysPaired(r.state, events[1..]);
    }
  }

  /**
   * A session that starts as a fresh browser session initialised with the
   * defaults (empty transcript, knowledge base on, no filter, offline) keeps
   * its transcript paired while replies are handled without raising (the
   * condition on refused prompts is harmless, as for `TranscriptStaysPaired`),
   * and never sends an empty-string filter.
   */
  lemma FreshSessionInvariants(events: seq<Event>)
    requires forall k :: 0 <= k < |events| && events[k].PromptSubmitted? ==> Settles(events[k].o)
    ensures var s0 := InitDefaults(Fresh);
      && s0 == State(Present([]), Present(true), Present(None), Present(false))
      && WellPaired(Run(s0, events).state.messages.value)
      && forall k :: 0 <= k < |Run(s0, events).chatCalls| ==> SendsNoEmptyFilter(Run(s0, events).chatCalls[k])
  {
    var s0 := InitDefaults(Fresh);
    TranscriptStaysPaired(s0, events);
    FilterStaysNormalised(s0, events);
  }
}
