# Chat client session model

A Dafny model of the session orchestration inside `ui/chatbot.py`, the
Streamlit front-end of the JARVIS assistant. The front-end talks to the
assistant's HTTP API through five calls: health, chat, ingest, search and
stats. The model covers three things:

- **Outcome classification** (module `Backend`). Each of `check_api_health`,
  `send_message`, `ingest_document`, `search_knowledge` and
  `get_knowledge_stats` becomes a total function. It maps an abstract
  `Outcome` (a server answer with its status and decoded body, a timeout, a
  refused connection, or any other exception with its text) to the dictionary
  the Python function returns. The request each call sends is an `HttpCall`
  value (verb, URL, JSON payload, timeout).
- **Session state** (module `Session`). `st.session_state` becomes the class
  `SessionStore`. Its four keys (`messages`, `use_knowledge_base`,
  `category_filter`, `api_connected`) are fields of type `Slot<T>`, which
  records whether the key is present yet. Each mutating step is a method:
  `init_session_state`, the health poll, the toggle, the filter, "Clear
  history", and prompt submission. Each method is proved equal to a function
  on a `State` value. The properties are proved about those functions.
- **Stateless panels and whole sessions**. Module `Panels` covers the upload
  form, the analytics expander and the search tab. Module `Replay` runs any
  sequence of steps over a `State`. It proves the properties that hold across
  steps: the transcript is append-only, an offline session takes no prompts,
  the filter is never sent as `""`, and the transcript stays paired.

Decoded JSON is the datatype `JsonValues.Json`. With it the model follows
Python's own semantics where the code depends on them: truthiness
(`if health:`, `if sources and ...`), `dict.get` with a default, and
`"error" in reply`.

### Behaviour of the code that one might not expect

The model follows the code in each of these cases.

- Stored `sources` are not gated on `context_used` (line 464). Only their
  display right after the answer is gated (line 450). Every later rendering
  of the transcript shows them (line 414). See
  `Session.SourcesStoredWithoutContext`. For example, the prompt
  `What is 2+2?`, sent with the knowledge base off and no filter, may get the
  answer `{"response": "4", "sources": [], "context_used": false}`. The
  assistant turn then stores content `4` and `sources: []`; the key is kept,
  not dropped (`Session.TwoPlusTwoExample`).
- `top_k` is not clamped by the code. The number input (line 497) bounds it
  to [1, 20], so the model takes that bound as a precondition.
- Ingest and search report timeouts and refused connections by the
  exception's text. Only `send_message` has fixed messages for them. Stats
  has two fixed messages of its own.
- No separate "malformed response" error exists. A body that does not decode
  raises inside `response.json()` and is reported like any other exception.
- `api_connected` becomes true only for a 200 answer whose body is a
  non-empty JSON object. A 200 with `{}` or `null` leaves the session offline.
  A 200 whose body is truthy but not an object makes the sidebar raise before
  the flag is written, so the flag keeps its old value.
- A 200 chat answer that is not a JSON object makes `render_chat` raise after
  the user turn was appended. The same happens when the sources to be shown
  are malformed. The transcript then grows by 1, not 2, and the prompt is
  left unanswered (`Session.NonObjectAnswerLeavesPromptUnanswered`). The
  pairing invariant `Replay.TranscriptStaysPaired` holds for replies that are
  handled without raising.

## Model

| member | source | states |
|---|---|---|
| `Decimal.NatText` | ui/chatbot.py:223 | the decimal text of a status code is non-empty and all digits; two or more digits from 10 on |
| `Decimal.IntText` | ui/chatbot.py:223 | `str()` of an int starts with `-` exactly when it is negative, followed by decimal digits that denote its magnitude, with no leading zero for a non-zero value |
| `Decimal.NatTextInjective` | ui/chatbot.py:223 | different naturals have different decimal texts |
| `Decimal.IntTextInjective` | ui/chatbot.py:223 | different status codes have different texts |
| `Backend.ChatCall` | ui/chatbot.py:207-218 | the chat request is a POST with a 120 s timeout whose payload has exactly the keys `message`, `use_knowledge_base`, `category_filter`, `stream`; `stream` is false, `message` is the prompt, the toggle is sent as given, and the filter is null exactly when there is none and its own text otherwise |
| `Backend.IngestCall` | ui/chatbot.py:235-245 | the ingest request is a POST with a 60 s timeout whose payload has exactly `text`, `source`, `category`; the category is null exactly when there is none |
| `Backend.SearchCall` | ui/chatbot.py:258-268 | the search request is a POST with a 30 s timeout whose payload has exactly `query`, `top_k`, `category`; `top_k` is sent as given and the category is null exactly when there is none |
| `Backend.ChatErrorText` | ui/chatbot.py:220-229 | a non-200 status gives `API Error: ` followed by the status's decimal text; a timeout gives the timed-out message and a refused connection the cannot-connect message, whatever the exception says; any other exception gives its own text |
| `Backend.ApiErrorText` | ui/chatbot.py:223 | a server error message is `API Error: ` followed by the status code's decimal text |
| `Backend.ApiErrorTextInjective` | ui/chatbot.py:223 | the status code can be read back from an `API Error: <code>` message |
| `Backend.CheckApiHealthReply` | ui/chatbot.py:192-201 | a 200 answer yields its decoded body; any other status or any exception yields `None` |
| `Backend.SendMessageReply` | ui/chatbot.py:204-229 | a 200 body is passed on unchanged; every failure becomes a dictionary whose only key is `error`, holding the chat error text for that failure |
| `Backend.ForwardReply` | ui/chatbot.py:232-275 | ingest and search: 200 body unchanged, `API Error: <code>` for other statuses, the exception's own text for every exception |
| `Backend.GetKnowledgeStatsReply` | ui/chatbot.py:278-286 | stats: 200 body unchanged, `Could not fetch stats` for other statuses, `Could not connect to API` for any exception |
| `Backend.ChatErrorTextsDistinguish` | ui/chatbot.py:220-227 | a timeout, a refused connection and each distinct non-200 status give pairwise different chat error texts |
| `Backend.FailuresAreErrorDicts` | ui/chatbot.py:192-286 | on any failure the chat, ingest, search and stats replies carry an `error` key and the health reply is falsy; no call raises |
| `Session.ScalarText` | ui/chatbot.py:443 | `str()` is given for exactly the scalar values (null as `None`, a string as itself) and for no float, list or object |
| `Session.ContentText` | ui/chatbot.py:443 | the text of a stored system error starts with `System Error: ` |
| `Session.InitDefaults` | ui/chatbot.py:180-189 | each absent key gets its default (empty transcript, knowledge base on, no filter, offline); each present key keeps its value |
| `Session.InitChangesNothingOnceInitialized` | ui/chatbot.py:180-189 | initialising twice equals initialising once; an initialised session is left unchanged |
| `Session.HealthVerdict` | ui/chatbot.py:299-321 | offline exactly when the health reply is falsy; raises exactly when it is truthy but not a dictionary |
| `Session.AfterHealth` | ui/chatbot.py:298-321 | the health call is made on every poll; only `api_connected` can change, it is always present afterwards unless reading the reply raised, and nothing changes when it raised (the value written is stated by `ConnectedExactlyWhenHealthy`) |
| `Session.ConnectedExactlyWhenHealthy` | ui/chatbot.py:298-321 | `api_connected` becomes true exactly on a 200 answer with a non-empty object and false on every failure; when reading the reply raises, nothing changes; no other key changes |
| `Session.NoneIfEmpty` | ui/chatbot.py:334-339 | `text or None`: `None` exactly for the empty string, otherwise the text unchanged |
| `Session.WithKnowledgeBase` | ui/chatbot.py:328-332 | the toggle's value is written to `use_knowledge_base`; the other three keys are unchanged |
| `Session.WithCategoryFilter` | ui/chatbot.py:334-339 | the edited filter is the widget's text, or None for an empty text, so it is never the empty string; the transcript, the toggle and the connected flag are unchanged |
| `Session.Cleared` | ui/chatbot.py:394-395 | "Clear history" empties the transcript and keeps the toggle, the filter and the connected flag |
| `Session.LiveSources` | ui/chatbot.py:449 | the sources considered for display are the reply's `sources` when present, and a falsy default (`[]`) otherwise |
| `Session.ShowsSourcesLive` | ui/chatbot.py:450 | sources are shown with a fresh answer only when the reply has both `sources` and `context_used` (both truthy) |
| `Session.HistoryShowsSources` | ui/chatbot.py:414 | no contract of its own; a stored assistant turn's sources are shown on later renderings when they are truthy, used in the contract of `SourcesStoredWithoutContext` |
| `Session.SourceRenderable` | ui/chatbot.py:455-457 | no contract of its own; one source can be shown when it is a dictionary with `source` and a numeric `relevance`, used by `SourcesRenderable` |
| `Session.SourcesRenderable` | ui/chatbot.py:453-458 | no contract of its own; the condition under which showing sources does not raise, used in the contract of `ReplyTurn` |
| `Session.ReplyTurn` | ui/chatbot.py:439-465 | no assistant turn (the handler raises) exactly for a non-dictionary reply, or for a reply without `error` whose shown sources cannot be rendered; a dictionary reply with `error` gives the turn `System Error: <error>` with no sources |
| `Session.AfterPrompt` | ui/chatbot.py:426-465 | a submission keeps the session initialised |
| `Session.Accepts` | ui/chatbot.py:426 | no contract of its own; the gate (connected, non-empty prompt) whose effect `PromptAppendsTwoTurns` states |
| `Session.PromptAppendsTwoTurns` | ui/chatbot.py:426-465 | a call is sent exactly when connected with a non-empty prompt; a refused prompt changes nothing; an accepted one sends the current toggles, keeps earlier entries, appends the user turn and then the assistant turn `ReplyTurn` gives for the reply (growth 2, or 1 when handling raised); toggles and flag untouched |
| `Session.FailedCallAppendsSystemError` | ui/chatbot.py:441-465 | on any failed chat call the appended assistant turn is `System Error: ` plus the error text, with no sources |
| `Session.AnsweredCallStoresReply` | ui/chatbot.py:444-465 | on a 200 object without `error` the turn holds `response` (default `Unable to generate response.`) and the reply's `sources` unchanged |
| `Session.SourcesStoredWithoutContext` | ui/chatbot.py:410-465 | sources not shown with a fresh answer because `context_used` is false are still stored and shown on every later rendering |
| `Session.NonObjectAnswerLeavesPromptUnanswered` | ui/chatbot.py:426-465 | a 200 answer that is a list raises after the user turn was appended, leaving it unanswered |
| `Session.TwoPlusTwoExample` | ui/chatbot.py:426-465 | the worked example: payload with `use_knowledge_base` false, null filter, `stream` false; stored turn content `4` with sources `[]` |
| `Session.SessionStore.constructor` | ui/chatbot.py:180-189 | a new session has none of the four keys |
| `Session.SessionStore.Init` | ui/chatbot.py:180-189 | updates the fields exactly as `InitDefaults` says |
| `Session.SessionStore.RecordHealth` | ui/chatbot.py:298-321 | updates the connected flag, returns the health call made, and reports raising exactly as `AfterHealth` says |
| `Session.SessionStore.SetUseKnowledgeBase` | ui/chatbot.py:328-332 | writes the toggle's value and nothing else |
| `Session.SessionStore.SetCategoryFilter` | ui/chatbot.py:334-339 | writes the normalised filter and nothing else |
| `Session.SessionStore.ClearHistory` | ui/chatbot.py:394-395 | updates the fields exactly as `Cleared` says |
| `Session.SessionStore.SubmitPrompt` | ui/chatbot.py:426-465 | updates the transcript, returns the call sent and whether handling raised, exactly as `AfterPrompt` says |
| `Panels.IngestNoticeFor` | ui/chatbot.py:382-385 | the upload form raises exactly for a non-dictionary reply or one with neither `error` nor `chunks_created` |
| `Panels.UploadPressed` | ui/chatbot.py:374-387 | a call is made exactly when content and source are both non-empty (its payload is stated by `UploadNeedsContentAndSource`) |
| `Panels.UploadNeedsContentAndSource` | ui/chatbot.py:374-387 | an ingest call is made exactly when content and source are both non-empty; it sends them as typed and an empty category as null; a failed call is shown as an error |
| `Panels.SearchPressed` | ui/chatbot.py:503-505 | a search is made exactly for a non-empty query (request and reply stated by `SearchPassesResultsThrough`) |
| `Panels.SearchPassesResultsThrough` | ui/chatbot.py:255-275 | a search is made only for a non-empty query, with `top_k` unchanged and the session filter; a 200 answer is shown exactly as received |
| `Panels.StatsPanel` | ui/chatbot.py:342-352 | the stats call (a GET with a 10 s timeout) is made exactly while connected; a failure shows as an error dictionary, a 200 body as received |
| `Replay.Step` | ui/chatbot.py:289-465 | one step of the script (health poll, toggle, filter edit, clear, prompt) keeps the session initialised |
| `Replay.Run` | ui/chatbot.py:526-540 | a sequence of steps keeps the session initialised and makes at most one chat call per step |
| `Replay.OfflineSessionTakesNoPrompts` | ui/chatbot.py:426 | while offline and no poll reports healthy, no chat call is made, the session stays offline and the transcript is unchanged (or empty after a clear) |
| `Replay.FailedPollBlocksPrompt` | ui/chatbot.py:298-426 | a failed health poll followed by a prompt leaves the session offline with no call made and no turn added |
| `Replay.TranscriptIsAppendOnly` | ui/chatbot.py:428-465 | without "Clear history" the old transcript is a prefix of the new one |
| `Replay.FilterStaysNormalised` | ui/chatbot.py:334-339 | the filter stays non-empty-or-None and no chat call sends `category_filter` as `""` |
| `Replay.PromptKeepsPairing` | ui/chatbot.py:428-465 | one submission whose reply is handled without raising keeps user and assistant turns alternating |
| `Replay.TranscriptStaysPaired` | ui/chatbot.py:428-465 | through any sequence of steps whose chat replies are handled without raising, the transcript alternates user, assistant, and has even length |
| `Replay.FreshSessionInvariants` | ui/chatbot.py:180-189 | from a fresh initialised session the transcript stays paired and no empty filter is ever sent |

## Left out

- The page setup, the CSS, and all rendering. This covers markdown, columns, expanders, spinners, tabs, badges, metrics, the welcome text and the search result cards. It is presentation only.
- The HTTP transport (`requests.get` / `requests.post`) and JSON decoding. They are foreign library calls, replaced by the `Outcome` input. The timeouts are recorded as constants in `HttpCall`, not as timing.
- Streamlit's rerun and widget semantics: `st.rerun` after "Clear history", the script re-executing on each interaction, and widgets returning their current value. Widget values are inputs. `Replay` orders the steps as one sequence.
- Re-rendering stored turns (lines 410-423). Only the condition under which sources are shown is modelled (`HistoryShowsSources`). A stored malformed `sources` value would make every later rendering raise; that is not modelled.
- Session.ContentText: Python's `str()` of a float, list or dictionary `error` value is not computed. The model stores such a value unevaluated in `SystemError` and gives no text for it.
- Floating-point formatting of relevance and score values (`:.2f`, `:.3f`). Only whether a relevance can be formatted at all is modelled.
- JSON numbers are Dafny integers and reals. NaN and infinities cannot occur.
- The health status details (`llm_loaded`, `vector_db_connected`) are read into `HealthView` but only their display depends on them.
- The stats expander's metric display (`total_vectors`, `dimension` with default 0) and its "Analytics unavailable" branch. These are display only.
