/**
 * The stateless surfaces of `ui/chatbot.py`: the "Upload Document" form and
 * the memory-analytics expander of the sidebar, and the knowledge search tab.
 * None of them reads or writes the transcript; each turns its inputs and the
 * call's outcome into the request it sends and the reply it shows.
 */
module Panels {

  import opened Wrappers
  import opened JsonValues
  import opened Backend
  import Session

  /** What the upload form shows after an ingest call. */
  datatype IngestNotice = StoredChunks(chunks: Json) | ShowsError(error: Json) | Raises

  /**
   * Lines 382-385: an `"error"` key is shown as an error, otherwise the
   * `chunks_created` count; a reply that is not a dictionary, or lacks both
   * keys, makes the form raise.
   */
  function IngestNoticeFor(reply: Json): (n: IngestNotice)
    ensures n.Raises? <==> !reply.JObj? || ("error" !in reply.fields && "chunks_created" !in reply.fields)
  {
    if !reply.JObj? then Raises
    else if "error" in reply.fields then ShowsError(reply.fields["error"])
    else if "chunks_created" in reply.fields then StoredChunks(reply.fields["chunks_created"])
    else Raises
  }

  /** The "Upload to Memory" button: either the warning that fields are missing, or the call made and its notice. */
  datatype Upload = MissingFields | Uploaded(call: HttpCall, notice: IngestNotice)

  function UploadPressed(text: string, source: string, category: string, o: Outcome): (u: Upload)
    ensures u.Uploaded? <==> text != "" && source != ""
  {
    if text != "" && source != "" then
      Uploaded(IngestCall(text, source, Session.NoneIfEmpty(category)), IngestNoticeFor(ForwardReply(o)))
    else
      MissingFields
  }

  /**
   * The ingest guard: a call is made exactly when both the content and the
   * source are non-empty; it carries them as typed, and an empty category is
   * sent as null, never as `""`. A failed call is always shown as an error,
   * never as stored chunks.
   */
  lemma UploadNeedsContentAndSource(text: string, source: string, category: string, o: Outcome)
    ensures var u := UploadPressed(text, source, category, o);
      && (u.Uploaded? <==> text != "" && source != "")
      && (u.Uploaded? ==>
            && u.call.url == ApiBaseUrl + "/knowledge/ingest"
            && u.call.payload.Some? && u.call.payload.value.JObj?
            && u.call.payload.value.fields["text"] == JStr(text)
            && u.call.payload.value.fields["source"] == JStr(source)
            && u.call.payload.value.fields["category"] == (if category == "" then JNull else JStr(category)))
      && (u.Uploaded? && !IsOk(o) ==> u.notice.ShowsError?)
  {
  }

  /**
   * The search tab's "Search" button: the call made and the reply shown, or
   * nothing for an empty query. `top_k` comes from a number input bounded to
   * [1, 20]; the code itself does not clamp it, so the bound is a precondition
   * here.
   */
  function SearchPressed(query: string, topK: int, categoryFilter: Option<string>, o: Outcome): (r: Option<Exchange>)
    requires 1 <= topK <= 20
    ensures r.Some? <==> query != ""
  {
    if query == "" then None
    else Some(Exchange(SearchCall(query, topK, categoryFilter), ForwardReply(o)))
  }

  /**
   * A search is made only for a non-empty query; it sends the query, the
   * requested `top_k` unchanged and the session's category filter; a 200
   * answer is shown exactly as received, results in the backend's order.
   */
  lemma SearchPassesResultsThrough(query: string, topK: int, categoryFilter: Option<string>, o: Outcome)
    requires 1 <= topK <= 20
    ensures var r := SearchPressed(query, topK, categoryFilter, o);
      && (r.Some? <==> query != "")
      && (r.Some? ==>
            && r.value.call.payload.Some? && r.value.call.payload.value.JObj?
            && r.value.call.payload.value.fields["query"] == JStr(query)
            && r.value.call.payload.value.fields["top_k"] == JInt(topK)
            && r.value.call.payload.value.fields["category"] == OptionalText(categoryFilter)
            && (IsOk(o) ==> r.value.reply == o.body)
            && (!IsOk(o) ==> IsErrorReply(r.value.reply)))
  {
  }

  /** The analytics expander asks for statistics only while the session is connected. */
  function StatsPanel(connected: bool, o: Outcome): (r: Option<Exchange>)
    ensures r.None? <==> !connected
    ensures r.Some? ==> r.value.call == StatsCall
    ensures r.Some? && !IsOk(o) ==> IsErrorReply(r.value.reply)
    ensures r.Some? && IsOk(o) ==> r.value.reply == o.body
  {
    if connected then Some(Exchange(StatsCall, GetKnowledgeStatsReply(o))) else None
  }
}
