/** The stream consumer of `generate_gemini_response_stream`: folds the
    streamed chunks into the reply text and the recorded tool calls, then
    derives the grounding summary from the search-tool calls. */
module Stream {
  import opened ChatTypes
  import Text

  /** An exception raised by the remote call: a `GoogleAPIError` with its
      message, or any other exception with its text. */
  datatype ErrorInfo = ApiError(message: string) | OtherError(description: string)

  /** The `args` of a streamed function call: absent or empty, a mapping
      (values as their `str()` text), or something `dict()` rejects. */
  datatype RawArgs = NoArgs | ArgsDict(entries: map<string, string>) | NotADict

  /** One streamed event: a chunk's text, one function call found in a
      chunk's candidates, or an exception raised while streaming. A chunk
      carrying both text and calls is its text event followed by its calls. */
  datatype StreamEvent =
    | TextDelta(text: string)
    | FunctionCall(name: Option<string>, args: RawArgs)
    | Raised(error: ErrorInfo)

  /** An entry of `raw_tool_calls_from_stream`. */
  datatype ToolCall = ToolCall(name: Option<string>, args: map<string, string>)

  /** The argument mapping recorded when `dict(fc.args)` raises. */
  const ArgsConversionError: map<string, string> := map["error" := "Could not parse fc.args to dict"]

  /** The query recorded for a search call whose arguments name none. */
  const UnknownQuery: string := "Không rõ query"

  /** The query list used when no search call had arguments. */
  const NoQueryDetail: string := "Không rõ query cụ thể."

  /** What Python raises when a call without a name is lower-cased. */
  const NoneLowerError: ErrorInfo := OtherError("'NoneType' object has no attribute 'lower'")

  /** The argument mapping recorded for a call. */
  function ArgsOf(raw: RawArgs): map<string, string>
  {
    match raw
    case NoArgs => map[]
    case ArgsDict(m) => m
    case NotADict => ArgsConversionError
  }

  /** The inline error text that replaces the reply when the call fails. */
  function ErrorReply(e: ErrorInfo): string
  {
    match e
    case ApiError(m) => "[Lỗi Gemini API: " + m + "]"
    case OtherError(d) => "[Lỗi Gemini: " + d + "]"
  }

  /** Every error reply is a bracketed "[Lỗi Gemini…]" text. */
  lemma ErrorReplyShape(e: ErrorInfo)
    ensures "[Lỗi Gemini" <= ErrorReply(e)
    ensures ErrorReply(e)[|ErrorReply(e)| - 1] == ']'
  {
    match e
    case ApiError(m) =>
      assert ErrorReply(e) == "[Lỗi Gemini" + (" API: " + m + "]");
    case OtherError(d) =>
      assert ErrorReply(e) == "[Lỗi Gemini" + (": " + d + "]");
  }

  /** A tool name counts as the search tool when, lower-cased, it is
      `googlesearch` or `google_search`. */
  predicate IsSearchName(name: string)
  {
    Text.Lower(name) == "googlesearch" || Text.Lower(name) == "google_search"
  }

  /** The query of a search call: `query`, else `q`, else the placeholder. */
  function QueryOf(args: map<string, string>): string
  {
    if "query" in args then args["query"]
    else if "q" in args then args["q"]
    else UnknownQuery
  }

  /** Some recorded call has no name. */
  ghost predicate HasNamelessCall(calls: seq<ToolCall>)
  {
    exists i :: 0 <= i < |calls| && calls[i].name.None?
  }

  /** Some recorded call is a call of the search tool. */
  ghost predicate HasSearchCall(calls: seq<ToolCall>)
  {
    exists i :: 0 <= i < |calls| && calls[i].name.Some? && IsSearchName(calls[i].name.value)
  }

  /** `any(tc['name'].lower() in [...] for tc in calls)`, which stops at the
      first search call and raises at a call without a name. */
  function AnySearch(calls: seq<ToolCall>): Result<bool, ErrorInfo>
  {
    if calls == [] then Ok(false)
    else
      match calls[0].name
      case None => Err(NoneLowerError)
      case Some(n) => if IsSearchName(n) then Ok(true) else AnySearch(calls[1..])
  }

  /** The query loop: one query per search call with non-empty arguments,
      in call order; raises at a call without a name. */
  function SearchQueries(calls: seq<ToolCall>): Result<seq<string>, ErrorInfo>
  {
    if calls == [] then Ok([])
    else
      match calls[0].name
      case None => Err(NoneLowerError)
      case Some(n) =>
        match SearchQueries(calls[1..])
        case Err(e) => Err(e)
        case Ok(rest) => Ok(CallQueries(n, calls[0].args) + rest)
  }

  /** The query one named call contributes: one for a search call with
      non-empty arguments, none otherwise. */
  function CallQueries(name: string, args: map<string, string>): seq<string>
  {
    if IsSearchName(name) && args != map[] then [QueryOf(args)] else []
  }

  /** The grounding summary derived from the recorded calls, or the
      exception deriving it raises. */
  function Summarize(calls: seq<ToolCall>): Result<Option<GroundingSummary>, ErrorInfo>
  {
    match AnySearch(calls)
    case Err(e) => Err(e)
    case Ok(false) => Ok(None)
    case Ok(true) =>
      match SearchQueries(calls)
      case Err(e) => Err(e)
      case Ok(qs) => Ok(Some(GroundingSummary(true, if qs == [] then [NoQueryDetail] else qs)))
  }

  /** The search test fails only on a nameless call, and without one it
      answers whether some call is a search call. */
  lemma {:induction false} AnySearchSpec(calls: seq<ToolCall>)
    ensures AnySearch(calls).Err? ==> HasNamelessCall(calls) && AnySearch(calls).error == NoneLowerError
    ensures !HasNamelessCall(calls) ==> AnySearch(calls) == Ok(HasSearchCall(calls))
    ensures AnySearch(calls) == Ok(true) ==> HasSearchCall(calls)
    ensures AnySearch(calls) == Ok(false) ==> !HasNamelessCall(calls)
  {
    if calls != [] {
      var tail := calls[1..];
      AnySearchSpec(tail);
      assert forall i :: 0 <= i < |tail| ==> tail[i] == calls[i + 1];
      if !HasNamelessCall(calls) {
        if HasSearchCall(calls) && !IsSearchName(calls[0].name.value) {
          var i :| 0 <= i < |calls| && calls[i].name.Some? && IsSearchName(calls[i].name.value);
          assert tail[i - 1] == calls[i];
        }
      }
      if AnySearch(calls) == Ok(true) && !IsSearchName(calls[0].name.value) {
        var i :| 0 <= i < |tail| && tail[i].name.Some? && IsSearchName(tail[i].name.value);
        assert calls[i + 1] == tail[i];
      }
    }
  }

  /** The query loop raises exactly when some call has no name. */
  lemma {:induction false} SearchQueriesFails(calls: seq<ToolCall>)
    ensures SearchQueries(calls).Err? <==> HasNamelessCall(calls)
    ensures SearchQueries(calls).Err? ==> SearchQueries(calls).error == NoneLowerError
  {
    if calls != [] {
      var tail := calls[1..];
      SearchQueriesFails(tail);
      assert forall i :: 0 <= i < |tail| ==> tail[i] == calls[i + 1];
      if HasNamelessCall(calls) && calls[0].name.Some? {
        var i :| 0 <= i < |calls| && calls[i].name.None?;
        assert tail[i - 1].name.None?;
      }
    }
  }

  /** One step of the query loop: a named first call contributes its
      queries ahead of those of the rest. */
  lemma SearchQueriesCons(calls: seq<ToolCall>)
    requires calls != [] && calls[0].name.Some? && SearchQueries(calls[1..]).Ok?
    ensures SearchQueries(calls)
            == Ok(CallQueries(calls[0].name.value, calls[0].args) + SearchQueries(calls[1..]).value)
  {
  }

  /** Queries come in call order: the queries of two runs of calls are the
      queries of the first run followed by those of the second. */
  lemma {:induction false} SearchQueriesAppend(a: seq<ToolCall>, b: seq<ToolCall>)
    requires SearchQueries(a).Ok? && SearchQueries(b).Ok?
    ensures SearchQueries(a + b) == Ok(SearchQueries(a).value + SearchQueries(b).value)
  {
    if a == [] {
      assert a + b == b;
      assert [] + SearchQueries(b).value == SearchQueries(b).value;
    } else {
      var c := a + b;
      assert c[0] == a[0] && c[1..] == a[1..] + b;
      SearchQueriesAppend(a[1..], b);
      SearchQueriesCons(a);
      SearchQueriesCons(c);
      var pre, qa, qb := CallQueries(a[0].name.value, a[0].args), SearchQueries(a[1..]).value, SearchQueries(b).value;
      assert pre + (qa + qb) == (pre + qa) + qb;
    }
  }

  /** At most one query per recorded call. */
  lemma {:induction false} SearchQueriesBound(calls: seq<ToolCall>)
    requires SearchQueries(calls).Ok?
    ensures |SearchQueries(calls).value| <= |calls|
  {
    if calls != [] {
      SearchQueriesBound(calls[1..]);
    }
  }

  /** Deriving the summary raises exactly when some recorded call has no
      name; otherwise a summary is present exactly when some call is a
      search call, and it always reports a search and at least one query. */
  lemma SummarizeSpec(calls: seq<ToolCall>)
    ensures Summarize(calls).Err? <==> HasNamelessCall(calls)
    ensures Summarize(calls).Err? ==> Summarize(calls).error == NoneLowerError
    ensures Summarize(calls).Ok? ==>
              (Summarize(calls).value.Some? <==> HasSearchCall(calls))
    ensures Summarize(calls).Ok? && Summarize(calls).value.Some? ==>
              Summarize(calls).value.value.searchPerformed
              && |Summarize(calls).value.value.queriesUsed| >= 1
  {
    AnySearchSpec(calls);
    SearchQueriesFails(calls);
  }

  /** A single search call with a `query` argument is summarised by that query. */
  lemma SingleSearchCall(query: string)
    ensures Summarize([ToolCall(Some("google_search"), map["query" := query])])
            == Ok(Some(GroundingSummary(true, [query])))
  {
    var calls := [ToolCall(Some("google_search"), map["query" := query])];
    Text.LowerKeepsLowerCase("google_search");
    assert calls[1..] == [];
    assert SearchQueries(calls[1..]) == Ok([]);
    assert IsSearchName("google_search");
    assert "query" in calls[0].args;
    assert QueryOf(calls[0].args) == query;
    var empty: map<string, string> := map[];
    assert "query" !in empty;
    assert calls[0].args != empty;
    assert CallQueries("google_search", calls[0].args) == [query];
    assert [query] + [] == [query];
    assert SearchQueries(calls) == Ok([query]);
  }

  /** The first exception the stream raises, if any. */
  function FirstFailure(events: seq<StreamEvent>): Option<ErrorInfo>
  {
    if events == [] then None
    else if events[0].Raised? then Some(events[0].error)
    else FirstFailure(events[1..])
  }

  /** The streamed text, concatenated in order. */
  function StreamText(events: seq<StreamEvent>): string
  {
    if events == [] then ""
    else
      var last := events[|events| - 1];
      StreamText(events[..|events| - 1]) + (if last.TextDelta? then last.text else "")
  }

  /** The tool calls recorded from the stream, in order. */
  function StreamCalls(events: seq<StreamEvent>): seq<ToolCall>
  {
    if events == [] then []
    else
      var last := events[|events| - 1];
      StreamCalls(events[..|events| - 1])
        + (if last.FunctionCall? then [ToolCall(last.name, ArgsOf(last.args))] else [])
  }

  /** The reply text and grounding summary a stream comes to. */
  function StreamOutcome(events: seq<StreamEvent>): (string, Option<GroundingSummary>)
  {
    match FirstFailure(events)
    case Some(e) => (ErrorReply(e), None)
    case None =>
      match Summarize(StreamCalls(events))
      case Err(e) => (ErrorReply(e), None)
      case Ok(s) => (StreamText(events), s)
  }

  /** The chunk loop and the summary derivation: returns the reply text and
      the optional grounding summary; an exception from the stream, or from
      deriving the summary, becomes an inline error reply with no summary. */
  method ConsumeStream(events: seq<StreamEvent>) returns (reply: string, summary: Option<GroundingSummary>)
    ensures FirstFailure(events).Some? ==>
              reply == ErrorReply(FirstFailure(events).value) && summary.None?
    ensures FirstFailure(events).None? && HasNamelessCall(StreamCalls(events)) ==>
              reply == ErrorReply(NoneLowerError) && summary.None?
    ensures FirstFailure(events).None? && !HasNamelessCall(StreamCalls(events)) ==>
              reply == StreamText(events) && Summarize(StreamCalls(events)) == Ok(summary)
    ensures summary.Some? <==>
              FirstFailure(events).None? && !HasNamelessCall(StreamCalls(events))
              && HasSearchCall(StreamCalls(events))
    ensures summary.Some? ==> summary.value.searchPerformed && |summary.value.queriesUsed| >= 1
    ensures (reply, summary) == StreamOutcome(events)
  {
    var text := "";
    var calls: seq<ToolCall> := [];
    var failure: Option<ErrorInfo> := None;
    var i := 0;
    while i < |events| && failure.None?
      invariant 0 <= i <= |events|
      invariant failure.None? ==>
                  text == StreamText(events[..i]) && calls == StreamCalls(events[..i])
                  && FirstFailure(events) == FirstFailure(events[i..])
      invariant failure.Some? ==> FirstFailure(events) == failure
    {
      assert events[..i + 1][..i] == events[..i];
      assert events[i..][1..] == events[i + 1..];
      match events[i] {
        case TextDelta(t) =>
          if t != "" {
            text := text + t;
          }
        case FunctionCall(n, a) =>
          calls := calls + [ToolCall(n, ArgsOf(a))];
        case Raised(e) =>
          failure := Some(e);
      }
      i := i + 1;
    }
    if failure.Some? {
      reply, summary := ErrorReply(failure.value), None;
      return;
    }
    assert events[..i] == events;
    SummarizeSpec(calls);
    match Summarize(calls) {
      case Err(e) =>
        reply, summary := ErrorReply(e), None;
      case Ok(s) =>
        reply, summary := text, s;
    }
  }
}
