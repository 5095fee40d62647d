/**
 * The streaming consumer of src/utils/fetch.ts (`fetchSEE`).
 *
 * The response arrives already decoded: a sequence of text chunks read with
 * `done = false`, then either the final read (`done = true`, with whatever the
 * decoder flushed) or a read that rejects. The handler callbacks become the
 * `events` the consumer returns, in call order. `JSON.parse` is the parameter
 * `parse`, which gives `None` where the source's parse throws.
 *
 * `FetchSpec` states the whole consumption as a function of the response;
 * `FetchSEE` runs it with a real `SmoothMessage` and is proved to agree.
 */
module FetchStream {
  import opened Wrappers
  import opened JsonValue
  import opened ToolCall
  import opened TextPacer

  // ---------------------------------------------------------------------------
  // Error messages (getMessageByErrorType)
  // ---------------------------------------------------------------------------

  const API_KEY_MISSING_MESSAGE := "OpenAI API Key 为空，请添加自定义 OpenAI API Key"
  const INTERNAL_SERVER_ERROR_MESSAGE := "服务器错误，请联系管理员"
  const OPENAI_API_ERROR_MESSAGE := "OpenAI API 错误，请检查 OpenAI API Key 和 Endpoint 是否正确"
  const UNKNOWN_ERROR_MESSAGE := "unknown error"

  /** The error kinds the message table knows. */
  predicate IsKnownErrorType(errorType: string) {
    errorType == "API_KEY_MISSING" || errorType == "INTERNAL_SERVER_ERROR" || errorType == "OPENAI_API_ERROR"
  }

  /** `getMessageByErrorType`: the fixed message of a known kind, 'unknown error' for any other. */
  function GetMessageByErrorType(errorType: string): (message: string)
    ensures errorType == "API_KEY_MISSING" ==> message == API_KEY_MISSING_MESSAGE
    ensures errorType == "INTERNAL_SERVER_ERROR" ==> message == INTERNAL_SERVER_ERROR_MESSAGE
    ensures errorType == "OPENAI_API_ERROR" ==> message == OPENAI_API_ERROR_MESSAGE
    ensures message == UNKNOWN_ERROR_MESSAGE <==> !IsKnownErrorType(errorType)
  {
    match errorType
    case "API_KEY_MISSING" => API_KEY_MISSING_MESSAGE
    case "INTERNAL_SERVER_ERROR" => INTERNAL_SERVER_ERROR_MESSAGE
    case "OPENAI_API_ERROR" => OPENAI_API_ERROR_MESSAGE
    case _ => UNKNOWN_ERROR_MESSAGE
  }

  // ---------------------------------------------------------------------------
  // Mode detection (detectMessageType)
  // ---------------------------------------------------------------------------

  datatype Mode = Text | ToolCalls

  const TOOL_CALLS_MARKER: string := "{\"tool_calls\":"

  /**
   * One pattern character under the regular expression's `i` flag. The
   * pattern's letters are ASCII, and the flag never lets a non-ASCII
   * character match an ASCII one, so a letter matches itself in either case.
   */
  predicate CharMatchesIgnoringCase(c: char, p: char) {
    if 'a' <= p <= 'z' then c == p || c as int == p as int - 32 else c == p
  }

  predicate MarkerAt(s: string, i: nat)
    requires i + |TOOL_CALLS_MARKER| <= |s|
  {
    forall j | 0 <= j < |TOOL_CALLS_MARKER| :: CharMatchesIgnoringCase(s[i + j], TOOL_CALLS_MARKER[j])
  }

  /** ASCII lower-casing of one character, the reference for the `i` flag. */
  function AsciiLower(c: char): char {
    if 'A' <= c <= 'Z' then (c as int + 32) as char else c
  }

  function LowerCase(s: string): (r: string)
    ensures |r| == |s| && forall i | 0 <= i < |s| :: r[i] == AsciiLower(s[i])
  {
    seq(|s|, i requires 0 <= i < |s| => AsciiLower(s[i]))
  }

  predicate SpellsAt(pattern: string, s: string, i: nat)
    requires i + |pattern| <= |s|
  {
    s[i..i + |pattern|] == pattern
  }

  /** `pattern` occurs as a contiguous part of `s`. */
  predicate OccursIn(pattern: string, s: string) {
    exists i: nat | i + |pattern| <= |s| :: SpellsAt(pattern, s, i)
  }

  /** The pattern matches at `i` exactly when the lower-cased text spells the marker there. */
  lemma MarkerAtLowerCase(s: string, i: nat)
    requires i + |TOOL_CALLS_MARKER| <= |s|
    ensures MarkerAt(s, i) <==> SpellsAt(TOOL_CALLS_MARKER, LowerCase(s), i)
  {
    var n, low := |TOOL_CALLS_MARKER|, LowerCase(s);
    var window := low[i..i + n];
    assert forall j | 0 <= j < n :: !('A' <= TOOL_CALLS_MARKER[j] <= 'Z');
    forall j | 0 <= j < n
      ensures window[j] == AsciiLower(s[i + j])
    {
    }
    if MarkerAt(s, i) {
      assert forall j | 0 <= j < n :: window[j] == TOOL_CALLS_MARKER[j];
    }
  }

  /** `/{"tool_calls":/i.test(value)`. */
  predicate HasToolCallsMarker(s: string): (found: bool)
    ensures found <==> OccursIn(TOOL_CALLS_MARKER, LowerCase(s))
  {
    assert forall i: nat | i + |TOOL_CALLS_MARKER| <= |s| ::
             MarkerAt(s, i) <==> SpellsAt(TOOL_CALLS_MARKER, LowerCase(s), i) by {
      forall i: nat | i + |TOOL_CALLS_MARKER| <= |s| {
        MarkerAtLowerCase(s, i);
      }
    }
    exists i: nat | i + |TOOL_CALLS_MARKER| <= |s| :: MarkerAt(s, i)
  }

  /** The marker is found in any letter case, wherever it sits in the chunk. */
  lemma MarkerFoundIgnoringCase(before: string, after: string)
    ensures HasToolCallsMarker(before + TOOL_CALLS_MARKER + after)
    ensures HasToolCallsMarker(before + "{\"TOOL_CALLS\":" + after)
  {
    var s := before + TOOL_CALLS_MARKER + after;
    assert s[|before|..|before| + |TOOL_CALLS_MARKER|] == TOOL_CALLS_MARKER;
    assert MarkerAt(s, |before|);
    var u := before + "{\"TOOL_CALLS\":" + after;
    assert u[|before|..|before| + |TOOL_CALLS_MARKER|] == "{\"TOOL_CALLS\":";
    assert MarkerAt(u, |before|);
  }

  /** Any spelling that lower-cases to the marker is found, wherever it sits. */
  lemma MarkerFoundInAnyCase(before: string, spelling: string, after: string)
    requires LowerCase(spelling) == TOOL_CALLS_MARKER
    ensures HasToolCallsMarker(before + spelling + after)
  {
    var s := before + spelling + after;
    var k := |before|;
    assert LowerCase(s)[k..k + |spelling|] == LowerCase(spelling);
    assert SpellsAt(TOOL_CALLS_MARKER, LowerCase(s), k);
  }

  /**
   * `detectMessageType`: a chunk carrying the marker switches to tool calls,
   * a chunk without it keeps the mode, and the final chunk forces text.
   */
  function DetectMessageType(current: Mode, value: string, done: bool): (mode: Mode)
    ensures done ==> mode == Text
    ensures !done && HasToolCallsMarker(value) ==> mode == ToolCalls
    ensures !done && !HasToolCallsMarker(value) ==> mode == current
  {
    var mode := if HasToolCallsMarker(value) then ToolCalls else current;
    if done then Text else mode
  }

  // ---------------------------------------------------------------------------
  // Inputs and observable behaviour
  // ---------------------------------------------------------------------------

  /** A thrown error; only its `name` is inspected. */
  datatype Exception = Exception(name: string, message: string)

  predicate IsAbort(e: Exception) { e.name == "AbortError" }

  datatype ChatMessageError =
    | Mapped(body: Option<Json>, message: string, errorType: Option<string>)
    | Raised(error: Exception)

  datatype MessageChunk = TextChunk(text: string) | ToolCallsChunk(toolCalls: seq<ToolCallRecord>)

  /** One handler callback: `onMessageUpdate`, `onMessageError` or `onAbort`. */
  datatype Event =
    | MessageUpdate(chunk: MessageChunk)
    | MessageError(error: ChatMessageError)
    | Aborted(text: string)

  /** The JSON body of a non-ok response. */
  datatype ApiErrorResponse = ApiErrorResponse(errorType: Option<string>, body: Option<Json>)

  datatype StreamEnd = Done(lastChunk: string) | ReadFailed(error: Exception)

  /** A readable body: the chunks decoded before the end, then how reading ended. */
  datatype Body = Body(chunks: seq<string>, end: StreamEnd)

  /** `errorJson` is what `res.json()` gives (read only when not ok); `body` is `res.body`. */
  datatype Response = Response(ok: bool, errorJson: Result<ApiErrorResponse, Exception>, body: Option<Body>)

  /** What `fetcher()` settles to. */
  datatype Fetched = Rejected(error: Exception) | Resolved(response: Response)

  /** What `fetchSEE` resolves to (a copy of the response, or undefined) and the callbacks it made. */
  datatype Outcome = Outcome(returned: Option<Response>, events: seq<Event>)

  // ---------------------------------------------------------------------------
  // The chunk loop as a function
  // ---------------------------------------------------------------------------

  /** The speed of the catch-up pass a text chunk is revealed with. */
  const CATCH_UP_SPEED: nat := 15
  /** `startAnimation()`'s default speed. */
  const DEFAULT_SPEED: nat := 2

  /** The loop's variables, plus the pacer's buffer (`text`) and the callbacks made so far. */
  datatype StreamState = StreamState(mode: Mode, output: string, text: string,
                                     toolCalls: seq<ToolCallRecord>, events: seq<Event>)

  const Initial := StreamState(Text, "", "", [], [])

  /** One `onMessageUpdate` text chunk per revealed slice. */
  function TextEvents(pieces: seq<string>): (r: seq<Event>)
    ensures |r| == |pieces|
    ensures forall i | 0 <= i < |pieces| :: r[i] == MessageUpdate(TextChunk(pieces[i]))
  {
    seq(|pieces|, i requires 0 <= i < |pieces| => MessageUpdate(TextChunk(pieces[i])))
  }

  /** `JSON.parse(output)?.tool_calls`, when it is an array (anything else makes the source throw). */
  function ToolCallsField(parsed: Option<Json>): (r: Option<seq<Json>>)
    ensures r.Some? <==> parsed.Some? && Member(parsed.value, "tool_calls").Some?
                         && Member(parsed.value, "tool_calls").value.JArr?
    ensures r.Some? ==> Member(parsed.value, "tool_calls") == Some(JArr(r.value))
  {
    match parsed
    case None => None
    case Some(v) =>
      match Member(v, "tool_calls")
      case Some(JArr(items)) => Some(items)
      case _ => None
  }

  /** The `try` block of a tool-call chunk: the new `toolCalls`, or `None` when something threw. */
  function TryParseToolCalls(previous: seq<ToolCallRecord>, output: string,
                             parse: string -> Option<Json>): (r: Option<seq<ToolCallRecord>>)
    ensures r.Some? <==> (&& ToolCallsField(parse(output)).Some?
                          && var items := ToolCallsField(parse(output)).value;
                             forall i | 0 <= i < |items| :: IsToolCallShape(items[i]))
    ensures r.Some? ==> |r.value| >= |previous| && r.value[..|previous|] == previous
    ensures r.Some? ==> var items := ToolCallsField(parse(output)).value;
                        |r.value| == |previous| + |items|
                        && forall i | 0 <= i < |items| :: Some(r.value[|previous| + i]) == ParseToolCall(items[i])
  {
    match ToolCallsField(parse(output))
    case None => None
    case Some(items) => ParseToolCalls(previous, items)
  }

  /**
   * A chunk handled as text: pushed, then revealed in slices of 15 by the
   * awaited catch-up pass. Each slice is one update and sets `output` to all
   * text revealed so far, so an empty chunk changes neither.
   */
  function TextStep(st: StreamState, chunk: string): (r: StreamState)
    ensures r.text == st.text + chunk
    ensures r.toolCalls == st.toolCalls
    ensures r.events == st.events + TextEvents(Pieces(chunk, CATCH_UP_SPEED))
    ensures chunk == "" ==> r.output == st.output && r.events == st.events
    ensures chunk != "" ==> r.output == r.text
  {
    var text := st.text + chunk;
    var events := st.events + TextEvents(Pieces(chunk, CATCH_UP_SPEED));
    assert chunk == "" ==> events == st.events;
    StreamState(Text, if chunk == "" then st.output else text, text, st.toolCalls, events)
  }

  /**
   * A chunk handled as part of a tool-call payload: appended to `output`; when
   * the whole output then parses, the parsed calls are appended to `toolCalls`
   * and reported in one update, otherwise nothing else changes.
   */
  function ToolCallsStep(st: StreamState, chunk: string, parse: string -> Option<Json>): (r: StreamState)
    ensures r.mode == ToolCalls && r.text == st.text && r.output == st.output + chunk
    ensures TryParseToolCalls(st.toolCalls, r.output, parse).None? ==>
              r.toolCalls == st.toolCalls && r.events == st.events
    ensures TryParseToolCalls(st.toolCalls, r.output, parse).Some? ==>
              && r.toolCalls == TryParseToolCalls(st.toolCalls, r.output, parse).value
              && r.events == st.events + [MessageUpdate(ToolCallsChunk(r.toolCalls))]
  {
    var output := st.output + chunk;
    match TryParseToolCalls(st.toolCalls, output, parse)
    case None => st.(mode := ToolCalls, output := output)
    case Some(calls) =>
      st.(mode := ToolCalls, output := output, toolCalls := calls,
          events := st.events + [MessageUpdate(ToolCallsChunk(calls))])
  }

  /** One chunk through `detectMessageType` and the `switch`. */
  function Step(st: StreamState, chunk: string, done: bool, parse: string -> Option<Json>): (r: StreamState)
    ensures r.mode == DetectMessageType(st.mode, chunk, done)
    ensures |r.toolCalls| >= |st.toolCalls| && r.toolCalls[..|st.toolCalls|] == st.toolCalls
    ensures |r.events| >= |st.events| && r.events[..|st.events|] == st.events
  {
    match DetectMessageType(st.mode, chunk, done)
    case Text => TextStep(st, chunk)
    case ToolCalls => ToolCallsStep(st, chunk, parse)
  }

  predicate AllUpdates(events: seq<Event>) {
    forall i | 0 <= i < |events| :: events[i].MessageUpdate?
  }

  /** The chunks read with `done = false`, in order. */
  function Run(st: StreamState, chunks: seq<string>, parse: string -> Option<Json>): (r: StreamState)
    ensures |r.toolCalls| >= |st.toolCalls| && r.toolCalls[..|st.toolCalls|] == st.toolCalls
    ensures |r.events| >= |st.events| && r.events[..|st.events|] == st.events
    ensures AllUpdates(st.events) ==> AllUpdates(r.events)
    decreases |chunks|
  {
    if |chunks| == 0 then st
    else Step(Run(st, chunks[..|chunks| - 1], parse), chunks[|chunks| - 1], false, parse)
  }

  /** The `catch` block: an abort reports the output so far, anything else is an error. */
  function Failure(e: Exception, output: string): Event {
    if IsAbort(e) then Aborted(output) else MessageError(Raised(e))
  }

  predicate IsTerminal(e: Event) { e.MessageError? || e.Aborted? }

  /** The whole of `fetchSEE`: what it resolves to and the callbacks it makes. */
  function FetchSpec(fetched: Fetched, parse: string -> Option<Json>): (r: Outcome)
    ensures fetched.Rejected? ==> r == Outcome(None, [Failure(fetched.error, "")])
    ensures fetched.Resolved? && !fetched.response.ok ==> r.returned == None && |r.events| == 1
    ensures fetched.Resolved? && !fetched.response.ok && fetched.response.errorJson.Ok? ==>
              var data := fetched.response.errorJson.value;
              r.events == [MessageError(Mapped(data.body, GetMessageByErrorType(data.errorType.GetOr("undefined")), data.errorType))]
    ensures fetched.Resolved? && fetched.response.ok && fetched.response.body.None? ==> r == Outcome(None, [])
    ensures r.returned.Some? <==> (fetched.Resolved? && fetched.response.ok
                                  && fetched.response.body.Some? && fetched.response.body.value.end.Done?)
    ensures r.returned.Some? ==> r.returned.value == fetched.response
    ensures r.returned.Some? ==> AllUpdates(r.events)
    ensures r.returned.None? && r.events != [] ==>
              IsTerminal(r.events[|r.events| - 1]) && AllUpdates(r.events[..|r.events| - 1])
  {
    match fetched
    case Rejected(e) => Outcome(None, [Failure(e, "")])
    case Resolved(res) =>
      if !res.ok then
        match res.errorJson
        case Err(e) => Outcome(None, [Failure(e, "")])
        case Ok(data) =>
          // a missing errorType is looked up under the key "undefined"
          Outcome(None, [MessageError(Mapped(data.body, GetMessageByErrorType(data.errorType.GetOr("undefined")), data.errorType))])
      else
        match res.body
        case None => Outcome(None, [])
        case Some(body) =>
          var st := Run(Initial, body.chunks, parse);
          match body.end
          case Done(last) => Outcome(Some(res), Step(st, last, true, parse).events)
          case ReadFailed(e) =>
            var events := st.events + [Failure(e, st.output)];
            assert events[..|events| - 1] == st.events;
            Outcome(None, events)
  }

  // ---------------------------------------------------------------------------
  // Properties of the chunk loop
  // ---------------------------------------------------------------------------

  /** The index of the first chunk carrying the marker, or the number of chunks. */
  function FirstMarker(chunks: seq<string>): (r: nat)
    ensures r <= |chunks|
    ensures forall j | 0 <= j < r :: !HasToolCallsMarker(chunks[j])
    ensures r < |chunks| ==> HasToolCallsMarker(chunks[r])
  {
    if |chunks| == 0 then 0
    else if HasToolCallsMarker(chunks[0]) then 0
    else 1 + FirstMarker(chunks[1..])
  }

  /** Appending a chunk moves the first marker only when no earlier chunk carried one. */
  lemma {:induction false} FirstMarkerSnoc(prefix: seq<string>, c: string)
    ensures FirstMarker(prefix + [c]) ==
      if FirstMarker(prefix) < |prefix| then FirstMarker(prefix)
      else if HasToolCallsMarker(c) then |prefix|
      else |prefix| + 1
  {
    var s := prefix + [c];
    var f, f' := FirstMarker(prefix), FirstMarker(s);
    if f < |prefix| {
      assert prefix[f] == s[f];
      assert f' == f;
    } else if HasToolCallsMarker(c) {
      assert s[|prefix|] == c;
      assert forall j | 0 <= j < |prefix| :: s[j] == prefix[j];
    } else {
      assert f' == |s|;
    }
  }

  /**
   * Mode switching is one-way: after the chunks read with `done = false`, the
   * mode is tool calls exactly when some chunk carried the marker, and every
   * chunk before the first such one was handled as text.
   */
  lemma {:induction false} RunFromInitial(chunks: seq<string>, parse: string -> Option<Json>)
    ensures Run(Initial, chunks, parse).mode == ToolCalls <==> FirstMarker(chunks) < |chunks|
    ensures Run(Initial, chunks, parse).text == Concat(chunks[..FirstMarker(chunks)])
    decreases |chunks|
  {
    if |chunks| == 0 {
      assert chunks[..0] == [];
    } else {
      var prefix, c := chunks[..|chunks| - 1], chunks[|chunks| - 1];
      assert chunks == prefix + [c];
      RunFromInitial(prefix, parse);
      FirstMarkerSnoc(prefix, c);
      var f := FirstMarker(prefix);
      if f < |prefix| {
        assert chunks[..f] == prefix[..f];
      } else if HasToolCallsMarker(c) {
        assert chunks[..|prefix|] == prefix == prefix[..f];
      } else {
        assert chunks[..|chunks|] == prefix[..f] + [c];
        ConcatAppend(prefix[..f], [c]);
        assert Concat([c]) == c + Concat([]);
      }
    }
  }


  /** With no marker in any chunk, the whole stream is text and `output` is all of it. */
  lemma {:induction false} OutputIsTextWithoutMarker(chunks: seq<string>, parse: string -> Option<Json>)
    requires forall j | 0 <= j < |chunks| :: !HasToolCallsMarker(chunks[j])
    ensures Run(Initial, chunks, parse).mode == Text
    ensures Run(Initial, chunks, parse).output == Run(Initial, chunks, parse).text == Concat(chunks)
    decreases |chunks|
  {
    RunFromInitial(chunks, parse);
    assert FirstMarker(chunks) == |chunks|;
    assert chunks[..|chunks|] == chunks;
    if |chunks| > 0 {
      OutputIsTextWithoutMarker(chunks[..|chunks| - 1], parse);
    }
  }

  /** The text the handler receives: the texts of the text updates, in order. */
  function TextOf(events: seq<Event>): string {
    if |events| == 0 then ""
    else (if events[0].MessageUpdate? && events[0].chunk.TextChunk? then events[0].chunk.text else "")
         + TextOf(events[1..])
  }

  lemma {:induction false} TextOfAppend(a: seq<Event>, b: seq<Event>)
    ensures TextOf(a + b) == TextOf(a) + TextOf(b)
    decreases |a|
  {
    if |a| == 0 {
      assert a + b == b;
    } else {
      assert (a + b)[1..] == a[1..] + b;
      TextOfAppend(a[1..], b);
    }
  }

  lemma {:induction false} TextOfTextEvents(pieces: seq<string>)
    ensures TextOf(TextEvents(pieces)) == Concat(pieces)
    decreases |pieces|
  {
    if |pieces| > 0 {
      assert TextEvents(pieces)[1..] == TextEvents(pieces[1..]);
      TextOfTextEvents(pieces[1..]);
    }
  }

  /**
   * Every character handled as text reaches the handler exactly once, in
   * order: the text updates concatenate to the pacer's buffer.
   */
  lemma {:induction false} StepKeepsTextOf(st: StreamState, chunk: string, done: bool, parse: string -> Option<Json>)
    requires TextOf(st.events) == st.text
    ensures TextOf(Step(st, chunk, done, parse).events) == Step(st, chunk, done, parse).text
  {
    var r := Step(st, chunk, done, parse);
    if r.mode == Text {
      TextOfAppend(st.events, TextEvents(Pieces(chunk, CATCH_UP_SPEED)));
      TextOfTextEvents(Pieces(chunk, CATCH_UP_SPEED));
      PiecesConcat(chunk, CATCH_UP_SPEED);
    } else if r.events != st.events {
      TextOfAppend(st.events, [MessageUpdate(ToolCallsChunk(r.toolCalls))]);
      assert TextOf([MessageUpdate(ToolCallsChunk(r.toolCalls))]) == "" + TextOf([]);
    }
  }

  lemma {:induction false} RunKeepsTextOf(st: StreamState, chunks: seq<string>, parse: string -> Option<Json>)
    requires TextOf(st.events) == st.text
    ensures TextOf(Run(st, chunks, parse).events) == Run(st, chunks, parse).text
    decreases |chunks|
  {
    if |chunks| > 0 {
      RunKeepsTextOf(st, chunks[..|chunks| - 1], parse);
      StepKeepsTextOf(Run(st, chunks[..|chunks| - 1], parse), chunks[|chunks| - 1], false, parse);
    }
  }

  /**
   * A completed stream hands over, as text updates, exactly the chunks before
   * the first marker followed by the final chunk, each once and in order.
   */
  lemma CompletedStreamText(res: Response, parse: string -> Option<Json>)
    requires res.ok && res.body.Some? && res.body.value.end.Done?
    ensures var body := res.body.value;
            TextOf(FetchSpec(Resolved(res), parse).events)
            == Concat(body.chunks[..FirstMarker(body.chunks)]) + body.end.lastChunk
  {
    var body := res.body.value;
    RunKeepsTextOf(Initial, body.chunks, parse);
    RunFromInitial(body.chunks, parse);
    StepKeepsTextOf(Run(Initial, body.chunks, parse), body.end.lastChunk, true, parse);
  }

  /**
   * `output` holds every chunk read so far: the revealed text up to the first
   * marker (text chunks set it to the whole buffer) and each later chunk
   * appended raw, the tool-call JSON included.
   */
  lemma {:induction false} OutputIsEveryChunk(chunks: seq<string>, parse: string -> Option<Json>)
    ensures Run(Initial, chunks, parse).output == Concat(chunks)
    ensures Run(Initial, chunks, parse).mode == Text ==>
              Run(Initial, chunks, parse).output == Run(Initial, chunks, parse).text
    decreases |chunks|
  {
    if |chunks| == 0 {
    } else {
      var prefix, c := chunks[..|chunks| - 1], chunks[|chunks| - 1];
      assert chunks == prefix + [c];
      OutputIsEveryChunk(prefix, parse);
      ConcatAppend(prefix, [c]);
      assert Concat([c]) == c + Concat([]);
    }
  }

  /**
   * An abort while reading hands over `output`: all chunks read so far, which
   * is the revealed text only while no chunk carried the marker.
   */
  lemma AbortReportsEveryChunk(chunks: seq<string>, e: Exception, parse: string -> Option<Json>)
    requires IsAbort(e)
    ensures var events := FetchSpec(Resolved(Response(true, Err(e), Some(Body(chunks, ReadFailed(e))))), parse).events;
            |events| > 0 && events[|events| - 1] == Aborted(Concat(chunks))
  {
    OutputIsEveryChunk(chunks, parse);
  }

  /** Without a marker that is exactly the text revealed to the handler. */
  lemma AbortReportsRevealedText(chunks: seq<string>, e: Exception, parse: string -> Option<Json>)
    requires IsAbort(e)
    requires forall j | 0 <= j < |chunks| :: !HasToolCallsMarker(chunks[j])
    ensures var events := FetchSpec(Resolved(Response(true, Err(e), Some(Body(chunks, ReadFailed(e))))), parse).events;
            |events| > 0 && events[|events| - 1] == Aborted(Run(Initial, chunks, parse).text)
  {
    AbortReportsEveryChunk(chunks, e, parse);
    OutputIsTextWithoutMarker(chunks, parse);
  }

  /** An output that parses to one serialised call appends that call. */
  lemma TryParseSingleCall(previous: seq<ToolCallRecord>, call: ToolCallRecord, output: string,
                           parse: string -> Option<Json>)
    requires parse(output) == Some(JObj(map["tool_calls" := JArr([ToJson(call)])]))
    ensures TryParseToolCalls(previous, output, parse) == Some(previous + [call])
  {
    ParseToolCallRoundTrip(call);
    assert ToolCallsField(parse(output)) == Some([ToJson(call)]);
    var r := ParseToolCalls(previous, [ToJson(call)]);
    assert r.Some?;
    assert r.value == previous + [call];
  }

  /** A short text chunk is revealed in one slice. */
  lemma OneSlice(chunk: string)
    requires 0 < |chunk| <= CATCH_UP_SPEED
    ensures Pieces(chunk, CATCH_UP_SPEED) == [chunk]
  {
    assert chunk[..|chunk|] == chunk;
    assert chunk[|chunk|..] == "";
  }

  /**
   * Each successful parse APPENDS the parsed calls to the earlier ones: a
   * complete payload followed by a chunk that keeps it parseable (a newline)
   * reports the same call twice.
   */
  lemma ToolCallsAppendedOnEveryParse(call: ToolCallRecord, payload: string, parse: string -> Option<Json>)
    requires HasToolCallsMarker(payload)
    requires parse(payload) == Some(JObj(map["tool_calls" := JArr([ToJson(call)])]))
    requires parse(payload + "\n") == parse(payload)
    ensures Run(Initial, [payload, "\n"], parse).toolCalls == [call, call]
    ensures Run(Initial, [payload, "\n"], parse).events
            == [MessageUpdate(ToolCallsChunk([call])), MessageUpdate(ToolCallsChunk([call, call]))]
  {
    assert [payload, "\n"][..1] == [payload];
    assert [payload][..0] == [];
    assert "" + payload == payload;
    assert Run(Initial, [], parse) == Initial;
    TryParseSingleCall([], call, payload, parse);
    var first := Run(Initial, [payload], parse);
    assert first == Step(Initial, payload, false, parse);
    assert first.output == payload && first.toolCalls == [call] && first.mode == ToolCalls;
    assert !HasToolCallsMarker("\n");
    TryParseSingleCall([call], call, payload + "\n", parse);
  }

  /** A plain "Hello" stream completes with one text update carrying "Hello". */
  lemma PlainTextScenario(res: Response, parse: string -> Option<Json>)
    requires res.ok && res.body == Some(Body(["Hello"], Done("")))
    ensures FetchSpec(Resolved(res), parse) == Outcome(Some(res), [MessageUpdate(TextChunk("Hello"))])
  {
    assert ["Hello"][..0] == [];
    assert !HasToolCallsMarker("Hello");
    OneSlice("Hello");
  }

  /** A tool-call payload in one chunk yields one update with the parsed call. */
  lemma ToolCallScenario(res: Response, call: ToolCallRecord, payload: string, parse: string -> Option<Json>)
    requires HasToolCallsMarker(payload)
    requires parse(payload) == Some(JObj(map["tool_calls" := JArr([ToJson(call)])]))
    requires res.ok && res.body == Some(Body([payload], Done("")))
    ensures FetchSpec(Resolved(res), parse).events == [MessageUpdate(ToolCallsChunk([call]))]
  {
    assert [payload][..0] == [];
    assert "" + payload == payload;
    assert Run(Initial, [], parse) == Initial;
    TryParseSingleCall([], call, payload, parse);
    assert Run(Initial, [payload], parse) == Step(Initial, payload, false, parse);
    assert Pieces("", CATCH_UP_SPEED) == [];
  }

  /** A non-ok response with errorType API_KEY_MISSING reports the mapped message, not the fallback. */
  lemma MissingKeyScenario(body: Option<Body>, parse: string -> Option<Json>)
    ensures FetchSpec(Resolved(Response(false, Ok(ApiErrorResponse(Some("API_KEY_MISSING"), None)), body)), parse)
            == Outcome(None, [MessageError(Mapped(None, API_KEY_MISSING_MESSAGE, Some("API_KEY_MISSING")))])
  {
  }

  /** An abort after "Hel" was revealed reports "Hel". */
  lemma AbortScenario(e: Exception, parse: string -> Option<Json>)
    requires IsAbort(e)
    ensures FetchSpec(Resolved(Response(true, Err(e), Some(Body(["Hel"], ReadFailed(e))))), parse).events
            == [MessageUpdate(TextChunk("Hel")), Aborted("Hel")]
  {
    assert ["Hel"][..0] == [];
    assert Run(Initial, [], parse) == Initial;
    assert !HasToolCallsMarker("Hel");
    OneSlice("Hel");
    assert Run(Initial, ["Hel"], parse) == Step(Initial, "Hel", false, parse);
    assert Run(Initial, ["Hel"], parse).output == "Hel";
  }

  // ---------------------------------------------------------------------------
  // The consumer
  // ---------------------------------------------------------------------------

  /** The `'text'` case: push, await the catch-up pass, then the no-op default-speed start. */
  method HandleTextChunk(textController: SmoothMessage, output: string, toolCalls: seq<ToolCallRecord>,
                         events: seq<Event>, chunkValue: string)
    returns (output': string, events': seq<Event>)
    requires textController.Valid() && !textController.isAnimationActive
    requires textController.outputQueue == ""
    modifies textController
    ensures textController.Valid() && !textController.isAnimationActive
    ensures textController.outputQueue == ""
    ensures StreamState(Text, output', textController.buffer, toolCalls, events')
            == TextStep(StreamState(Text, output, old(textController.buffer), toolCalls, events), chunkValue)
  {
    ghost var st := StreamState(Text, output, textController.buffer, toolCalls, events);
    output', events' := output, events;
    textController.PushToQueue(chunkValue);
    assert textController.outputQueue == chunkValue;
    if textController.IsTokenRemain() {
      var updates := AwaitStartAnimation(textController, CATCH_UP_SPEED);
      // every update went through onTextUpdate: output takes its text, the handler its delta
      output' := updates[|updates| - 1].text;
      events' := events + TextEvents(Deltas(updates));
    } else {
      assert chunkValue == "";
      assert TextEvents(Pieces(chunkValue, CATCH_UP_SPEED)) == [];
    }
    ghost var revealed := textController.buffer;
    if !textController.exposedIsAnimationActive {
      var _, _ := textController.StartAnimation(DEFAULT_SPEED);
    }
    assert textController.buffer == revealed;
    assert textController.buffer == st.text + chunkValue;
    assert events' == TextStep(st, chunkValue).events;
    assert output' == TextStep(st, chunkValue).output;
  }

  /** The `'tool_calls'` case. */
  method HandleToolCallsChunk(output: string, ghost text: string, toolCalls: seq<ToolCallRecord>,
                              events: seq<Event>, chunkValue: string, parse: string -> Option<Json>)
    returns (output': string, toolCalls': seq<ToolCallRecord>, events': seq<Event>)
    ensures StreamState(ToolCalls, output', text, toolCalls', events')
            == ToolCallsStep(StreamState(ToolCalls, output, text, toolCalls, events), chunkValue, parse)
  {
    output' := output + chunkValue;
    toolCalls', events' := toolCalls, events;
    var parsed := TryParseToolCalls(toolCalls, output', parse);
    if parsed.Some? {
      toolCalls' := parsed.value;
      events' := events + [MessageUpdate(ToolCallsChunk(toolCalls'))];
    }
  }

  /** One pass of the loop body after the read: classify the chunk, then handle it. */
  method HandleChunk(textController: SmoothMessage, messageType: Mode, output: string,
                     toolCalls: seq<ToolCallRecord>, events: seq<Event>,
                     chunkValue: string, done: bool, parse: string -> Option<Json>)
    returns (messageType': Mode, output': string, toolCalls': seq<ToolCallRecord>, events': seq<Event>)
    requires textController.Valid() && !textController.isAnimationActive
    requires textController.outputQueue == ""
    modifies textController
    ensures textController.Valid() && !textController.isAnimationActive
    ensures textController.outputQueue == ""
    ensures StreamState(messageType', output', textController.buffer, toolCalls', events')
            == Step(StreamState(messageType, output, old(textController.buffer), toolCalls, events),
                    chunkValue, done, parse)
  {
    messageType' := DetectMessageType(messageType, chunkValue, done);
    toolCalls' := toolCalls;
    match messageType'
    case Text =>
      output', events' := HandleTextChunk(textController, output, toolCalls, events, chunkValue);
    case ToolCalls =>
      output', toolCalls', events' := HandleToolCallsChunk(output, old(textController.buffer), toolCalls, events, chunkValue, parse);
  }

  /** `fetchSEE`, proved to behave as `FetchSpec` says. */
  method FetchSEE(fetched: Fetched, parse: string -> Option<Json>) returns (returned: Option<Response>, events: seq<Event>)
    ensures Outcome(returned, events) == FetchSpec(fetched, parse)
  {
    var output := "";
    var toolCalls: seq<ToolCallRecord> := [];
    events := [];
    returned := None;
    var textController := new SmoothMessage();

    if fetched.Rejected? {
      if IsAbort(fetched.error) {
        textController.StopAnimation();
      }
      events := [Failure(fetched.error, output)];
      return;
    }
    var res := fetched.response;
    if !res.ok {
      match res.errorJson {
        case Err(e) =>
          if IsAbort(e) {
            textController.StopAnimation();
          }
          events := [Failure(e, output)];
        case Ok(data) =>
          events := [MessageError(Mapped(data.body, GetMessageByErrorType(data.errorType.GetOr("undefined")), data.errorType))];
      }
      return;
    }
    if res.body.None? {
      return;
    }
    var body := res.body.value;
    textController.StopAnimation();

    var messageType := Text;
    var i := 0;
    assert body.chunks[..0] == [];
    while i < |body.chunks|
      invariant 0 <= i <= |body.chunks|
      invariant textController.Valid() && !textController.isAnimationActive
      invariant textController.outputQueue == ""
      invariant StreamState(messageType, output, textController.buffer, toolCalls, events)
                == Run(Initial, body.chunks[..i], parse)
    {
      assert body.chunks[..i + 1][..i] == body.chunks[..i];
      messageType, output, toolCalls, events :=
        HandleChunk(textController, messageType, output, toolCalls, events, body.chunks[i], false, parse);
      i := i + 1;
    }
    assert body.chunks[..|body.chunks|] == body.chunks;

    match body.end
    case Done(last) =>
      messageType, output, toolCalls, events :=
        HandleChunk(textController, messageType, output, toolCalls, events, last, true, parse);
      returned := Some(res);
    case ReadFailed(e) =>
      if IsAbort(e) {
        textController.StopAnimation();
      }
      events := events + [Failure(e, output)];
  }
}
