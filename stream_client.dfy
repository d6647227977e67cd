/** The browser's chat transport (frontend/src/lib/api.ts): the Turnstile
    credential decision and `sendChatMessage`, which reads the response body of
    `POST /chat` as a stream of text chunks, cuts it into `'\n'`-terminated
    lines, keeps the `data: ` lines (the `data` field of server-sent events,
    section 9.2 of the WHATWG HTML Living Standard, in simplified form) and
    turns them into `Chunk` events ended by exactly one `Complete` or `Error`.

    The byte decoding (`TextDecoder`) is outside the model: the stream is given
    as already-decoded text chunks. `JSON.parse` and the field look-ups after
    it are given as a classification function `parse`. */
module StreamClient {
  import opened Text
  import opened Results

  /** What `JSON.parse(data)` and the field tests that follow make of a payload. */
  datatype Payload =
    | Invalid                 // JSON.parse threw
    | ErrField(msg: string)   // parsed; `parsed.error` is truthy, with this text
    | Delta(content: string)  // parsed; no error; `choices[0].delta.content` is this string
    | NoDelta                 // parsed; no error and no content at that path

  /** The callbacks, in the order they are invoked: `onChunk`, `onComplete`, `onError`. */
  datatype Event = Chunk(text: string) | Complete | Error(msg: string)

  predicate IsTerminal(e: Event) { !e.Chunk? }

  /** Zero or more `Chunk`s followed by exactly one terminal event. */
  predicate WellFormed(events: seq<Event>) {
    && |events| >= 1
    && IsTerminal(events[|events| - 1])
    && forall i :: 0 <= i < |events| - 1 ==> events[i].Chunk?
  }

  const DataPrefix: string := "data: "
  const DoneSentinel: string := "[DONE]"

  /** A `data: ` line whose payload, trimmed, is the `[DONE]` sentinel. */
  predicate IsDoneLine(line: string) {
    StartsWith(line, DataPrefix) && JsTrim(line[|DataPrefix|..]) == DoneSentinel
  }

  /** What one complete line does to the run. */
  datatype LineEffect = Ignore | Emit(text: string) | Finish(event: Event)

  /** The effect of one line: lines without the `data: ` prefix, payloads that
      do not parse, and payloads without a non-empty delta are ignored; the
      sentinel and a truthy `error` field end the run. */
  function ClassifyLine(line: string, parse: string -> Payload): (eff: LineEffect)
    ensures eff.Finish? ==> IsTerminal(eff.event)
    ensures eff.Emit? ==> eff.text != []
    ensures eff.Finish? && eff.event == Complete <==> IsDoneLine(line)
    ensures eff.Emit? <==>
              && StartsWith(line, DataPrefix) && !IsDoneLine(line)
              && parse(line[|DataPrefix|..]).Delta? && parse(line[|DataPrefix|..]).content != []
    ensures eff.Emit? ==> StartsWith(line, DataPrefix) && eff.text == parse(line[|DataPrefix|..]).content
    ensures eff.Finish? && eff.event.Error? <==>
              StartsWith(line, DataPrefix) && !IsDoneLine(line) && parse(line[|DataPrefix|..]).ErrField?
    ensures eff.Finish? && eff.event.Error? ==>
              StartsWith(line, DataPrefix) && eff.event.msg == parse(line[|DataPrefix|..]).msg
  {
    if !StartsWith(line, DataPrefix) then Ignore
    else
      var data := line[|DataPrefix|..];
      if JsTrim(data) == DoneSentinel then Finish(Complete)
      else match parse(data)
        case Invalid => Ignore
        case ErrField(msg) => Finish(Error(msg))
        case Delta(content) => if content != [] then Emit(content) else Ignore
        case NoDelta => Ignore
  }

  /** The events a sequence of complete lines produces, and whether a terminal
      line was met (after which no line is looked at). */
  datatype Progress = Progress(events: seq<Event>, stopped: bool)

  function Run(lines: seq<string>, parse: string -> Payload): (p: Progress)
    ensures |p.events| <= |lines|
    decreases |lines|
  {
    if lines == [] then Progress([], false)
    else match ClassifyLine(lines[0], parse)
      case Ignore => Run(lines[1..], parse)
      case Emit(text) =>
        var p := Run(lines[1..], parse);
        Progress([Chunk(text)] + p.events, p.stopped)
      case Finish(e) => Progress([e], true)
  }

  /** Each line yields at most one event; a stopped run ends in its one
      terminal event, every other event is a `Chunk`. */
  lemma {:induction false} RunShape(lines: seq<string>, parse: string -> Payload)
    ensures var p := Run(lines, parse);
            && (p.stopped ==> |p.events| >= 1)
            && forall i :: 0 <= i < |p.events| ==>
                 (p.events[i].Chunk? <==> !(p.stopped && i == |p.events| - 1))
    decreases |lines|
  {
    if lines != [] {
      RunShape(lines[1..], parse);
    }
  }

  /** How the body stream ends if no terminal line is met: the reader reports
      `done`, or a read throws (caught by the outer handler). */
  datatype StreamEnd = EndOfStream | ReadFailure(msg: string)

  function EndEvent(end: StreamEnd): (e: Event)
    ensures IsTerminal(e)
    ensures e == Complete <==> end == EndOfStream
    ensures end.ReadFailure? ==> e == Error(end.msg)
  {
    match end
    case EndOfStream => Complete
    case ReadFailure(msg) => Error(msg)
  }

  /** The complete lines of the received text: the pieces followed by `'\n'`.
      The unterminated rest is never parsed. */
  function CompleteLines(text: string): seq<string> {
    Terminated(text, '\n')
  }

  /** The events for a body whose whole text is `text`. */
  function StreamEvents(text: string, end: StreamEnd, parse: string -> Payload): (events: seq<Event>)
    ensures WellFormed(events)
    ensures Run(CompleteLines(text), parse).stopped ==> events == Run(CompleteLines(text), parse).events
    ensures !Run(CompleteLines(text), parse).stopped ==>
              && events[..|events| - 1] == Run(CompleteLines(text), parse).events
              && events[|events| - 1] == EndEvent(end)
  {
    var p := Run(CompleteLines(text), parse);
    RunShape(CompleteLines(text), parse);
    if p.stopped then p.events else p.events + [EndEvent(end)]
  }

  /** The text of a sequence of chunks, in order. */
  function Concat(chunks: seq<string>): string {
    if chunks == [] then [] else Concat(chunks[..|chunks| - 1]) + chunks[|chunks| - 1]
  }

  lemma {:induction false} ConcatAppend(a: seq<string>, b: seq<string>)
    ensures Concat(a + b) == Concat(a) + Concat(b)
    decreases |b|
  {
    if b == [] {
      assert a + b == a;
    } else {
      ConcatAppend(a, b[..|b| - 1]);
      assert (a + b)[..|a + b| - 1] == a + b[..|b| - 1];
    }
  }

  /** Running two stretches of lines one after the other: the second is
      looked at only if the first met no terminal line. */
  lemma {:induction false} RunConcat(a: seq<string>, b: seq<string>, parse: string -> Payload)
    ensures Run(a + b, parse) ==
      var pa := Run(a, parse);
      if pa.stopped then pa
      else Progress(pa.events + Run(b, parse).events, Run(b, parse).stopped)
    decreases |a|
  {
    if a == [] {
      assert a + b == b;
    } else {
      var ab := a + b;
      assert ab[0] == a[0] && ab[1..] == a[1..] + b;
      RunConcat(a[1..], b, parse);
      var rest, pb := Run(a[1..], parse), Run(b, parse);
      match ClassifyLine(a[0], parse)
      case Ignore =>
      case Emit(text) =>
        assert Run(ab, parse) == Progress([Chunk(text)] + Run(a[1..] + b, parse).events, Run(a[1..] + b, parse).stopped);
        if !rest.stopped {
          assert [Chunk(text)] + (rest.events + pb.events) == ([Chunk(text)] + rest.events) + pb.events;
        }
      case Finish(e) =>
    }
  }

  /** A line that classifies as `Ignore` (no `data: ` prefix, a payload that
      does not parse, no non-empty delta) can be removed without changing
      anything. */
  lemma IgnoredLineInvisible(a: seq<string>, line: string, b: seq<string>, parse: string -> Payload)
    requires ClassifyLine(line, parse) == Ignore
    ensures Run(a + [line] + b, parse) == Run(a + b, parse)
  {
    RunConcat(a, [line] + b, parse);
    RunConcat(a, b, parse);
    assert a + [line] + b == a + ([line] + b);
  }

  /** Lines without the `data: ` prefix produce no event. */
  lemma NonDataLineInvisible(a: seq<string>, line: string, b: seq<string>, parse: string -> Payload)
    requires !StartsWith(line, DataPrefix)
    ensures Run(a + [line] + b, parse) == Run(a + b, parse)
  {
    IgnoredLineInvisible(a, line, b, parse);
  }

  /** A frame that does not parse is skipped and the lines after it are still
      processed. */
  lemma MalformedFrameInvisible(a: seq<string>, line: string, b: seq<string>, parse: string -> Payload)
    requires StartsWith(line, DataPrefix) && !IsDoneLine(line)
    requires parse(line[|DataPrefix|..]) == Invalid
    ensures Run(a + [line] + b, parse) == Run(a + b, parse)
  {
    IgnoredLineInvisible(a, line, b, parse);
  }

  /** A delta frame contributes exactly one `Chunk`, in its place between the
      events of the lines before and after it. */
  lemma DeltaInPlace(a: seq<string>, line: string, b: seq<string>, parse: string -> Payload, content: string)
    requires !Run(a, parse).stopped
    requires StartsWith(line, DataPrefix) && !IsDoneLine(line)
    requires parse(line[|DataPrefix|..]) == Delta(content) && content != []
    ensures Run(a + [line] + b, parse) ==
      Progress(Run(a, parse).events + [Chunk(content)] + Run(b, parse).events, Run(b, parse).stopped)
  {
    assert ClassifyLine(line, parse) == Emit(content);
    RunStep(a, line, parse);
    RunConcat(a + [line], b, parse);
  }

  /** The sentinel ends the run with `Complete`: nothing after it is looked at. */
  lemma DoneIsFinal(a: seq<string>, line: string, b: seq<string>, parse: string -> Payload)
    requires !Run(a, parse).stopped && IsDoneLine(line)
    ensures Run(a + [line] + b, parse) == Progress(Run(a, parse).events + [Complete], true)
  {
    RunConcat(a, [line] + b, parse);
    assert a + [line] + b == a + ([line] + b);
  }

  /** A payload with a truthy `error` field ends the run with that error; the
      chunks already emitted stay. */
  lemma ErrorIsFinal(a: seq<string>, line: string, b: seq<string>, parse: string -> Payload, msg: string)
    requires !Run(a, parse).stopped
    requires StartsWith(line, DataPrefix) && !IsDoneLine(line)
    requires parse(line[|DataPrefix|..]) == ErrField(msg)
    ensures Run(a + [line] + b, parse) == Progress(Run(a, parse).events + [Error(msg)], true)
  {
    RunConcat(a, [line] + b, parse);
    assert a + [line] + b == a + ([line] + b);
  }

  /** A trailing fragment without `'\n'` is never parsed: the events of a text
      that ends at a line boundary do not change when such a fragment follows. */
  lemma TrailingFragmentIgnored(text: string, fragment: string, end: StreamEnd, parse: string -> Payload)
    requires text == [] || text[|text| - 1] == '\n'
    requires '\n' !in fragment
    ensures StreamEvents(text + fragment, end, parse) == StreamEvents(text, end, parse)
  {
    assert CompleteLines(text + fragment) == CompleteLines(text) by {
      SplitAppend(text, fragment, '\n');
      if text != [] {
        EndsWithSeparator(text, '\n');
      }
      assert Unterminated(text, '\n') + fragment == fragment;
      SplitFree(fragment, '\n');
      assert Terminated(fragment, '\n') == [];
    }
  }

  /** `sendChatMessage`'s read loop over the chunks of the body. The events
      depend on the chunks only through their concatenation: however the same
      text is cut into chunks, the same events are emitted. */
  method ReadStream(chunks: seq<string>, end: StreamEnd, parse: string -> Payload) returns (events: seq<Event>)
    ensures events == StreamEvents(Concat(chunks), end, parse)
  {
    var buffer: string := [];
    ghost var done: seq<string> := [];
    events := [];
    var i := 0;
    while i < |chunks|
      invariant 0 <= i <= |chunks|
      invariant '\n' !in buffer && AllFree(done, '\n')
      invariant Join(done + [buffer], '\n') == Concat(chunks[..i])
      invariant Run(done, parse) == Progress(events, false)
    {
      ghost var received := Concat(chunks[..i + 1]);
      BufferStep(chunks, i, done, buffer);
      var lines;
      lines, buffer := TakeLines(buffer + chunks[i]);
      assert Split(received, '\n') == done + lines + [buffer];
      var out, stopped := HandleLines(lines, parse);
      RunConcat(done, lines, parse);
      events := events + out;
      if stopped {
        ReturnAfterTerminal(chunks, i, done, lines, buffer, end, parse);
        return;
      }
      JoinSplit(received, '\n');
      AllFreeConcat(done, lines, '\n');
      done := done + lines;
      assert done + [buffer] == Split(received, '\n');
      i := i + 1;
    }
    assert chunks[..i] == chunks;
    SplitJoin(done + [buffer], '\n');
    events := events + [EndEvent(end)];
  }

  /** `lines = buffer.split('\n')` followed by `buffer = lines.pop() || ''`:
      the complete lines of the buffer, and the unterminated rest to carry. */
  method TakeLines(buffer: string) returns (lines: seq<string>, rest: string)
    ensures lines + [rest] == Split(buffer, '\n')
    ensures AllFree(lines, '\n') && '\n' !in rest
  {
    lines := Split(buffer, '\n');
    rest := lines[|lines| - 1];
    lines := lines[..|lines| - 1];
  }

  /** The `for` loop over the complete lines of one chunk: the events of those
      lines, and whether a terminal line made `sendChatMessage` return. */
  method HandleLines(lines: seq<string>, parse: string -> Payload) returns (out: seq<Event>, stopped: bool)
    ensures Run(lines, parse) == Progress(out, stopped)
  {
    out, stopped := [], false;
    var j := 0;
    while j < |lines|
      invariant 0 <= j <= |lines|
      invariant Run(lines[..j], parse) == Progress(out, false)
    {
      var line := lines[j];
      RunStep(lines[..j], line, parse);
      assert lines[..j + 1] == lines[..j] + [line];
      if StartsWith(line, DataPrefix) {
        var data := line[|DataPrefix|..];
        if JsTrim(data) == DoneSentinel {
          out, stopped := out + [Complete], true;
          RunConcat(lines[..j + 1], lines[j + 1..], parse);
          assert lines[..j + 1] + lines[j + 1..] == lines;
          return;
        }
        match parse(data)
        case Invalid =>
        case ErrField(msg) =>
          out, stopped := out + [Error(msg)], true;
          RunConcat(lines[..j + 1], lines[j + 1..], parse);
          assert lines[..j + 1] + lines[j + 1..] == lines;
          return;
        case Delta(content) =>
          if content != [] {
            out := out + [Chunk(content)];
          }
        case NoDelta =>
      }
      j := j + 1;
    }
    assert lines[..j] == lines;
  }

  /** One chunk arrives: the text received so far splits into the lines
      already processed followed by the pieces of the carried buffer with the
      new chunk appended. */
  lemma BufferStep(chunks: seq<string>, i: nat, done: seq<string>, buffer: string)
    requires i < |chunks|
    requires AllFree(done, '\n') && '\n' !in buffer
    requires Join(done + [buffer], '\n') == Concat(chunks[..i])
    ensures Split(Concat(chunks[..i + 1]), '\n') == done + Split(buffer + chunks[i], '\n')
  {
    assert chunks[..i + 1][..i] == chunks[..i];
    SplitExtend(done, buffer, chunks[i], '\n');
  }

  /** One more line after a stretch that met no terminal line. */
  lemma RunStep(a: seq<string>, line: string, parse: string -> Payload)
    requires !Run(a, parse).stopped
    ensures Run(a + [line], parse) ==
      match ClassifyLine(line, parse)
      case Ignore => Run(a, parse)
      case Emit(text) => Progress(Run(a, parse).events + [Chunk(text)], false)
      case Finish(e) => Progress(Run(a, parse).events + [e], true)
  {
    RunConcat(a, [line], parse);
    assert [line][1..] == [];
    assert Run(a, parse).events + [] == Run(a, parse).events;
  }

  /** Why returning as soon as a terminal line is met gives the events of the
      whole body: the lines looked at are a prefix of its complete lines. */
  lemma ReturnAfterTerminal(chunks: seq<string>, i: nat, done: seq<string>, lines: seq<string>,
                            buffer: string, end: StreamEnd, parse: string -> Payload)
    requires i < |chunks|
    requires Split(Concat(chunks[..i + 1]), '\n') == done + lines + [buffer]
    requires Run(done + lines, parse).stopped
    ensures StreamEvents(Concat(chunks), end, parse) == Run(done + lines, parse).events
  {
    var text := Concat(chunks[..i + 1]);
    var rest := Concat(chunks[i + 1..]);
    var more := Terminated(buffer + rest, '\n');
    assert CompleteLines(Concat(chunks)) == (done + lines) + more by {
      ConcatAppend(chunks[..i + 1], chunks[i + 1..]);
      assert chunks[..i + 1] + chunks[i + 1..] == chunks;
      SplitAppend(text, rest, '\n');
      var parts := Split(text, '\n');
      assert parts[..|parts| - 1] == done + lines;
      assert parts[|parts| - 1] == buffer;
    }
    RunConcat(done + lines, more, parse);
  }

  /** The Turnstile configuration and page state `getTurnstileToken` reads. */
  datatype TurnstileEnv = TurnstileEnv(
    devMode: bool,                    // import.meta.env.DEV
    siteKey: string,                  // VITE_TURNSTILE_SITE_KEY, "" when unset
    widgetPresent: bool,              // a `.cf-turnstile` element is on the page
    widgetResponse: Option<string>)   // window.turnstile?.getResponse()

  const TestToken: string := "test-token"
  const NotInitialized: string := "Turnstile not initialized"
  const NoToken: string := "Failed to get Turnstile token"

  /** `getTurnstileToken`: a placeholder in development or without a site key,
      otherwise the widget's current response. A resolved credential is never
      empty; the absent widget and the idle widget fail with distinct messages. */
  function GetTurnstileToken(env: TurnstileEnv): (r: Result<string>)
    ensures r.Ok? ==> r.value != []
    ensures (env.devMode || env.siteKey == []) ==> r == Ok(TestToken)
    ensures r == Err(NotInitialized) <==> !env.devMode && env.siteKey != [] && !env.widgetPresent
    ensures r == Err(NoToken) <==>
              !env.devMode && env.siteKey != [] && env.widgetPresent
              && (env.widgetResponse == None || env.widgetResponse == Some([]))
    ensures !env.devMode && env.siteKey != [] && env.widgetPresent
            && env.widgetResponse.Some? && env.widgetResponse.value != [] ==>
              r == Ok(env.widgetResponse.value)
  {
    if env.devMode || env.siteKey == [] then Ok(TestToken)
    else if !env.widgetPresent then Err(NotInitialized)
    else match env.widgetResponse
      case Some(token) => if token != [] then Ok(token) else Err(NoToken)
      case None => Err(NoToken)
  }

  /** What `await response.json()` on a non-OK response gives: it throws (with
      the parser's message), or it yields a value whose `error` field is
      `error`: `Some(String(value))` when the field is truthy, `None` when it
      is absent or falsy. */
  datatype ErrorBody = Unreadable(reason: string) | ErrorJson(error: Option<string>)

  /** The message for a non-OK response: `errorData.error || "HTTP <status>"`,
      or the message of the exception `response.json()` threw. */
  function NotOkMessage(status: int, body: ErrorBody): string {
    match body
    case Unreadable(reason) => reason
    case ErrorJson(error) => if error.Some? then error.value else "HTTP " + IntToString(status)
  }

  /** The body as the reader delivers it. */
  datatype Body = Body(chunks: seq<string>, end: StreamEnd)

  /** The response of `fetch(`${API_BASE_URL}/chat`, ...)`. */
  datatype Response = Response(ok: bool, status: int, errorBody: ErrorBody, body: Option<Body>)

  const NoResponseBody: string := "No response body"

  /** The steps of `sendChatMessage` before the read loop: the credential, the
      status check and the body check, in that order. */
  function OpenStream(env: TurnstileEnv, response: Response): (r: Result<Body>)
    ensures GetTurnstileToken(env).Err? ==> r == Err(GetTurnstileToken(env).error)
    ensures GetTurnstileToken(env).Ok? && !response.ok && response.errorBody.ErrorJson? ==>
              r == Err(if response.errorBody.error.Some? then response.errorBody.error.value
                       else "HTTP " + IntToString(response.status))
    ensures GetTurnstileToken(env).Ok? && !response.ok && response.errorBody.Unreadable? ==>
              r == Err(response.errorBody.reason)
    ensures GetTurnstileToken(env).Ok? && response.ok && response.body.None? ==> r == Err(NoResponseBody)
    ensures r.Ok? <==> GetTurnstileToken(env).Ok? && response.ok && response.body.Some?
    ensures r.Ok? ==> r.value == response.body.value
  {
    match GetTurnstileToken(env)
    case Err(msg) => Err(msg)
    case Ok(_) =>
      if !response.ok then Err(NotOkMessage(response.status, response.errorBody))
      else match response.body
        case None => Err(NoResponseBody)
        case Some(body) => Ok(body)
  }

  /** `sendChatMessage`: every failure before the read loop becomes a single
      `Error`; otherwise the events of the body. Assuming the callbacks do not
      throw, every call ends in exactly one `Complete` or `Error`. */
  method SendChatMessage(env: TurnstileEnv, response: Response, parse: string -> Payload)
    returns (events: seq<Event>)
    ensures WellFormed(events)
    ensures events == match OpenStream(env, response)
                      case Err(msg) => [Error(msg)]
                      case Ok(body) => StreamEvents(Concat(body.chunks), body.end, parse)
  {
    var token := GetTurnstileToken(env);
    if token.Err? {
      return [Error(token.error)];
    }
    if !response.ok {
      return [Error(NotOkMessage(response.status, response.errorBody))];
    }
    if response.body.None? {
      return [Error(NoResponseBody)];
    }
    events := ReadStream(response.body.value.chunks, response.body.value.end, parse);
  }
}
