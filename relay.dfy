/** The upstream relay inside `generate()` in backend/app.py: the lines of the
    model provider's streamed answer are filtered, framed as server-sent
    events (each `data: ` line followed by a blank line) and passed on, up to
    the `[DONE]` sentinel; failures become one error frame.

    The provider's answer is given as its status and its lines (as
    `iter_lines` delivers them, so free of `'\n'`), followed, when the
    connection broke off, by the failure. A raised exception's text is given
    already rendered by `json.dumps`. */
module Relay {
  import opened Text
  import opened Results
  import opened StreamClient

  /** How reading the provider's answer can fail. */
  datatype Failure =
    | Timeout                 // requests.exceptions.Timeout
    | Raised(detail: string)  // any other exception, its text as `json.dumps` renders it

  /** The provider's answer to the forwarded request. With status 200 the
      lines are the streamed answer; with another status they are the error
      body, which the relay reads whole before it sends anything. `failure`
      is how reading either broke off, if it did. */
  datatype Upstream =
    | Unreachable(cause: Failure)
    | Answered(status: int, lines: seq<string>, failure: Option<Failure>)

  /** What the relay does with one line. */
  datatype LineAction = Skip | Pass | Stop

  const ServiceErrorPayload: string := "{\"error\": \"AI service error\"}"
  const TimeoutPayload: string := "{\"error\": \"Request timeout\"}"

  /** The sentinel frame's line, `data: [DONE]`. */
  const DoneLine: string := DataPrefix + DoneSentinel
  const ServiceErrorLine: string := DataPrefix + ServiceErrorPayload

  function FailureLine(f: Failure): string {
    match f
    case Timeout => DataPrefix + TimeoutPayload
    case Raised(detail) => DataPrefix + "{\"error\": " + detail + "}"
  }

  /** An event-stream frame: the line, then the blank line that ends the event. */
  function Frame(line: string): string {
    line + "\n\n"
  }

  function FramesOf(lines: seq<string>): (frames: seq<string>)
    ensures |frames| == |lines|
    ensures forall i :: 0 <= i < |lines| ==> frames[i] == Frame(lines[i])
  {
    seq(|lines|, i requires 0 <= i < |lines| => Frame(lines[i]))
  }

  /** Empty lines and lines without the `data: ` prefix are dropped; a
      payload that is `[DONE]` after Python's `strip()` ends the relay. */
  function RelayLine(line: string): (a: LineAction)
    ensures a != Skip <==> StartsWith(line, DataPrefix)
    ensures a == Stop <==> StartsWith(line, DataPrefix) && PyStrip(line[|DataPrefix|..]) == DoneSentinel
    ensures a == Pass ==> line != DoneLine
  {
    Untrimmed(DoneSentinel, IsPySpace);
    assert DoneLine[|DataPrefix|..] == DoneSentinel;
    if line == [] then Skip
    else if !StartsWith(line, DataPrefix) then Skip
    else if PyStrip(line[|DataPrefix|..]) == DoneSentinel then Stop
    else Pass
  }

  /** The lines a run of provider lines is relayed as (each is sent framed),
      and whether the sentinel ended the run. */
  function Relayed(lines: seq<string>): (r: (seq<string>, bool))
    ensures |r.0| <= |lines|
    decreases |lines|
  {
    if lines == [] then ([], false)
    else match RelayLine(lines[0])
      case Skip => Relayed(lines[1..])
      case Stop => ([DoneLine], true)
      case Pass =>
        var rest := Relayed(lines[1..]);
        ([lines[0]] + rest.0, rest.1)
  }

  function FailureLines(failure: Option<Failure>): seq<string> {
    if failure.Some? then [FailureLine(failure.value)] else []
  }

  /** The lines `generate()` sends, in order. */
  function GeneratedLines(upstream: Upstream): (r: seq<string>)
    ensures upstream.Answered? && upstream.status == 200 ==>
              Relayed(upstream.lines).0 <= r && |r| <= |Relayed(upstream.lines).0| + 1
    ensures !(upstream.Answered? && upstream.status == 200) ==> |r| == 1 && StartsWith(r[0], DataPrefix)
    ensures upstream.Unreachable? ==> r == [FailureLine(upstream.cause)]
    ensures upstream.Answered? && upstream.status != 200 ==>
              r == (if upstream.failure.Some? then [FailureLine(upstream.failure.value)] else [ServiceErrorLine])
    ensures (upstream.Answered? && upstream.status == 200
             && (Relayed(upstream.lines).1 || upstream.failure.None?)) ==>
              r == Relayed(upstream.lines).0
    ensures (upstream.Answered? && upstream.status == 200
             && !Relayed(upstream.lines).1 && upstream.failure.Some?) ==>
              r == Relayed(upstream.lines).0 + [FailureLine(upstream.failure.value)]
  {
    match upstream
    case Unreachable(f) => [FailureLine(f)]
    case Answered(status, lines, failure) =>
      if status != 200 then
        (if failure.Some? then [FailureLine(failure.value)] else [ServiceErrorLine])
      else
        var r := Relayed(lines);
        r.0 + (if r.1 then [] else FailureLines(failure))
  }

  /** The sentinel is the same after either language's trimming, so the
      sentinel frame is the sentinel for both sides. */
  lemma SentinelLine()
    ensures DoneLine[|DataPrefix|..] == DoneSentinel
    ensures PyStrip(DoneSentinel) == DoneSentinel && JsTrim(DoneSentinel) == DoneSentinel
    ensures IsDoneLine(DoneLine) && RelayLine(DoneLine) == Stop
  {
    Untrimmed(DoneSentinel, IsPySpace);
    Untrimmed(DoneSentinel, IsJsSpace);
  }

  /** Every relayed line but the last is a provider line that the relay
      passes; the last is `data: [DONE]` exactly when the sentinel was met,
      and a passed provider line otherwise. */
  lemma {:induction false} RelayedLines(lines: seq<string>)
    ensures var r := Relayed(lines);
            && (forall k :: 0 <= k < |r.0| ==>
                  if r.1 && k == |r.0| - 1 then r.0[k] == DoneLine
                  else r.0[k] in lines && RelayLine(r.0[k]) == Pass)
            && (r.1 ==> r.0 != [])
    decreases |lines|
  {
    if lines != [] {
      RelayedLines(lines[1..]);
      var rest := Relayed(lines[1..]);
      forall k | 0 <= k < |rest.0| && rest.0[k] in lines[1..] ensures rest.0[k] in lines {
        assert lines == [lines[0]] + lines[1..];
      }
    }
  }

  /** The relay lets pass, unchanged and in order, every line of the provider
      until the sentinel. For any lines that follow, the client's run over the
      relayed lines equals its run over the provider's own lines, provided
      that a line the relay takes for the sentinel is one the client takes for
      the sentinel too. */
  lemma {:induction false} RelayTransparent(lines: seq<string>, tail: seq<string>, parse: string -> Payload)
    requires forall i :: 0 <= i < |lines| && RelayLine(lines[i]) == Stop ==> IsDoneLine(lines[i])
    ensures Run(Relayed(lines).0 + (if Relayed(lines).1 then [] else tail), parse) == Run(lines + tail, parse)
    decreases |lines|
  {
    if lines == [] {
      assert lines + tail == tail;
    } else {
      var all := lines + tail;
      assert all[0] == lines[0] && all[1..] == lines[1..] + tail;
      RelayTransparent(lines[1..], tail, parse);
      var rest := Relayed(lines[1..]);
      var restTail := rest.0 + (if rest.1 then [] else tail);
      match RelayLine(lines[0])
      case Skip =>
        assert ClassifyLine(lines[0], parse) == Ignore;
      case Stop =>
        SentinelLine();
        assert ([DoneLine] + [])[1..] == [];
      case Pass =>
        var out := [lines[0]] + restTail;
        assert out[0] == lines[0] && out[1..] == restTail;
        assert Relayed(lines).0 + (if Relayed(lines).1 then [] else tail) == out;
    }
  }

  predicate NoNewlines(upstream: Upstream) {
    match upstream
    case Unreachable(f) => f.Raised? ==> '\n' !in f.detail
    case Answered(_, lines, failure) =>
      AllFree(lines, '\n') && (failure.Some? && failure.value.Raised? ==> '\n' !in failure.value.detail)
  }

  lemma FramesOfAppend(a: seq<string>, b: seq<string>)
    ensures FramesOf(a + b) == FramesOf(a) + FramesOf(b)
  {
  }

  /** One step of `Relayed` at position `i`. */
  lemma RelayedAt(lines: seq<string>, i: int)
    requires 0 <= i < |lines|
    ensures RelayLine(lines[i]) == Skip ==> Relayed(lines[i..]) == Relayed(lines[i + 1..])
    ensures RelayLine(lines[i]) == Stop ==> Relayed(lines[i..]) == ([DoneLine], true)
    ensures RelayLine(lines[i]) == Pass ==>
              Relayed(lines[i..]) == ([lines[i]] + Relayed(lines[i + 1..]).0, Relayed(lines[i + 1..]).1)
  {
    assert lines[i..][0] == lines[i] && lines[i..][1..] == lines[i + 1..];
  }

  /** The `for` loop over the provider's lines: the frames sent and whether
      the sentinel made it `break`. */
  method RelayLines(lines: seq<string>) returns (frames: seq<string>, stopped: bool)
    ensures frames == FramesOf(Relayed(lines).0) && stopped == Relayed(lines).1
  {
    frames, stopped := [], false;
    ghost var sent: seq<string> := [];
    var i := 0;
    assert lines[0..] == lines && [] + Relayed(lines).0 == Relayed(lines).0;
    while i < |lines|
      invariant 0 <= i <= |lines|
      invariant frames == FramesOf(sent)
      invariant Relayed(lines) == (sent + Relayed(lines[i..]).0, Relayed(lines[i..]).1)
    {
      var line := lines[i];
      RelayedAt(lines, i);
      if line != [] {
        if StartsWith(line, DataPrefix) {
          var data := line[|DataPrefix|..];
          if PyStrip(data) == DoneSentinel {
            assert RelayLine(line) == Stop;
            FramesOfAppend(sent, [DoneLine]);
            frames, stopped := frames + [Frame(DoneLine)], true;
            return;
          }
          assert RelayLine(line) == Pass;
          FramesOfAppend(sent, [line]);
          frames := frames + [Frame(line)];
          assert sent + ([line] + Relayed(lines[i + 1..]).0) == (sent + [line]) + Relayed(lines[i + 1..]).0;
          sent := sent + [line];
        }
      }
      i := i + 1;
    }
    assert lines[i..] == [] && sent + [] == sent;
  }

  /** `generate()`: one error frame when the provider is unreachable or
      answers with a status other than 200 (the failure's own frame when
      reading that error body broke off); otherwise the relayed frames,
      ended by the sentinel frame or, after a broken connection, one error
      frame. */
  method Generate(upstream: Upstream) returns (frames: seq<string>)
    ensures frames == FramesOf(GeneratedLines(upstream))
  {
    if upstream.Unreachable? {
      return [Frame(FailureLine(upstream.cause))];
    }
    if upstream.status != 200 {
      if upstream.failure.Some? {
        return [Frame(FailureLine(upstream.failure.value))];
      }
      return [Frame(ServiceErrorLine)];
    }
    var stopped;
    frames, stopped := RelayLines(upstream.lines);
    FramesOfAppend(Relayed(upstream.lines).0, FailureLines(upstream.failure));
    if !stopped && upstream.failure.Some? {
      frames := frames + [Frame(FailureLine(upstream.failure.value))];
    }
  }

  /** The lines of a framed stream as the client cuts them: each sent line
      followed by the blank line that ends its frame. */
  function WithBlankLines(lines: seq<string>): seq<string>
    decreases |lines|
  {
    if lines == [] then []
    else WithBlankLines(lines[..|lines| - 1]) + [lines[|lines| - 1], []]
  }

  /** One frame's text is its line joined with two empty lines. */
  lemma FrameAsJoin(line: string)
    ensures Join([line, [], []], '\n') == Frame(line)
  {
    var empty: string := [];
    assert [line, empty, empty][1..] == [empty, empty];
    assert [empty, empty][1..] == [empty];
    assert Join([empty, empty], '\n') == "\n";
    assert line + ['\n'] + "\n" == line + "\n\n";
  }

  /** The text of the frames is the lines joined with `'\n'`, a blank line
      after each, and one final `'\n'`. */
  lemma {:induction false} FramesText(lines: seq<string>)
    ensures Concat(FramesOf(lines)) == Join(WithBlankLines(lines) + [[]], '\n')
    decreases |lines|
  {
    if lines != [] {
      var init, last := lines[..|lines| - 1], lines[|lines| - 1];
      FramesText(init);
      var frames := FramesOf(lines);
      assert frames[..|frames| - 1] == FramesOf(init);
      var before := WithBlankLines(init);
      calc {
        Concat(frames);
        Concat(FramesOf(init)) + Frame(last);
        Join(before + [[]], '\n') + Frame(last);
        { JoinAppendLast(before, [], Frame(last), '\n'); assert [] + Frame(last) == Frame(last); }
        Join(before + [Frame(last)], '\n');
        { FrameAsJoin(last); JoinPrefix(before, [last, [], []], '\n'); }
        Join(before + [last, [], []], '\n');
        { assert before + [last, [], []] == WithBlankLines(lines) + [[]]; }
        Join(WithBlankLines(lines) + [[]], '\n');
      }
    }
  }

  lemma {:induction false} WithBlankLinesFree(lines: seq<string>)
    requires AllFree(lines, '\n')
    ensures AllFree(WithBlankLines(lines), '\n')
    decreases |lines|
  {
    if lines != [] {
      var init, last := lines[..|lines| - 1], lines[|lines| - 1];
      assert AllFree(init, '\n') by {
        forall i | 0 <= i < |init| ensures '\n' !in init[i] {
          assert init[i] == lines[i];
        }
      }
      WithBlankLinesFree(init);
      assert AllFree([last, []], '\n');
      AllFreeConcat(WithBlankLines(init), [last, []], '\n');
    }
  }

  /** The blank line after each frame is invisible to the client. */
  lemma {:induction false} BlankLinesInvisible(lines: seq<string>, parse: string -> Payload)
    ensures Run(WithBlankLines(lines), parse) == Run(lines, parse)
    decreases |lines|
  {
    if lines != [] {
      var init, last := lines[..|lines| - 1], lines[|lines| - 1];
      BlankLinesInvisible(init, parse);
      var spread := WithBlankLines(init);
      IgnoredLineInvisible(spread + [last], [], [], parse);
      assert spread + [last] + [[]] + [] == WithBlankLines(lines);
      assert spread + [last] + [] == spread + [last];
      RunConcat(spread, [last], parse);
      RunConcat(init, [last], parse);
      assert init + [last] == lines;
    }
  }

  /** A body made of `'\n'`-free lines, each ended by `'\n'`, has exactly
      those lines as its complete lines. */
  lemma LinesBody(lines: seq<string>)
    requires AllFree(lines, '\n')
    ensures CompleteLines(Join(lines + [[]], '\n')) == lines
  {
    AllFreeConcat(lines, [[]], '\n');
    SplitJoin(lines + [[]], '\n');
    assert (lines + [[]])[..|lines|] == lines;
  }

  /** Two bodies whose complete lines run alike give the same events. */
  lemma SameRunSameEvents(text1: string, text2: string, end: StreamEnd, parse: string -> Payload)
    requires Run(CompleteLines(text1), parse) == Run(CompleteLines(text2), parse)
    ensures StreamEvents(text1, end, parse) == StreamEvents(text2, end, parse)
  {
  }

  /** The client reading a framed stream sees exactly the sent lines: its
      events are those of a body made of the lines, each ended by `'\n'`. */
  lemma ClientReadsFrames(lines: seq<string>, end: StreamEnd, parse: string -> Payload)
    requires AllFree(lines, '\n')
    ensures StreamEvents(Concat(FramesOf(lines)), end, parse) == StreamEvents(Join(lines + [[]], '\n'), end, parse)
  {
    FramesText(lines);
    WithBlankLinesFree(lines);
    LinesBody(WithBlankLines(lines));
    BlankLinesInvisible(lines, parse);
    LinesBody(lines);
    SameRunSameEvents(Concat(FramesOf(lines)), Join(lines + [[]], '\n'), end, parse);
  }

  lemma FailureLinesFree(failure: Option<Failure>)
    requires failure.Some? && failure.value.Raised? ==> '\n' !in failure.value.detail
    ensures AllFree(FailureLines(failure), '\n')
  {
    if failure.Some? {
      var line := FailureLine(failure.value);
      assert '\n' !in DataPrefix;
      match failure.value
      case Timeout =>
        assert '\n' !in TimeoutPayload;
      case Raised(detail) =>
        assert '\n' !in "{\"error\": " && '\n' !in "}";
        assert line == DataPrefix + "{\"error\": " + detail + "}";
    }
  }

  /** What the relay sends for `'\n'`-free provider lines is `'\n'`-free. */
  lemma GeneratedFree(lines: seq<string>, failure: Option<Failure>)
    requires NoNewlines(Answered(200, lines, failure))
    ensures AllFree(GeneratedLines(Answered(200, lines, failure)), '\n')
  {
    var tail := FailureLines(failure);
    FailureLinesFree(failure);
    RelayedLines(lines);
    SentinelLine();
    var r := Relayed(lines);
    assert AllFree(r.0, '\n') by {
      forall k | 0 <= k < |r.0| ensures '\n' !in r.0[k] {
        if !(r.1 && k == |r.0| - 1) {
          var j :| 0 <= j < |lines| && lines[j] == r.0[k];
        }
      }
    }
    AllFreeConcat(r.0, if r.1 then [] else tail, '\n');
  }

  /** End to end, for a provider answering 200: the browser gets exactly the
      events it would get reading the provider's lines (followed by the
      failure line, after a broken connection) directly, provided that the
      two sides agree on which lines are the sentinel. */
  lemma RelayToClient(lines: seq<string>, failure: Option<Failure>, end: StreamEnd, parse: string -> Payload)
    requires NoNewlines(Answered(200, lines, failure))
    requires forall i :: 0 <= i < |lines| && RelayLine(lines[i]) == Stop ==> IsDoneLine(lines[i])
    ensures StreamEvents(Concat(FramesOf(GeneratedLines(Answered(200, lines, failure)))), end, parse)
         == StreamEvents(Join(lines + FailureLines(failure) + [[]], '\n'), end, parse)
  {
    var sent := GeneratedLines(Answered(200, lines, failure));
    var tail := FailureLines(failure);
    GeneratedFree(lines, failure);
    FailureLinesFree(failure);
    AllFreeConcat(lines, tail, '\n');
    calc {
      StreamEvents(Concat(FramesOf(sent)), end, parse);
      { ClientReadsFrames(sent, end, parse); }
      StreamEvents(Join(sent + [[]], '\n'), end, parse);
      { LinesBody(sent);
        LinesBody(lines + tail);
        RelayTransparent(lines, tail, parse);
        SameRunSameEvents(Join(sent + [[]], '\n'), Join(lines + tail + [[]], '\n'), end, parse); }
      StreamEvents(Join(lines + tail + [[]], '\n'), end, parse);
    }
  }

  /** A provider status other than 200 whose error body is read whole
      reaches the browser as exactly one `Error("AI service error")`,
      whatever that body holds. */
  lemma ServiceErrorToClient(status: int, lines: seq<string>, failure: Option<Failure>,
                             end: StreamEnd, parse: string -> Payload)
    requires status != 200 && failure.None?
    requires parse(ServiceErrorPayload) == ErrField("AI service error")
    ensures StreamEvents(Concat(FramesOf(GeneratedLines(Answered(status, lines, failure)))), end, parse)
         == [Error("AI service error")]
  {
    assert GeneratedLines(Answered(status, lines, failure)) == [ServiceErrorLine];
    assert ServiceErrorLine[|DataPrefix|..] == ServiceErrorPayload;
    Untrimmed(ServiceErrorPayload, IsJsSpace);
    assert ClassifyLine(ServiceErrorLine, parse) == Finish(Error("AI service error"));
    assert Run([ServiceErrorLine], parse) == Progress([Error("AI service error")], true);
    assert AllFree([ServiceErrorLine], '\n') by {
      assert forall k :: 0 <= k < |ServiceErrorLine| ==> ServiceErrorLine[k] != '\n';
    }
    ClientReadsFrames([ServiceErrorLine], end, parse);
    LinesBody([ServiceErrorLine]);
  }
}
