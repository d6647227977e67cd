/** The conversation view (frontend/src/components/ChatInterface.tsx): the
    transcript `messages`, the text box `input`, and the two flags `isLoading`
    and `isSending`, updated by `handleSend` and by the three callbacks it
    hands to `sendChatMessage`. Each state update is one atomic step, applied
    in the order the source issues it. */
module ChatInterface {
  import opened Text
  import opened Results
  import opened StreamClient

  datatype Role = System | User | Assistant

  /** One turn of the conversation (`Message` in frontend/src/types.ts). */
  datatype Message = Message(role: Role, content: string)

  /** The body of `POST /chat` without the credential (`ChatRequest`). */
  datatype ChatRequest = ChatRequest(messages: seq<Message>, llabNumbers: seq<int>, quizMode: string)

  /** The marker that replaces the in-flight turn's content on error. */
  const ErrorMarker: string := "\U{26A0}\U{FE0F} Error: "

  /** "LLAB n" for each selected number, in order. */
  function LlabLabels(llabNumbers: seq<int>): (labels: seq<string>)
    ensures |labels| == |llabNumbers|
  {
    seq(|llabNumbers|, i requires 0 <= i < |llabNumbers| => "LLAB " + IntToString(llabNumbers[i]))
  }

  const GreetingOpening: string :=
    "Welcome, Cadet! I'm Lani Bot, your study assistant. I'm ready to help you prepare for "
  const GreetingClosing: string := ".\n\nSay hello to get started!"

  /** The assistant greeting the view seeds when its LLAB list is set: an
      assistant turn that names every selected LLAB as "LLAB n". */
  function Greeting(llabNumbers: seq<int>): (g: Message)
    ensures g.role == Assistant
    ensures forall i :: 0 <= i < |llabNumbers| ==>
              Contains(g.content, "LLAB " + IntToString(llabNumbers[i]))
  {
    var labels := LlabLabels(llabNumbers);
    var text := GreetingOpening + JoinWith(labels, ", ") + GreetingClosing;
    assert forall i :: 0 <= i < |llabNumbers| ==> Contains(text, "LLAB " + IntToString(llabNumbers[i])) by {
      forall i | 0 <= i < |llabNumbers| ensures Contains(text, "LLAB " + IntToString(llabNumbers[i])) {
        assert labels[i] == "LLAB " + IntToString(llabNumbers[i]);
        LabelInGreeting(labels, i);
      }
    }
    Message(Assistant, text)
  }

  /** A label joined into the greeting text occurs in it. */
  lemma LabelInGreeting(labels: seq<string>, i: nat)
    requires i < |labels|
    ensures Contains(GreetingOpening + JoinWith(labels, ", ") + GreetingClosing, labels[i])
  {
    JoinWithContains(labels, ", ", i);
    ContainsInContext(GreetingOpening, JoinWith(labels, ", "), GreetingClosing, labels[i]);
  }

  /** `messages.slice(1).concat([userMessage])`: the transcript before the
      send without its first turn (the greeting), then the new user turn. */
  function Outgoing(history: seq<Message>, user: Message): seq<Message> {
    (if |history| == 0 then [] else history[1..]) + [user]
  }

  /** The content of the in-flight turn after one callback. */
  function ApplyEvent(content: string, e: Event): (r: string)
    ensures e.Chunk? ==> content <= r && r[|content|..] == e.text
    ensures e == Complete ==> r == content
    ensures e.Error? ==> ErrorMarker <= r && r[|ErrorMarker|..] == e.msg
  {
    match e
    case Chunk(text) => content + text
    case Complete => content
    case Error(msg) => ErrorMarker + msg
  }

  /** The content of the in-flight turn after a sequence of callbacks. */
  function AfterEvents(content: string, events: seq<Event>): string
    decreases |events|
  {
    if events == [] then content
    else ApplyEvent(AfterEvents(content, events[..|events| - 1]), events[|events| - 1])
  }

  /** The text of the `Chunk` events, concatenated in order. */
  function ChunkText(events: seq<Event>): string
    decreases |events|
  {
    if events == [] then []
    else ChunkText(events[..|events| - 1])
         + (if events[|events| - 1].Chunk? then events[|events| - 1].text else [])
  }

  /** While only chunks arrive, the in-flight turn is its old content followed
      by the chunks in order. */
  lemma {:induction false} ChunksAccumulate(content: string, events: seq<Event>)
    requires forall i :: 0 <= i < |events| ==> events[i].Chunk?
    ensures AfterEvents(content, events) == content + ChunkText(events)
    decreases |events|
  {
    if events != [] {
      var init, last := events[..|events| - 1], events[|events| - 1];
      assert forall i :: 0 <= i < |init| ==> init[i] == events[i];
      assert last == Chunk(last.text);
      ChunksAccumulate(content, init);
      calc {
        AfterEvents(content, events);
        ApplyEvent(AfterEvents(content, init), last);
        ApplyEvent(content + ChunkText(init), last);
        content + ChunkText(init) + last.text;
        content + ChunkText(events);
      }
    }
  }

  /** After a complete stream the in-flight turn holds the concatenation of
      all chunks; after an error it holds the error marker and the message
      (the chunks before it are overwritten). */
  lemma StreamOutcome(content: string, events: seq<Event>)
    requires WellFormed(events)
    ensures events[|events| - 1] == Complete ==>
              AfterEvents(content, events) == content + ChunkText(events)
    ensures events[|events| - 1].Error? ==>
              AfterEvents(content, events) == ErrorMarker + events[|events| - 1].msg
  {
    var body := events[..|events| - 1];
    ChunksAccumulate(content, body);
    if events[|events| - 1] == Complete {
      assert ChunkText(events) == ChunkText(body) + [];
    }
  }

  class Chat {
    const llabNumbers: seq<int>
    const quizMode: string
    var messages: seq<Message>
    var input: string
    var isLoading: bool
    var isSending: bool

    /** The transcript is never empty; the two flags move together; while a
        send is outstanding the last turn is the in-flight assistant turn. */
    ghost predicate Valid()
      reads this
    {
      && |messages| >= 1
      && isLoading == isSending
      && (isSending ==> |messages| >= 3 && messages[|messages| - 1].role == Assistant)
    }

    function Last(): Message
      reads this
      requires Valid()
    {
      messages[|messages| - 1]
    }

    /** Mounting the view with its LLAB list: the greeting effect leaves
        exactly one assistant greeting. */
    constructor (llabNumbers: seq<int>, quizMode: string)
      ensures Valid()
      ensures this.llabNumbers == llabNumbers && this.quizMode == quizMode
      ensures messages == [Greeting(llabNumbers)]
      ensures input == [] && !isLoading && !isSending
    {
      this.llabNumbers := llabNumbers;
      this.quizMode := quizMode;
      messages := [Greeting(llabNumbers)];
      input := [];
      isLoading := false;
      isSending := false;
    }

    /** The text box's `onChange`. */
    method SetInput(text: string)
      requires Valid()
      modifies this
      ensures Valid() && input == text
      ensures messages == old(messages) && isLoading == old(isLoading) && isSending == old(isSending)
    {
      input := text;
    }

    /** The part of `handleSend` before the transport call: the guard, the
        user turn and the empty assistant placeholder, the cleared input and
        the raised flags, and the message list that is sent (without the
        greeting and without the placeholder). */
    method BeginSend() returns (request: Option<ChatRequest>)
      requires Valid()
      modifies this
      ensures Valid()
      ensures JsTrim(old(input)) == [] || old(isSending) ==>
                request == None && messages == old(messages) && input == old(input)
                && isLoading == old(isLoading) && isSending == old(isSending)
      ensures JsTrim(old(input)) != [] && !old(isSending) ==>
                && messages == old(messages) + [Message(User, JsTrim(old(input))), Message(Assistant, [])]
                && input == [] && isLoading && isSending
                && request == Some(ChatRequest(messages[1..|messages| - 1], llabNumbers, quizMode))
    {
      if JsTrim(input) == [] || isSending {
        return None;
      }
      var userMessage := Message(User, JsTrim(input));
      var history := messages;
      messages := messages + [userMessage];
      input := [];
      isLoading := true;
      isSending := true;
      messages := messages + [Message(Assistant, [])];
      var conversation := Outgoing(history, userMessage);
      assert messages[1..|messages| - 1] == history[1..] + [userMessage];
      request := Some(ChatRequest(conversation, llabNumbers, quizMode));
    }

    /** `onChunk`: the last turn gets the chunk appended and keeps its role;
        every other turn, the length and the flags stay. */
    method OnChunk(chunk: string)
      requires Valid()
      modifies this
      ensures Valid()
      ensures |messages| == |old(messages)|
      ensures messages[..|messages| - 1] == old(messages)[..|messages| - 1]
      ensures Last() == Message(old(Last()).role, old(Last()).content + chunk)
      ensures input == old(input) && isLoading == old(isLoading) && isSending == old(isSending)
    {
      var lastIndex := |messages| - 1;
      messages := messages[lastIndex := Message(messages[lastIndex].role, messages[lastIndex].content + chunk)];
    }

    /** `onComplete`: the transcript stays; both flags are cleared. */
    method OnComplete()
      requires Valid()
      modifies this
      ensures Valid()
      ensures messages == old(messages) && input == old(input)
      ensures !isLoading && !isSending
    {
      isLoading := false;
      isSending := false;
    }

    /** `onError`: the last turn's content becomes the error marker and the
        message; length, roles and earlier turns stay; both flags are cleared. */
    method OnError(error: string)
      requires Valid()
      modifies this
      ensures Valid()
      ensures |messages| == |old(messages)|
      ensures messages[..|messages| - 1] == old(messages)[..|messages| - 1]
      ensures Last() == Message(old(Last()).role, ErrorMarker + error)
      ensures input == old(input) && !isLoading && !isSending
    {
      var lastIndex := |messages| - 1;
      messages := messages[lastIndex := Message(messages[lastIndex].role, ErrorMarker + error)];
      isLoading := false;
      isSending := false;
    }

    /** The `catch` around the transport call: both flags are cleared. */
    method OnSendThrew()
      requires Valid()
      modifies this
      ensures Valid()
      ensures messages == old(messages) && input == old(input)
      ensures !isLoading && !isSending
    {
      isLoading := false;
      isSending := false;
    }

    /** The callbacks the transport invokes, applied one after the other. */
    method Receive(events: seq<Event>)
      requires Valid()
      modifies this
      ensures Valid()
      ensures |messages| == |old(messages)|
      ensures messages[..|messages| - 1] == old(messages)[..|messages| - 1]
      ensures Last() == Message(old(Last()).role, AfterEvents(old(Last()).content, events))
      ensures input == old(input)
      ensures isSending == (old(isSending) && forall i :: 0 <= i < |events| ==> events[i].Chunk?)
    {
      var k := 0;
      while k < |events|
        invariant 0 <= k <= |events|
        invariant Valid()
        invariant |messages| == |old(messages)|
        invariant messages[..|messages| - 1] == old(messages)[..|messages| - 1]
        invariant Last() == Message(old(Last()).role, AfterEvents(old(Last()).content, events[..k]))
        invariant input == old(input)
        invariant isSending == (old(isSending) && forall i :: 0 <= i < k ==> events[i].Chunk?)
      {
        assert events[..k + 1][..k] == events[..k];
        match events[k] {
          case Chunk(text) => OnChunk(text);
          case Complete => OnComplete();
          case Error(msg) => OnError(msg);
        }
        k := k + 1;
      }
      assert events[..k] == events;
    }

    /** `handleSend`: a blank input or an outstanding send changes nothing and
        never reaches the transport. Otherwise the user turn and the assistant
        turn are appended, the request goes out, and the transport's callbacks
        fill the assistant turn; since every transport run ends in exactly one
        `Complete` or `Error`, both flags are clear afterwards. */
    method HandleSend(env: TurnstileEnv, response: Response, parse: string -> Payload)
      returns (request: Option<ChatRequest>, events: seq<Event>)
      requires Valid()
      modifies this
      ensures Valid()
      ensures JsTrim(old(input)) == [] || old(isSending) ==>
                request == None && events == [] && messages == old(messages) && input == old(input)
                && isLoading == old(isLoading) && isSending == old(isSending)
      ensures JsTrim(old(input)) != [] && !old(isSending) ==>
                && events == (match OpenStream(env, response)
                              case Err(msg) => [Error(msg)]
                              case Ok(body) => StreamEvents(Concat(body.chunks), body.end, parse))
                && messages == old(messages) + [Message(User, JsTrim(old(input))),
                                                Message(Assistant, AfterEvents([], events))]
                && request == Some(ChatRequest(old(messages)[1..] + [Message(User, JsTrim(old(input)))],
                                               llabNumbers, quizMode))
                && input == [] && !isLoading && !isSending
    {
      events := [];
      request := BeginSend();
      if request.None? {
        return;
      }
      ghost var sent := messages;
      assert sent[1..|sent| - 1] == old(messages)[1..] + [Message(User, JsTrim(old(input)))];
      events := SendChatMessage(env, response, parse);
      Receive(events);
      assert !events[|events| - 1].Chunk?;
      assert messages == sent[..|sent| - 1] + [Last()];
    }
  }
}
