/** The request-level decisions of backend/app.py: which client a request is
    counted against, whether its Turnstile credential passes, and what
    `/chat` answers to a request before any streaming starts. */
module RequestChecks {
  import opened Text
  import opened Results

  const Unknown: string := "unknown"

  /** `get_client_ip()`: the first comma-separated entry of a non-empty
      `X-Forwarded-For` header, stripped of whitespace; otherwise the peer
      address, or "unknown" when there is none. */
  function GetClientIp(forwardedFor: Option<string>, remoteAddr: Option<string>): (ip: string)
    ensures forwardedFor.Some? && forwardedFor.value != [] ==>
              && ',' !in ip
              && (ip == [] || (!IsPySpace(ip[0]) && !IsPySpace(ip[|ip| - 1])))
    ensures forwardedFor.None? || forwardedFor.value == [] ==>
              ip == (if remoteAddr.Some? && remoteAddr.value != [] then remoteAddr.value else Unknown)
    ensures ip == [] ==> forwardedFor.Some? && forwardedFor.value != []
  {
    if forwardedFor.Some? && forwardedFor.value != [] then
      var first := Split(forwardedFor.value, ',')[0];
      TrimSpec(first, IsPySpace);
      PyStrip(first)
    else if remoteAddr.Some? && remoteAddr.value != [] then remoteAddr.value
    else Unknown
  }

  /** Only the first hop counts: whatever follows the first comma of the
      header is ignored. */
  lemma ClientIpFirstHop(first: string, rest: string, remoteAddr: Option<string>)
    requires ',' !in first
    ensures GetClientIp(Some(first + [','] + rest), remoteAddr) == PyStrip(first)
  {
    SplitCons(first, ',', rest);
  }

  /** A header with a single entry gives that entry, stripped. */
  lemma ClientIpSingleHop(address: string, remoteAddr: Option<string>)
    requires address != [] && ',' !in address
    ensures GetClientIp(Some(address), remoteAddr) == PyStrip(address)
  {
    SplitFree(address, ',');
  }

  const TestSecret: string := "test-secret"

  /** `verify_turnstile_token(token)` under the secret `secret`. The call to
      the verification service is `siteverify(secret, token)`: true when the
      service answered with a truthy `success`, false when it answered
      otherwise or the call raised. */
  function VerifyTurnstileToken(secret: string, token: Option<string>,
                                siteverify: (string, Option<string>) -> bool): (ok: bool)
    ensures !ok ==> secret != [] && secret != TestSecret && !siteverify(secret, token)
    ensures ok ==> secret == [] || secret == TestSecret || siteverify(secret, token)
  {
    if secret == [] || secret == TestSecret then true else siteverify(secret, token)
  }

  /** With no secret, or the test secret, every token passes and the service
      is never consulted: the answer is the same whatever the service would
      say. With any other secret, the service's answer decides. */
  lemma TurnstileSkip(secret: string, token: Option<string>, other: Option<string>,
                      siteverify: (string, Option<string>) -> bool,
                      otherService: (string, Option<string>) -> bool)
    ensures secret == [] || secret == TestSecret ==>
              && VerifyTurnstileToken(secret, token, siteverify)
              && VerifyTurnstileToken(secret, token, siteverify)
                 == VerifyTurnstileToken(secret, other, otherService)
    ensures secret != [] && secret != TestSecret ==>
              VerifyTurnstileToken(secret, token, siteverify) == siteverify(secret, token)
  {
  }

  /** A turn as the client sends it; a `role` that is absent or null is `None`. */
  datatype WireMessage = WireMessage(role: Option<string>, content: string)

  /** What `request.get_json()` returned, seen through the keys the endpoints
      read: nothing, a JSON value that is not an object (and whether Python
      takes it for true), or an object with `size` keys. Absent keys read as
      the defaults: no messages, no LLABs, mode "mixed", no token (""). A JSON
      null for `messages`, `llab_numbers` or `turnstile_token` reads like its
      default, since the route only tests its truth value; `quizMode` is the
      value the route hands on to the prompt builder. */
  datatype RequestJson =
    | NoJson
    | NonObject(truthy: bool)
    | Object(size: nat, messages: seq<WireMessage>, llabNumbers: seq<int>,
             quizMode: string, turnstileToken: string)

  /** Python's truth value of the parsed body: `not data` is its negation. */
  predicate Truthy(body: RequestJson) {
    match body
    case NoJson => false
    case NonObject(truthy) => truthy
    case Object(size, _, _, _, _) => size > 0
  }

  const ServerConfigurationError: string := "Server configuration error"
  const InternalServerError: string := "Internal server error"
  const NoJsonData: string := "No JSON data provided"
  const MessagesRequired: string := "Messages array is required"
  const LlabRequired: string := "At least one LLAB must be selected"
  const InvalidToken: string := "Invalid Turnstile token"

  /** `str(e)` for werkzeug's `BadRequest(description)` and
      `Unauthorized(description)`: the code, the name, then the description. */
  function BadRequestText(description: string): string {
    "400 Bad Request: " + description
  }

  function UnauthorizedText(description: string): string {
    "401 Unauthorized: " + description
  }

  /** The credential `/chat` checks: the body's `turnstile_token` when it is
      a non-empty string, otherwise the `X-Turnstile-Token` header. */
  function ChatToken(body: RequestJson, headerToken: Option<string>): (token: Option<string>)
    requires body.Object?
    ensures body.turnstileToken != [] ==> token == Some(body.turnstileToken)
    ensures token != headerToken ==> token == Some(body.turnstileToken) && body.turnstileToken != []
  {
    if body.turnstileToken != [] then Some(body.turnstileToken) else headerToken
  }

  function SystemTurn(prompt: string): WireMessage {
    WireMessage(Some("system"), prompt)
  }

  /** The conversation forwarded to the provider starts with a system turn:
      the prompt is put in front unless the first turn already has the role
      "system". Nothing of the client's conversation is dropped or reordered. */
  function WithSystemPrompt(messages: seq<WireMessage>, prompt: string): (forwarded: seq<WireMessage>)
    ensures |forwarded| >= 1 && forwarded[0].role == Some("system")
    ensures |forwarded| == |messages| || |forwarded| == |messages| + 1
    ensures forwarded[|forwarded| - |messages|..] == messages
    ensures |forwarded| == |messages| + 1 <==> messages == [] || messages[0].role != Some("system")
    ensures |forwarded| == |messages| + 1 ==> forwarded[0] == SystemTurn(prompt)
  {
    if messages == [] || messages[0].role != Some("system") then [SystemTurn(prompt)] + messages
    else messages
  }

  /** Prepending is idempotent: a conversation that already went through it
      is left alone, whatever prompt is offered the second time. */
  lemma SystemPromptOnce(messages: seq<WireMessage>, prompt: string, other: string)
    ensures WithSystemPrompt(WithSystemPrompt(messages, prompt), other) == WithSystemPrompt(messages, prompt)
  {
    var once := WithSystemPrompt(messages, prompt);
    assert once[0].role == Some("system");
  }

  /** What `/chat` does with a request the rate limiter let through: refuse it
      with a status and an error text, or accept it with the conversation to
      forward. */
  datatype ChatOutcome =
    | Refuse(status: int, error: string)
    | Accept(messages: seq<WireMessage>, llabNumbers: seq<int>, quizMode: string)

  predicate ApiKeySet(apiKey: Option<string>) {
    apiKey.Some? && apiKey.value != []
  }

  /** The body of `/chat` up to the start of streaming. `systemPrompt` stands
      for `build_system_prompt`. */
  function ChatDecision(apiKey: Option<string>, body: RequestJson, headerToken: Option<string>,
                        secret: string, siteverify: (string, Option<string>) -> bool,
                        systemPrompt: (seq<int>, string) -> string): (r: ChatOutcome)
    ensures r.Accept? <==>
              && ApiKeySet(apiKey) && body.Object? && body.size > 0
              && body.messages != [] && body.llabNumbers != []
              && VerifyTurnstileToken(secret, ChatToken(body, headerToken), siteverify)
    ensures r.Accept? ==>
              && r.messages == WithSystemPrompt(body.messages, systemPrompt(body.llabNumbers, body.quizMode))
              && r.llabNumbers == body.llabNumbers && r.quizMode == body.quizMode
    ensures r.Refuse? ==> r.status == 400 || r.status == 401 || r.status == 500
  {
    if !ApiKeySet(apiKey) then Refuse(500, ServerConfigurationError)
    else if !Truthy(body) then Refuse(400, BadRequestText(NoJsonData))
    else if body.NonObject? then Refuse(500, InternalServerError)
    else if body.messages == [] then Refuse(400, BadRequestText(MessagesRequired))
    else if body.llabNumbers == [] then Refuse(400, BadRequestText(LlabRequired))
    else if !VerifyTurnstileToken(secret, ChatToken(body, headerToken), siteverify) then
      Refuse(401, UnauthorizedText(InvalidToken))
    else Accept(WithSystemPrompt(body.messages, systemPrompt(body.llabNumbers, body.quizMode)),
                body.llabNumbers, body.quizMode)
  }

  /** The checks run in a fixed order and the first that fails decides:
      configuration (500), no JSON (400), a body that is not an object (500),
      no messages (400), no LLABs (400), the credential (401). */
  lemma ChatRefusals(apiKey: Option<string>, body: RequestJson, headerToken: Option<string>,
                     secret: string, siteverify: (string, Option<string>) -> bool,
                     systemPrompt: (seq<int>, string) -> string)
    ensures !ApiKeySet(apiKey) ==>
              ChatDecision(apiKey, body, headerToken, secret, siteverify, systemPrompt)
              == Refuse(500, ServerConfigurationError)
    ensures ApiKeySet(apiKey) && !Truthy(body) ==>
              ChatDecision(apiKey, body, headerToken, secret, siteverify, systemPrompt)
              == Refuse(400, BadRequestText(NoJsonData))
    ensures ApiKeySet(apiKey) && Truthy(body) && body.NonObject? ==>
              ChatDecision(apiKey, body, headerToken, secret, siteverify, systemPrompt)
              == Refuse(500, InternalServerError)
    ensures ApiKeySet(apiKey) && Truthy(body) && body.Object? && body.messages == [] ==>
              ChatDecision(apiKey, body, headerToken, secret, siteverify, systemPrompt)
              == Refuse(400, BadRequestText(MessagesRequired))
    ensures ApiKeySet(apiKey) && Truthy(body) && body.Object? && body.messages != [] && body.llabNumbers == [] ==>
              ChatDecision(apiKey, body, headerToken, secret, siteverify, systemPrompt)
              == Refuse(400, BadRequestText(LlabRequired))
    ensures && ApiKeySet(apiKey) && Truthy(body) && body.Object? && body.messages != [] && body.llabNumbers != []
            && !VerifyTurnstileToken(secret, ChatToken(body, headerToken), siteverify) ==>
              ChatDecision(apiKey, body, headerToken, secret, siteverify, systemPrompt)
              == Refuse(401, UnauthorizedText(InvalidToken))
    ensures ChatDecision(apiKey, body, headerToken, secret, siteverify, systemPrompt).Refuse?
            && ChatDecision(apiKey, body, headerToken, secret, siteverify, systemPrompt).status == 401 ==>
              ChatDecision(apiKey, body, headerToken, secret, siteverify, systemPrompt).error
              == UnauthorizedText(InvalidToken)
  {
  }

  /** The credential is checked last: a request refused by an earlier check
      gets the same answer whatever the verification service would say, so
      the service is not consulted for it. */
  lemma CredentialCheckedLast(apiKey: Option<string>, body: RequestJson, headerToken: Option<string>,
                              secret: string, siteverify: (string, Option<string>) -> bool,
                              otherService: (string, Option<string>) -> bool,
                              systemPrompt: (seq<int>, string) -> string)
    requires ChatDecision(apiKey, body, headerToken, secret, siteverify, systemPrompt).Refuse?
    requires ChatDecision(apiKey, body, headerToken, secret, siteverify, systemPrompt).status != 401
    ensures ChatDecision(apiKey, body, headerToken, secret, otherService, systemPrompt)
         == ChatDecision(apiKey, body, headerToken, secret, siteverify, systemPrompt)
  {
  }
}
