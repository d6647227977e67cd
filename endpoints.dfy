/** The two routes of backend/app.py that the frontend calls, behind the
    `rate_limit_required` decorator, over the module-level state: the
    configuration read from the environment and the rate-limit store. */
module Endpoints {
  import opened Results
  import opened RateLimit
  import opened RequestChecks
  import opened Relay
  import opened StaticQuestions

  /** The environment the server was started with: `GROQ_API_KEY` (absent
      as `None`) and `TURNSTILE_SECRET` (absent as ""). */
  datatype Config = Config(apiKey: Option<string>, turnstileSecret: string)

  /** What a route sees of a request: the `X-Forwarded-For` and
      `X-Turnstile-Token` headers, the peer address and the parsed body. */
  datatype Request = Request(forwardedFor: Option<string>, remoteAddr: Option<string>,
                             turnstileHeader: Option<string>, body: RequestJson)

  /** A route's answer: the decorator's `TooManyRequests` (status 429, raised
      before the view runs, with its description), or what the view returned. */
  datatype Reply<T> = TooManyRequests(description: string) | Handled(value: T)

  const TooManyRequestsDescription: string := "Too many requests. Please try again later."

  /** What `/chat` returns: a JSON error with its status, or the event
      stream (`text/event-stream`) with the conversation that was forwarded. */
  datatype ChatReply =
    | Refused(status: int, error: string)
    | EventStream(forwarded: seq<WireMessage>, frames: seq<string>)

  /** The admission decision and the IP's new list for a request at `now`. */
  function Admission(limiter: RateLimiter, request: Request, now: int): (bool, seq<int>)
    reads limiter
  {
    var ip := GetClientIp(request.forwardedFor, request.remoteAddr);
    Admit(limiter.Entries(ip), now, limiter.limit, limiter.window)
  }

  class Server {
    const config: Config
    const limiter: RateLimiter

    ghost predicate Valid()
      reads this, limiter
    {
      limiter.Valid()
    }

    /** Start-up: the configuration, and an empty rate-limit store with the
        configured limit and window. */
    constructor (config: Config, limit: int, window: int)
      ensures Valid() && fresh(limiter)
      ensures this.config == config
      ensures limiter.limit == limit && limiter.window == window && limiter.store == map[]
    {
      this.config := config;
      limiter := new RateLimiter(limit, window);
    }

    /** The decorator: the request counts against its client's address
        whether or not the view then refuses it. */
    method RateLimited(request: Request, now: int) returns (allowed: bool)
      requires Valid()
      modifies limiter
      ensures Valid() && GetClientIp(request.forwardedFor, request.remoteAddr) in limiter.store
      ensures (allowed, limiter.store[GetClientIp(request.forwardedFor, request.remoteAddr)])
              == old(Admission(limiter, request, now))
      ensures limiter.store
              == old(limiter.store)[GetClientIp(request.forwardedFor, request.remoteAddr)
                                    := old(Admission(limiter, request, now)).1]
    {
      var ip := GetClientIp(request.forwardedFor, request.remoteAddr);
      allowed := limiter.CheckRateLimit(ip, now);
    }

    /** `POST /chat` at time `now`. `siteverify` is the Turnstile service,
        `systemPrompt` stands for `build_system_prompt`, and `upstream` is
        how the provider answers the forwarded conversation. */
    method Chat(request: Request, now: int, siteverify: (string, Option<string>) -> bool,
                systemPrompt: (seq<int>, string) -> string, upstream: Upstream)
      returns (reply: Reply<ChatReply>)
      requires Valid()
      modifies limiter
      ensures Valid()
      ensures limiter.store
              == old(limiter.store)[GetClientIp(request.forwardedFor, request.remoteAddr)
                                    := old(Admission(limiter, request, now)).1]
      ensures !old(Admission(limiter, request, now)).0 ==> reply == TooManyRequests(TooManyRequestsDescription)
      ensures old(Admission(limiter, request, now)).0 ==>
                reply == Handled(
                  match ChatDecision(config.apiKey, request.body, request.turnstileHeader,
                                     config.turnstileSecret, siteverify, systemPrompt)
                  case Refuse(status, error) => Refused(status, error)
                  case Accept(forwarded, _, _) => EventStream(forwarded, FramesOf(GeneratedLines(upstream))))
    {
      var allowed := RateLimited(request, now);
      if !allowed {
        return TooManyRequests(TooManyRequestsDescription);
      }
      var outcome := ChatDecision(config.apiKey, request.body, request.turnstileHeader,
                                  config.turnstileSecret, siteverify, systemPrompt);
      match outcome {
        case Refuse(status, error) =>
          reply := Handled(Refused(status, error));
        case Accept(forwarded, _, _) =>
          var frames := Generate(upstream);
          reply := Handled(EventStream(forwarded, frames));
      }
    }

    /** `POST /static-question` at time `now`; the two files as the loader
        finds them, and `pick` standing for `random.choice`. */
    method StaticQuestionRoute(request: Request, now: int, aircraftFile: Option<seq<Section>>,
                               rankFile: Option<RankFile>, pick: nat)
      returns (reply: Reply<StaticReply>)
      requires Valid()
      modifies limiter
      ensures Valid()
      ensures limiter.store
              == old(limiter.store)[GetClientIp(request.forwardedFor, request.remoteAddr)
                                    := old(Admission(limiter, request, now)).1]
      ensures reply.TooManyRequests? <==> !old(Admission(limiter, request, now)).0
      ensures reply.TooManyRequests? ==> reply.description == TooManyRequestsDescription
      ensures reply.Handled? ==> Answers(request.body, aircraftFile, rankFile, reply.value)
    {
      var allowed := RateLimited(request, now);
      if !allowed {
        return TooManyRequests(TooManyRequestsDescription);
      }
      var answer := StaticQuestion(request.body, aircraftFile, rankFile, pick);
      reply := Handled(answer);
    }
  }
}
