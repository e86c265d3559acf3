/**
 * The TypeScript demo-request endpoint: the order in which the handler picks
 * its response (preflight, method, rate limit, email check, delivery result)
 * and the subject line of the generated email.
 */
module DemoRequestApi {
  import opened Wrappers
  import opened JsStrings
  import RateLimit

  /** The parts of a request body the handler reads. */
  datatype Body = Body(email: EmailValue, source: JsString)

  /** A request: its HTTP method (`verb`), its `x-forwarded-for` header, and its parsed body (absent: `undefined`). */
  datatype Request = Request(verb: string, forwardedFor: JsString, body: Option<Body>)

  /** What the email sender reported: its message id, or its error text. */
  datatype SendResult = Delivered(messageId: string) | NotDelivered(error: string)

  /** The JSON written with the status: none (preflight), an error text, or a success with the message id. */
  datatype Reply = NoContent | Refused(error: string) | Accepted(messageId: string)

  datatype Response = Response(status: int, reply: Reply)

  /** The response together with the rate limiter's map after the request. */
  datatype Outcome = Outcome(response: Response, records: map<string, RateLimit.Record>)

  const COLD_CALL_SUBJECT: string := "Your Elystra Free Trial is Ready (2 minutes)"
  const DEFAULT_SUBJECT: string := "Thank You for Trusting Elystra - Your Free Trial Awaits"

  /** The subject chosen by `generateDemoEmail` for a request with this `source`. */
  function Subject(source: JsString): (subject: string)
    ensures subject == COLD_CALL_SUBJECT || subject == DEFAULT_SUBJECT
  {
    if source == Some("cold_call") then COLD_CALL_SUBJECT else DEFAULT_SUBJECT
  }

  /** The subject depends only on whether the source is exactly `cold_call`, and the two subjects differ. */
  lemma SubjectChoice(source: JsString)
    ensures Subject(source) == COLD_CALL_SUBJECT <==> source == Some("cold_call")
    ensures Subject(source) == DEFAULT_SUBJECT <==> source != Some("cold_call")
  {
  }

  /** The rate-limit key: the `x-forwarded-for` header, or `unknown` when it is absent or empty. */
  function ClientIp(req: Request): (ip: string)
    ensures ip != ""
    ensures Truthy(req.forwardedFor) ==> ip == req.forwardedFor.value
    ensures !Truthy(req.forwardedFor) ==> ip == "unknown"
  {
    FirstTruthy([req.forwardedFor], "unknown")
  }

  /** Whether the handler gets as far as consulting the rate limiter. */
  predicate ReachesRateLimit(req: Request) {
    req.verb == "POST" && req.body.Some?
  }

  /**
   * The handler on values: the response it writes and the limiter map it
   * leaves, given the limiter map before, the clock reading and the
   * sender's result. A missing body makes the request log throw inside the
   * `try`, which answers 500 before the limiter is consulted.
   */
  function Handle(records: map<string, RateLimit.Record>, req: Request, now: int, send: SendResult): (out: Outcome)
    ensures out.response.status in {200, 400, 405, 429, 500}
    ensures out.response.reply == NoContent <==> req.verb == "OPTIONS"
    ensures out.response.reply.Accepted? <==> out.response.status == 200 && req.verb != "OPTIONS"
    ensures out.records == records || out.records == RateLimit.Step(records, ClientIp(req), now).records
  {
    if req.verb == "OPTIONS" then
      Outcome(Response(200, NoContent), records)
    else if req.verb != "POST" then
      Outcome(Response(405, Refused("Method not allowed")), records)
    else if req.body.None? then
      Outcome(Response(500, Refused("Internal server error")), records)
    else
      var v := RateLimit.Step(records, ClientIp(req), now);
      if !v.allowed then
        Outcome(Response(429, Refused("Rate limit exceeded")), v.records)
      else
        match CheckEmailField(req.body.value.email)
        case Rejected => Outcome(Response(400, Refused("Valid email required")), v.records)
        case Throws => Outcome(Response(500, Refused("Internal server error")), v.records)
        case Passes =>
          match send
          case Delivered(id) => Outcome(Response(200, Accepted(id)), v.records)
          case NotDelivered(e) => Outcome(Response(500, Refused(e)), v.records)
  }

  /** A preflight request is answered 200 before anything else, and spends no quota. */
  lemma PreflightFirst(records: map<string, RateLimit.Record>, req: Request, now: int, send: SendResult)
    requires req.verb == "OPTIONS"
    ensures Handle(records, req, now, send) == Outcome(Response(200, NoContent), records)
  {
  }

  /** Any other method but POST is answered 405, whatever the body, and spends no quota. */
  lemma OtherMethodsRejected(records: map<string, RateLimit.Record>, req: Request, now: int, send: SendResult)
    requires req.verb != "OPTIONS" && req.verb != "POST"
    ensures Handle(records, req, now, send).response.status == 405
    ensures Handle(records, req, now, send).records == records
  {
  }

  /** The rate limit is checked before the email: a refused check answers 429 whatever the email is. */
  lemma RateLimitBeforeValidation(records: map<string, RateLimit.Record>, req: Request, now: int, send: SendResult)
    requires ReachesRateLimit(req)
    requires !RateLimit.Step(records, ClientIp(req), now).allowed
    ensures Handle(records, req, now, send).response == Response(429, Refused("Rate limit exceeded"))
  {
  }

  /**
   * Every POST with a body spends quota exactly as one limiter call does,
   * so a malformed email still counts against the client's window.
   */
  lemma EveryPostSpendsQuota(records: map<string, RateLimit.Record>, req: Request, now: int, send: SendResult)
    requires ReachesRateLimit(req)
    ensures Handle(records, req, now, send).records == RateLimit.Step(records, ClientIp(req), now).records
  {
  }

  /** Within the limit, an email that is missing or has no `@` is answered 400. */
  lemma InvalidEmailRejected(records: map<string, RateLimit.Record>, req: Request, now: int, send: SendResult)
    requires ReachesRateLimit(req)
    requires RateLimit.Step(records, ClientIp(req), now).allowed
    requires req.body.value.email == Missing || (req.body.value.email.Text? && '@' !in req.body.value.email.value)
    ensures Handle(records, req, now, send).response == Response(400, Refused("Valid email required"))
  {
  }

  /** Past every check, the answer is 200 exactly when the email was delivered, and 500 otherwise. */
  lemma DeliveryDecides(records: map<string, RateLimit.Record>, req: Request, now: int, send: SendResult)
    requires ReachesRateLimit(req)
    requires RateLimit.Step(records, ClientIp(req), now).allowed
    requires req.body.value.email.Text? && '@' in req.body.value.email.value
    ensures Handle(records, req, now, send).response.status == 200 <==> send.Delivered?
    ensures Handle(records, req, now, send).response.status == 500 <==> send.NotDelivered?
  {
  }

  /** A 200 answer to a POST means the email passed the `@` check and the sender delivered it. */
  lemma SuccessOnlyAfterEveryCheck(records: map<string, RateLimit.Record>, req: Request, now: int, send: SendResult)
    requires req.verb != "OPTIONS"
    requires Handle(records, req, now, send).response.status == 200
    ensures ReachesRateLimit(req)
    ensures RateLimit.Step(records, ClientIp(req), now).allowed
    ensures req.body.value.email.Text? && '@' in req.body.value.email.value
    ensures send.Delivered?
  {
  }

  /** The handler, writing its response and updating the shared limiter as it goes. */
  method HandleRequest(limiter: RateLimit.Limiter, req: Request, now: int, send: SendResult) returns (resp: Response)
    requires limiter.Valid()
    modifies limiter
    ensures limiter.Valid()
    ensures Outcome(resp, limiter.records) == Handle(old(limiter.records), req, now, send)
  {
    if req.verb == "OPTIONS" {
      return Response(200, NoContent);
    }
    if req.verb != "POST" {
      return Response(405, Refused("Method not allowed"));
    }
    if req.body.None? {
      return Response(500, Refused("Internal server error"));
    }
    var body := req.body.value;
    var allowed := limiter.CheckRateLimit(ClientIp(req), now);
    if !allowed {
      return Response(429, Refused("Rate limit exceeded"));
    }
    var check := CheckEmailField(body.email);
    if check == Rejected {
      return Response(400, Refused("Valid email required"));
    }
    if check == Throws {
      return Response(500, Refused("Internal server error"));
    }
    match send {
      case Delivered(id) => resp := Response(200, Accepted(id));
      case NotDelivered(e) => resp := Response(500, Refused(e));
    }
  }
}
