/**
 * The older JavaScript demo-request endpoint: a straight chain of guards
 * (method, email, API key, upstream result), each answering with its own
 * status, plus the defaults it fills in for `source`, `trackingData` and the
 * sender address.
 */
module LegacyDemoRequest {
  import opened Wrappers
  import opened JsStrings

  /**
   * A destructured property: `undefined`, `null`, or a value. A destructuring
   * default (`{ source = 'website' }`) replaces only `undefined`.
   */
  datatype Slot<T> = Undefined | Null | Present(value: T)

  function WithDefault<T>(slot: Slot<T>, default: T): (r: Slot<T>)
    ensures !r.Undefined?
    ensures slot.Undefined? ==> r == Present(default)
    ensures !slot.Undefined? ==> r == slot
  {
    if slot.Undefined? then Present(default) else slot
  }

  datatype Body = Body(email: EmailValue, source: Slot<string>, trackingData: Slot<map<string, string>>)

  /** A request: its HTTP method and its parsed body (absent: `undefined` or `null`, which cannot be destructured). */
  datatype Request = Request(verb: string, body: Option<Body>)

  /** The two environment variables the handler reads. */
  datatype Env = Env(apiKey: JsString, fromEmail: JsString)

  /** How the call to the email provider ended: an ok response, a non-ok response, or a thrown error. */
  datatype Upstream = UpstreamOk | UpstreamNotOk | UpstreamThrew

  /** The message handed to the email provider. */
  datatype Mail = Mail(sender: string, recipient: string, subject: string)

  /** The success log line's fields (written only after an ok upstream response). */
  datatype LogEntry = LogEntry(email: string, source: Slot<string>, tracking: Slot<map<string, string>>)

  datatype Reply =
    | ErrorReply(error: string, message: string)
    | SuccessReply(message: string, email: string)

  datatype Response = Response(status: int, reply: Reply)

  /** What one request produces: the response, the mail attempted (if any), and the success log (if any). */
  datatype Outcome = Outcome(response: Response, mail: Option<Mail>, log: Option<LogEntry>)

  const DEFAULT_SENDER: string := "onboarding@elystra.online"
  const SUBJECT: string := "Welcome to Elystra - Your Demo Video + Account Setup"
  const INTERNAL_ERROR: Reply := ErrorReply("Internal server error", "Please try again later or contact support")

  /** The sender address: `SENDGRID_FROM_EMAIL || 'onboarding@elystra.online'`. */
  function Sender(env: Env): (sender: string)
    ensures sender != ""
    ensures Truthy(env.fromEmail) ==> sender == env.fromEmail.value
    ensures !Truthy(env.fromEmail) ==> sender == DEFAULT_SENDER
  {
    FirstTruthy([env.fromEmail], DEFAULT_SENDER)
  }

  /** The handler on values. */
  function Handle(req: Request, env: Env, upstream: Upstream): (out: Outcome)
    ensures out.response.status in {200, 400, 405, 500}
    ensures out.response.status == 200 <==> out.log.Some?
    ensures out.response.status == 200 <==> out.response.reply.SuccessReply?
    ensures out.log.Some? ==> out.mail.Some?
    ensures out.mail.Some? ==> out.mail.value.subject == SUBJECT && '@' in out.mail.value.recipient
  {
    if req.verb != "POST" then
      Outcome(Response(405, ErrorReply("Method not allowed", "Only POST requests are supported")), None, None)
    else if req.body.None? then
      Outcome(Response(500, INTERNAL_ERROR), None, None)
    else
      var body := req.body.value;
      match CheckEmailField(body.email)
      case Rejected =>
        Outcome(Response(400, ErrorReply("Invalid email", "Please provide a valid email address")), None, None)
      case Throws =>
        Outcome(Response(500, INTERNAL_ERROR), None, None)
      case Passes =>
        if !Truthy(env.apiKey) then
          Outcome(Response(500, ErrorReply("Email service unavailable", "Please try again later or contact support")), None, None)
        else
          var email := body.email.value;
          var mail := Mail(Sender(env), email, SUBJECT);
          match upstream
          case UpstreamNotOk =>
            Outcome(Response(500, ErrorReply("Email delivery failed", "Please try again or contact support")), Some(mail), None)
          case UpstreamThrew =>
            Outcome(Response(500, INTERNAL_ERROR), Some(mail), None)
          case UpstreamOk =>
            var log := LogEntry(email, WithDefault(body.source, "website"), WithDefault(body.trackingData, map[]));
            Outcome(Response(200, SuccessReply("Demo video and setup instructions sent successfully", email)), Some(mail), Some(log))
  }

  /** Every method but POST, including a preflight OPTIONS, is answered 405 whatever the body, and nothing is sent. */
  lemma NonPostRejected(req: Request, env: Env, upstream: Upstream)
    requires req.verb != "POST"
    ensures Handle(req, env, upstream).response.status == 405
    ensures Handle(req, env, upstream).mail == None
  {
  }

  /**
   * The email is checked before the API key: a missing email, or one without
   * `@`, is answered 400 whatever the environment and the provider do.
   */
  lemma EmailCheckedBeforeApiKey(req: Request, env: Env, env': Env, upstream: Upstream, upstream': Upstream)
    requires req.verb == "POST" && req.body.Some?
    requires CheckEmailField(req.body.value.email) == Rejected
    ensures Handle(req, env, upstream).response.status == 400
    ensures Handle(req, env, upstream) == Handle(req, env', upstream')
  {
  }

  /** "Email service unavailable" is answered exactly when the email is valid and the API key is missing or empty. */
  lemma MissingApiKeyOnlyForValidEmail(req: Request, env: Env, upstream: Upstream)
    ensures Handle(req, env, upstream).response.reply.ErrorReply? &&
            Handle(req, env, upstream).response.reply.error == "Email service unavailable"
            <==>
            req.verb == "POST" && req.body.Some? &&
            CheckEmailField(req.body.value.email) == Passes && !Truthy(env.apiKey)
    ensures Handle(req, env, upstream).response.reply == ErrorReply("Email service unavailable", "Please try again later or contact support") ==>
              Handle(req, env, upstream).response.status == 500 && Handle(req, env, upstream).mail == None
  {
  }

  /** Any mail handed to the provider goes from the configured sender, or from the default one when none is set. */
  lemma SenderDefault(req: Request, env: Env, upstream: Upstream)
    ensures var out := Handle(req, env, upstream);
            out.mail.Some? ==>
              && out.mail.value.sender == (if Truthy(env.fromEmail) then env.fromEmail.value else DEFAULT_SENDER)
              && out.mail.value.recipient == req.body.value.email.value
              && '@' in out.mail.value.recipient
  {
  }

  /** An undefined `source` is logged as `website` and an undefined `trackingData` as `{}`; any other value, even `""` or `null`, is kept. */
  lemma LoggedDefaults(req: Request, env: Env, upstream: Upstream)
    ensures var out := Handle(req, env, upstream);
            out.log.Some? ==>
              && (req.body.value.source.Undefined? ==> out.log.value.source == Present("website"))
              && (!req.body.value.source.Undefined? ==> out.log.value.source == req.body.value.source)
              && (req.body.value.trackingData.Undefined? ==> out.log.value.tracking == Present(map[]))
              && (!req.body.value.trackingData.Undefined? ==> out.log.value.tracking == req.body.value.trackingData)
  {
  }

  /**
   * With a valid email and a key, the provider's answer decides: an ok
   * response gives 200 echoing the email, a non-ok one 500 "Email delivery
   * failed", and a thrown `fetch` the catch's 500 "Internal server error".
   */
  lemma UpstreamDecides(req: Request, env: Env, upstream: Upstream)
    requires req.verb == "POST" && req.body.Some?
    requires CheckEmailField(req.body.value.email) == Passes && Truthy(env.apiKey)
    ensures var out := Handle(req, env, upstream);
            && out.mail.Some?
            && (out.response.status == 200 <==> upstream == UpstreamOk)
            && (upstream == UpstreamOk ==> out.response.reply == SuccessReply("Demo video and setup instructions sent successfully", req.body.value.email.value))
            && (upstream == UpstreamNotOk ==> out.response == Response(500, ErrorReply("Email delivery failed", "Please try again or contact support")))
            && (upstream == UpstreamThrew ==> out.response == Response(500, INTERNAL_ERROR))
  {
  }

  /** A 200 means a POST whose email passed the check, with a key set, and an ok provider response. */
  lemma SuccessOnlyAfterEveryGuard(req: Request, env: Env, upstream: Upstream)
    requires Handle(req, env, upstream).response.status == 200
    ensures req.verb == "POST" && req.body.Some?
    ensures req.body.value.email.Text? && '@' in req.body.value.email.value
    ensures Truthy(env.apiKey) && upstream == UpstreamOk
  {
  }
}
