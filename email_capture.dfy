/**
 * The "Get started" email form: the client-side email shape check, the
 * tracking fields read from the page's query string with their `||`
 * fallbacks, the `source` sent to the API, and the email domain reported to
 * analytics.
 */
module EmailCapture {
  import opened Wrappers
  import opened JsStrings

  /** The characters JavaScript's `\s` matches (ECMAScript WhiteSpace and LineTerminator). */
  predicate IsSpace(c: char) {
    || c == '\t' || c == '\n' || c == '\U{000B}' || c == '\U{000C}' || c == '\r' || c == ' '
    || c == '\U{00A0}' || c == '\U{1680}' || ('\U{2000}' <= c <= '\U{200A}')
    || c == '\U{2028}' || c == '\U{2029}' || c == '\U{202F}' || c == '\U{205F}'
    || c == '\U{3000}' || c == '\U{FEFF}'
  }

  /** One or more characters of the class `[^\s@]`. */
  predicate IsSegment(s: string) {
    |s| > 0 && forall k :: 0 <= k < |s| ==> !IsSpace(s[k]) && s[k] != '@'
  }

  /**
   * `validateEmail`: the test of `^[^\s@]+@[^\s@]+\.[^\s@]+$`, read as its
   * decomposition: some `@` and some later `.` split the whole string into
   * three segments. (This is a shape check, not an RFC 5322 address parser.)
   */
  predicate ValidateEmail(email: string): (valid: bool)
    ensures valid ==> 5 <= |email| && '@' in email && '.' in email
  {
    exists at, dot | 0 <= at < |email| && 0 <= dot < |email| :: SplitsAt(email, at, dot)
  }

  predicate NoWhitespace(s: string) {
    forall k :: 0 <= k < |s| ==> !IsSpace(s[k])
  }

  /** The first index of `c` in `s`. */
  function IndexOf(s: string, c: char): (i: nat)
    requires c in s
    ensures i < |s| && s[i] == c
    ensures forall k :: 0 <= k < i ==> s[k] != c
  {
    if s[0] == c then 0 else 1 + IndexOf(s[1..], c)
  }

  /** A `.` with at least one character before and after it. */
  predicate HasInnerDot(s: string) {
    exists j :: 0 < j < |s| - 1 && s[j] == '.'
  }

  /**
   * The shape the pattern accepts, stated plainly: no whitespace, exactly
   * one `@`, something before it, and after it a `.` with a character on
   * each side.
   */
  predicate PlainShape(email: string) {
    && NoWhitespace(email)
    && '@' in email
    && var at := IndexOf(email, '@');
       && 0 < at
       && '@' !in email[at + 1..]
       && HasInnerDot(email[at + 1..])
  }

  /** The three-segment split the pattern finds, at `@` index `at` and `.` index `dot`. */
  predicate SplitsAt(email: string, at: int, dot: int) {
    0 < at && at + 1 < dot && dot + 1 < |email| &&
    email[at] == '@' && email[dot] == '.' &&
    IsSegment(email[..at]) && IsSegment(email[at + 1..dot]) && IsSegment(email[dot + 1..])
  }

  lemma SplitHasNoWhitespace(email: string, at: int, dot: int)
    requires SplitsAt(email, at, dot)
    ensures NoWhitespace(email)
  {
    forall k | 0 <= k < |email| ensures !IsSpace(email[k]) {
      if k < at {
        assert email[..at][k] == email[k];
      } else if at < k < dot {
        assert email[at + 1..dot][k - at - 1] == email[k];
      } else if dot < k {
        assert email[dot + 1..][k - dot - 1] == email[k];
      }
    }
  }

  lemma SplitAtIsOnlyAt(email: string, at: int, dot: int)
    requires SplitsAt(email, at, dot)
    ensures forall k :: 0 <= k < |email| && email[k] == '@' ==> k == at
  {
    forall k | 0 <= k < |email| && k != at ensures email[k] != '@' {
      if k < at {
        assert email[..at][k] == email[k];
      } else if at < k < dot {
        assert email[at + 1..dot][k - at - 1] == email[k];
      } else if dot < k {
        assert email[dot + 1..][k - dot - 1] == email[k];
      }
    }
  }

  lemma SplitHasPlainShape(email: string, at: int, dot: int)
    requires SplitsAt(email, at, dot)
    ensures PlainShape(email)
  {
    SplitHasNoWhitespace(email, at, dot);
    SplitAtIsOnlyAt(email, at, dot);
    assert IndexOf(email, '@') == at;
    var domain := email[at + 1..];
    assert '@' !in domain by {
      forall k | 0 <= k < |domain| ensures domain[k] != '@' {
        assert domain[k] == email[at + 1 + k];
      }
    }
    assert domain[dot - at - 1] == '.';
  }

  lemma AcceptedHasPlainShape(email: string)
    requires ValidateEmail(email)
    ensures PlainShape(email)
  {
    var at, dot :| SplitsAt(email, at, dot);
    SplitHasPlainShape(email, at, dot);
  }

  lemma PlainShapeAccepted(email: string)
    requires PlainShape(email)
    ensures ValidateEmail(email)
  {
    var at := IndexOf(email, '@');
    var domain := email[at + 1..];
    var j :| 0 < j < |domain| - 1 && domain[j] == '.';
    var dot := at + 1 + j;
    assert email[dot] == '.';
    forall k | 0 <= k < |email| && k != at ensures email[k] != '@' {
      if k > at {
        assert domain[k - at - 1] == email[k];
      }
    }
    assert IsSegment(email[..at]);
    assert IsSegment(email[at + 1..dot]);
    assert IsSegment(email[dot + 1..]);
    assert SplitsAt(email, at, dot);
  }

  /**
   * The pattern accepts exactly the strings with no whitespace and exactly one
   * `@`, a non-empty part before it, and after it a `.` with at least one
   * character on each side.
   */
  lemma ValidateEmailShape(email: string)
    ensures ValidateEmail(email) <==> PlainShape(email)
  {
    if ValidateEmail(email) {
      AcceptedHasPlainShape(email);
    }
    if PlainShape(email) {
      PlainShapeAccepted(email);
    }
  }

  /** An address the form accepts also passes the API's `email.includes('@')` check. */
  lemma AcceptedPassesServerCheck(email: string)
    requires ValidateEmail(email)
    ensures CheckEmailField(Text(email)) == Passes
  {
    AcceptedHasPlainShape(email);
  }

  /** `parts.join(sep)`: the reference `Split` is the inverse of. */
  function Join(parts: seq<string>, sep: char): string
    requires |parts| >= 1
  {
    if |parts| == 1 then parts[0] else parts[0] + [sep] + Join(parts[1..], sep)
  }

  /**
   * JavaScript's `s.split(sep)` for a one-character separator: the parts
   * joined back with `sep` give `s`, and no part contains `sep`.
   */
  function Split(s: string, sep: char): (parts: seq<string>)
    ensures |parts| >= 1
    ensures Join(parts, sep) == s
    ensures |parts| > 1 <==> sep in s
    ensures forall k | 0 <= k < |parts| :: sep !in parts[k]
    decreases |s|
  {
    if sep !in s then [s]
    else
      var i := IndexOf(s, sep);
      assert s == s[..i] + [sep] + s[i + 1..];
      [s[..i]] + Split(s[i + 1..], sep)
  }

  /** `email.split('@')[1]`, the domain reported to analytics; `undefined` when there is no `@`. */
  function EmailDomain(email: string): (domain: Option<string>)
    ensures domain.Some? <==> '@' in email
    ensures domain.Some? ==> '@' !in domain.value
  {
    var parts := Split(email, '@');
    if |parts| > 1 then Some(parts[1]) else None
  }

  /** For an accepted address the reported domain is everything after its single `@`. */
  lemma DomainOfAcceptedEmail(email: string)
    requires ValidateEmail(email)
    ensures '@' in email
    ensures EmailDomain(email) == Some(email[IndexOf(email, '@') + 1..])
  {
    AcceptedHasPlainShape(email);
    var at := IndexOf(email, '@');
    assert Split(email, '@') == [email[..at]] + [email[at + 1..]];
  }

  /** The query-string parameters, as `URLSearchParams.get` sees them (first value per name). */
  type Params = map<string, string>

  function Get(params: Params, name: string): JsString {
    if name in params then Some(params[name]) else None
  }

  datatype TrackingData = TrackingData(
    source: string,
    medium: string,
    campaign: string,
    salesperson: string,
    callId: string,
    timestamp: string,
    referrer: string,
    userAgent: string
  )

  /** `captureTrackingData`, with the page's referrer, user agent and clock reading passed in. */
  function CaptureTrackingData(params: Params, referrer: string, userAgent: string, now: string): (t: TrackingData)
    ensures t.source != "" && t.medium != "" && t.campaign != "" && t.salesperson != "" && t.referrer != ""
    ensures t.callId == "" || Some(t.callId) in [Get(params, "call_id"), Get(params, "callId")]
    ensures t.timestamp == now && t.userAgent == userAgent
  {
    TrackingData(
      source := FirstTruthy([Get(params, "utm_source"), Get(params, "source")], "direct"),
      medium := FirstTruthy([Get(params, "utm_medium")], "unknown"),
      campaign := FirstTruthy([Get(params, "utm_campaign")], "default"),
      salesperson := FirstTruthy([Get(params, "rep"), Get(params, "salesperson")], "unknown"),
      callId := FirstTruthy([Get(params, "call_id"), Get(params, "callId")], ""),
      timestamp := now,
      referrer := FirstTruthy([Some(referrer)], "direct"),
      userAgent := userAgent
    )
  }

  /** A parameter that is present and non-empty. */
  predicate Given(params: Params, name: string) {
    name in params && params[name] != ""
  }

  /**
   * Each tracked field is its first given parameter, else its default; a
   * parameter present with the empty string counts as not given.
   */
  lemma TrackingFallbacks(params: Params, referrer: string, userAgent: string, now: string)
    ensures var t := CaptureTrackingData(params, referrer, userAgent, now);
      && t.source == (if Given(params, "utm_source") then params["utm_source"]
                      else if Given(params, "source") then params["source"] else "direct")
      && t.medium == (if Given(params, "utm_medium") then params["utm_medium"] else "unknown")
      && t.campaign == (if Given(params, "utm_campaign") then params["utm_campaign"] else "default")
      && t.salesperson == (if Given(params, "rep") then params["rep"]
                           else if Given(params, "salesperson") then params["salesperson"] else "unknown")
      && t.callId == (if Given(params, "call_id") then params["call_id"]
                      else if Given(params, "callId") then params["callId"] else "")
      && t.referrer == (if referrer != "" then referrer else "direct")
  {
    FirstTruthyPair(Get(params, "utm_source"), Get(params, "source"), "direct");
    FirstTruthySingle(Get(params, "utm_medium"), "unknown");
    FirstTruthySingle(Get(params, "utm_campaign"), "default");
    FirstTruthyPair(Get(params, "rep"), Get(params, "salesperson"), "unknown");
    FirstTruthyPair(Get(params, "call_id"), Get(params, "callId"), "");
    FirstTruthySingle(Some(referrer), "direct");
  }

  /** The `source` sent to the API: `cold_call` when the tracked source is exactly that, `website` otherwise (also before tracking data exists). */
  function RequestSource(tracking: Option<TrackingData>): (source: string)
    ensures source == "cold_call" || source == "website"
    ensures source == "cold_call" <==> tracking.Some? && tracking.value.source == "cold_call"
  {
    if tracking.Some? && tracking.value.source == "cold_call" then "cold_call" else "website"
  }

  /** A page opened with `?utm_source=cold_call`, or with no usable `utm_source` and `?source=cold_call`, requests as a cold call; every other page as `website`. */
  lemma ColdCallSource(params: Params, referrer: string, userAgent: string, now: string)
    ensures var s := RequestSource(Some(CaptureTrackingData(params, referrer, userAgent, now)));
      && (s == "cold_call" || s == "website")
      && (s == "cold_call" <==>
            (Given(params, "utm_source") && params["utm_source"] == "cold_call") ||
            (!Given(params, "utm_source") && Given(params, "source") && params["source"] == "cold_call"))
  {
    TrackingFallbacks(params, referrer, userAgent, now);
  }

  /** The request body `handleSubmit` posts (the fields the API reads). */
  datatype DemoPayload = DemoPayload(email: string, source: string, timestamp: string)

  /**
   * `handleSubmit` up to the request: an address the pattern rejects ends the
   * handler before any request is made; otherwise the payload it posts.
   */
  function Submit(email: string, tracking: Option<TrackingData>, now: string): (payload: Option<DemoPayload>)
    ensures payload.Some? <==> ValidateEmail(email)
    ensures payload.Some? ==> payload.value.email == email && payload.value.source == RequestSource(tracking)
    ensures payload.Some? && tracking.None? ==> payload.value.timestamp == now
    ensures payload.Some? && tracking.Some? && tracking.value.timestamp != "" ==>
              payload.value.timestamp == tracking.value.timestamp
  {
    if !ValidateEmail(email) then None
    else
      var stamp := if tracking.Some? then FirstTruthy([Some(tracking.value.timestamp)], now) else now;
      Some(DemoPayload(email, RequestSource(tracking), stamp))
  }

  /** The submit button's `disabled` attribute. */
  predicate SubmitDisabled(isSubmitting: bool, email: string): (disabled: bool)
    ensures disabled <==> isSubmitting || !PlainShape(email)
  {
    ValidateEmailShape(email);
    isSubmitting || !ValidateEmail(email)
  }

  /**
   * An address the pattern rejects disables the button and, if submitted
   * anyway, sends nothing; an accepted one is posted unchanged, and the
   * server's `@` check then passes.
   */
  lemma SubmitGuard(email: string, tracking: Option<TrackingData>, now: string, isSubmitting: bool)
    ensures !ValidateEmail(email) ==> Submit(email, tracking, now) == None && SubmitDisabled(isSubmitting, email)
    ensures ValidateEmail(email) ==>
              && Submit(email, tracking, now).Some?
              && Submit(email, tracking, now).value.email == email
              && CheckEmailField(Text(email)) == Passes
              && (SubmitDisabled(isSubmitting, email) <==> isSubmitting)
  {
    if ValidateEmail(email) {
      AcceptedPassesServerCheck(email);
    }
  }
}
