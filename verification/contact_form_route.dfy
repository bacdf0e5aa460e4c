/**
 * The `POST` handler of app/api/submit/route.ts: hand-written checks that run
 * in a fixed order and stop at the first failure, an email regular
 * expression, the `cleanedData` sent to Brevo's `/v3/contacts`, and Brevo's
 * own status passed back on a rejection.
 */
module ContactFormRoute {
  import opened Outcomes
  import opened Text
  import opened JsonValue

  /** What `v?.trim()` does: `undefined` for a nullish value, the trimmed text for a string, a `TypeError` otherwise. */
  datatype TrimCall = Undefined | Trimmed(text: string) | NotAFunction

  function OptionalTrim(v: Option<Json>): (t: TrimCall)
    ensures t.Trimmed? <==> v.Some? && v.value.Str?
    ensures v.Some? && v.value.Str? ==> t == Trimmed(Trim(v.value.s))
    ensures t.Undefined? <==> v.None? || v == Some(Null)
  {
    match v
    case None => Undefined
    case Some(Null) => Undefined
    case Some(Str(s)) => Trimmed(Trim(s))
    case Some(_) => NotAFunction
  }

  /** `!v?.trim()`: nullish, or a string that is empty once trimmed. */
  predicate Blank(t: TrimCall) {
    t.Undefined? || t == Trimmed("")
  }

  /** A string made only of white space counts as missing. */
  lemma WhiteSpaceIsBlank(s: string)
    requires forall i :: 0 <= i < |s| ==> IsSpace(s[i])
    ensures Blank(OptionalTrim(Some(Str(s))))
  {
    TrimEmpty(s);
  }

  /** A string with a character other than white space is not blank. */
  lemma VisibleIsNotBlank(s: string, k: nat)
    requires k < |s| && !IsSpace(s[k])
    ensures !Blank(OptionalTrim(Some(Str(s))))
  {
    TrimKeepsVisible(s, k);
  }

  /** `[^\s@]`: neither white space nor '@'. */
  predicate WordChar(c: char) {
    !IsSpace(c) && c != '@'
  }

  /** `[^\s@]+` matches `s[lo..hi]`: at least one character, each a word character. */
  predicate WordBetween(s: string, lo: nat, hi: nat)
    requires hi <= |s|
    decreases hi - lo
  {
    lo < hi && WordChar(s[lo]) && (lo + 1 == hi || WordBetween(s, lo + 1, hi))
  }

  /** A word is a non-empty run of word characters. */
  lemma {:induction false} WordBetweenChars(s: string, lo: nat, hi: nat)
    requires hi <= |s|
    ensures WordBetween(s, lo, hi) <==> lo < hi && forall i :: lo <= i < hi ==> WordChar(s[i])
    decreases hi - lo
  {
    if lo + 1 < hi {
      WordBetweenChars(s, lo + 1, hi);
    }
  }

  /** `/^[^\s@]+@[^\s@]+\.[^\s@]+$/.test(s)`: some '@' and a later '.' split `s` into three such words. */
  predicate EmailFormat(s: string) {
    exists at: nat, dot: nat {:trigger Splits(s, at, dot)} | at < dot < |s| :: Splits(s, at, dot)
  }

  /** The '@' at `at` and the '.' at `dot` cut `s` into the three words of the expression. */
  predicate Splits(s: string, at: nat, dot: nat)
    requires at < dot < |s|
  {
    s[at] == '@' && s[dot] == '.' && WordBetween(s, 0, at) && WordBetween(s, at + 1, dot) && WordBetween(s, dot + 1, |s|)
  }

  /** Every character of `s` outside the two separators is a word character. */
  lemma SplitsChars(s: string, at: nat, dot: nat)
    requires at < dot < |s| && Splits(s, at, dot)
    ensures 0 < at && dot + 1 < |s|
    ensures forall i :: 0 <= i < |s| && i != at && i != dot ==> WordChar(s[i])
  {
    WordBetweenChars(s, 0, at);
    WordBetweenChars(s, at + 1, dot);
    WordBetweenChars(s, dot + 1, |s|);
  }

  /** An address that passes the expression holds no white space and exactly one '@', which is neither first nor last. */
  lemma EmailFormatShape(s: string)
    requires EmailFormat(s)
    ensures forall i :: 0 <= i < |s| ==> !IsSpace(s[i])
    ensures exists at :: 0 < at < |s| - 1 && s[at] == '@' && forall i :: 0 <= i < |s| && s[i] == '@' ==> i == at
    ensures Trim(s) == s
  {
    var at: nat, dot: nat :| at < dot < |s| && Splits(s, at, dot);
    SplitsChars(s, at, dot);
    assert 0 < at < |s| - 1 && s[at] == '@' && forall i :: 0 <= i < |s| && s[i] == '@' ==> i == at;
    TrimOfTrimmed(s);
  }

  /** An ordinary address passes. */
  lemma EmailFormatAccepts()
    ensures EmailFormat("ann@example.com")
  {
    assert Splits("ann@example.com", 3, 11);
  }

  /** A domain without a dot fails. */
  lemma EmailFormatNeedsDot()
    ensures !EmailFormat("ann@example")
  {
    var t := "ann@example";
    forall at: nat, dot: nat | at < dot < |t|
      ensures !Splits(t, at, dot)
    {
      if t[dot] == '.' {
        assert false;
      }
    }
  }

  /** An address with a space in it fails. */
  lemma EmailFormatRejectsSpace()
    ensures !EmailFormat("ann smith@example.com")
  {
    var u := "ann smith@example.com";
    assert IsSpace(u[3]);
    if EmailFormat(u) {
      EmailFormatShape(u);
    }
  }

  /** `cleanedData.properties` */
  datatype CleanedProperties = CleanedProperties(
    firstname: string, email: string, phone: Option<string>,
    consent: string, phoneConsent: string, source: string, timestamp: string)

  const Source := "Website Contact Form"

  /** Brevo's answer: a status and the body's `message`, or a throw (network failure or a body that is not JSON). */
  datatype BrevoOutcome = Responded(status: nat, message: Option<Json>) | Threw(errorMessage: string)

  /** `response.ok` */
  predicate IsOk(status: nat) {
    200 <= status <= 299
  }

  /** The early replies, one for each check, in the order the checks run. */
  datatype Refusal = InvalidFormat | NameRequired | EmailRequired | ConsentRequired | BadEmailFormat | NotConfigured

  /** The status, `error` and `details` each early reply is sent with. */
  function RefusalBody(r: Refusal): (b: (nat, string, string))
    ensures b.0 == 500 <==> r == NotConfigured
    ensures r != NotConfigured ==> b.0 == 400
  {
    match r
    case InvalidFormat => (400, "Invalid request format", "Request body must be valid JSON")
    case NameRequired => (400, "First name is required", "Please provide your first name")
    case EmailRequired => (400, "Email is required", "Please provide your email address")
    case ConsentRequired => (400, "Consent is required", "Please agree to receive communications")
    case BadEmailFormat => (400, "Invalid email format", "Please provide a valid email address")
    case NotConfigured => (500, "Server configuration error", "Contact form is not properly configured")
  }

  datatype Reply =
    | Refused(refusal: Refusal)
    // "Failed to create contact" with Brevo's own status, and its message or a default as details
    | BrevoRejected(status: nat, details: Json)
    // "Internal server error" with the message of what was thrown
    | Crashed(message: string)
    // the catch-all 500 for the `TypeError` a non-string name or email raises
    | TypeErrorReply
    // "Form submitted successfully"
    | Submitted

  function Status(r: Reply): nat {
    match r
    case Refused(refusal) => RefusalBody(refusal).0
    case BrevoRejected(s, _) => s
    case Crashed(_) => 500
    case TypeErrorReply => 500
    case Submitted => 200
  }

  const DefaultBrevoError := Str("Error creating contact in Brevo")

  /** `errorData.message || 'Error creating contact in Brevo'` */
  function RejectionDetails(message: Option<Json>): (d: Json)
    ensures Truthy(message) ==> Some(d) == message
    ensures !Truthy(message) ==> d == DefaultBrevoError
  {
    if Truthy(message) then message.value else DefaultBrevoError
  }

  /** `firstName?.trim()` and `email?.trim()` on the destructured body. */
  function NameField(body: Body): TrimCall {
    OptionalTrim(Get(body, "firstName"))
  }

  function EmailField(body: Body): TrimCall {
    OptionalTrim(Get(body, "email"))
  }

  /** A string that is not blank once trimmed. */
  predicate Present(t: TrimCall) {
    t.Trimmed? && t.text != ""
  }

  /** The four checks pass: name and email present, consent truthy, email well formed. */
  predicate Acceptable(body: Body) {
    Present(NameField(body)) && Present(EmailField(body))
    && Truthy(Get(body, "consent")) && EmailFormat(EmailField(body).text)
  }

  /**
   * `cleanedData.properties` for a body that passed the checks: name and
   * email trimmed, phone trimmed when truthy and left out otherwise, the two
   * consents as "Yes"/"No", a fixed source.
   */
  function Cleaned(body: Body, now: string): (p: CleanedProperties)
    requires Acceptable(body)
    ensures p.firstname != "" && EmailFormat(p.email)
    // name and email are the submitted strings, trimmed
    ensures p.firstname == Trim(Get(body, "firstName").value.s)
    ensures p.email == Trim(Get(body, "email").value.s)
    ensures p.phone.Some? <==> Truthy(Get(body, "phone"))
    ensures p.phone.Some? ==> p.phone.value == Trim(ToJsString(Get(body, "phone")))
    ensures p.consent == "Yes"
    ensures p.phoneConsent == (if Truthy(Get(body, "phoneConsent")) then "Yes" else "No")
    ensures p.source == "Website Contact Form" && p.timestamp == now
  {
    var phone := Get(body, "phone");
    CleanedProperties(
      NameField(body).text, EmailField(body).text,
      if Truthy(phone) then Some(Trim(ToJsString(phone))) else None,
      if Truthy(Get(body, "consent")) then "Yes" else "No",
      if Truthy(Get(body, "phoneConsent")) then "Yes" else "No",
      Source, now)
  }

  /**
   * The cleaned name, email and phone are already trimmed: cleaning them
   * again changes nothing, and a submitted value that was already trimmed is
   * sent exactly as submitted.
   */
  lemma CleanedIsTrimmed(body: Body, now: string)
    requires Acceptable(body)
    ensures var p := Cleaned(body, now);
      Trim(p.firstname) == p.firstname && Trim(p.email) == p.email
      && (p.phone.Some? ==> Trim(p.phone.value) == p.phone.value)
    ensures var name := Get(body, "firstName").value.s;
      Trim(name) == name ==> Cleaned(body, now).firstname == name
    ensures var email := Get(body, "email").value.s;
      Trim(email) == email ==> Cleaned(body, now).email == email
  {
    var p := Cleaned(body, now);
    var name, email := Get(body, "firstName").value.s, Get(body, "email").value.s;
    assert p.firstname == Trim(name) && p.email == Trim(email);
    TrimIdempotent(name);
    TrimIdempotent(email);
    TrimIdempotent(ToJsString(Get(body, "phone")));
  }

  /**
   * `POST`. `body` is `None` for a request that is not valid JSON;
   * `brevoApiKey` is the environment's key ("" when unset); `now` is the
   * timestamp; `outcome` is what the call to Brevo gives. `sent` is the
   * contact posted to Brevo, if any.
   */
  method Post(body: Option<Body>, brevoApiKey: string, now: string, outcome: BrevoOutcome)
    returns (reply: Reply, sent: Option<CleanedProperties>)
    ensures body.None? ==>
      reply == Refused(InvalidFormat) && sent.None?
    // the checks run in order and the first failing one decides the reply;
    // a name or email that is neither nullish nor a string makes `.trim()` throw
    ensures body.Some? && NameField(body.value).NotAFunction? ==> reply == TypeErrorReply
    ensures body.Some? && Blank(NameField(body.value)) ==>
      reply == Refused(NameRequired)
    ensures body.Some? && Present(NameField(body.value)) && EmailField(body.value).NotAFunction? ==>
      reply == TypeErrorReply
    ensures body.Some? && Present(NameField(body.value)) && Blank(EmailField(body.value)) ==>
      reply == Refused(EmailRequired)
    ensures body.Some? && Present(NameField(body.value)) && Present(EmailField(body.value))
            && !Truthy(Get(body.value, "consent")) ==>
      reply == Refused(ConsentRequired)
    ensures body.Some? && Present(NameField(body.value)) && Present(EmailField(body.value))
            && Truthy(Get(body.value, "consent")) && !EmailFormat(EmailField(body.value).text) ==>
      reply == Refused(BadEmailFormat)
    // the configuration is checked only for input that passed every check
    ensures body.Some? && Acceptable(body.value) && brevoApiKey == "" ==>
      reply == Refused(NotConfigured)
    ensures sent.Some? <==> body.Some? && Acceptable(body.value) && brevoApiKey != ""
    ensures sent.Some? ==> sent.value == Cleaned(body.value, now)
    // Brevo's status is passed back on a rejection
    ensures sent.Some? && outcome.Responded? && !IsOk(outcome.status) ==>
      reply == BrevoRejected(outcome.status, RejectionDetails(outcome.message))
    ensures sent.Some? && outcome.Threw? ==>
      reply == Crashed(outcome.errorMessage)
    ensures reply == Submitted <==> sent.Some? && outcome.Responded? && IsOk(outcome.status)
  {
    sent := None;
    if body.None? {
      return Refused(InvalidFormat), None;
    }
    var data := body.value;
    var firstName, email := NameField(data), EmailField(data);
    if firstName.NotAFunction? {
      return TypeErrorReply, None;
    }
    if Blank(firstName) {
      return Refused(NameRequired), None;
    }
    if email.NotAFunction? {
      return TypeErrorReply, None;
    }
    if Blank(email) {
      return Refused(EmailRequired), None;
    }
    if !Truthy(Get(data, "consent")) {
      return Refused(ConsentRequired), None;
    }
    if !EmailFormat(email.text) {
      return Refused(BadEmailFormat), None;
    }
    var cleaned := Cleaned(data, now);
    if brevoApiKey == "" {
      return Refused(NotConfigured), None;
    }
    sent := Some(cleaned);
    match outcome {
      case Threw(message) =>
        reply := Crashed(message);
      case Responded(status, message) =>
        if !IsOk(status) {
          reply := BrevoRejected(status, RejectionDetails(message));
        } else {
          reply := Submitted;
        }
    }
  }
}
