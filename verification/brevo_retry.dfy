/**
 * src/utils/brevoClient.ts: every Brevo call goes through `sendWithRetry`,
 * which repeats a call the API answered with 429 after an exponentially
 * growing delay; the contact and email payloads it sends; and the HTML of
 * the contact-form confirmation email.
 *
 * A call to the API is a function `attempt` from the attempt number (0, 1,
 * ...) to its outcome; the delays are returned instead of being slept.
 */
module BrevoRetry {
  import opened Outcomes
  import opened Text
  import opened JsonValue
  import opened BrevoSdk

  /** An error as the SDK throws it: the status of the HTTP response, if there was one, and a message. */
  datatype ApiError = ApiError(responseStatus: Option<int>, message: string)

  /** `error.response?.status === 429` */
  predicate IsRateLimit(e: ApiError) {
    e.responseStatus == Some(429)
  }

  /** An outcome that ends the loop: a success or an error other than 429. */
  predicate Final<T>(r: Result<T, ApiError>) {
    r.Ok? || !IsRateLimit(r.error)
  }

  /** The `Error` thrown once every allowed attempt was answered with 429; it carries no response. */
  const MaxRetriesError := ApiError(None, "Maximum retries reached")

  const DefaultMaxRetries := 3
  const DefaultDelay := 1000

  /** `Math.pow(2, n)` */
  function Pow2(n: nat): nat {
    if n == 0 then 1 else 2 * Pow2(n - 1)
  }

  /** The delays before the first `n` retries: `delay * 2^k` before retry k = 1..n. */
  function Backoff(delay: int, n: nat): (w: seq<int>)
    ensures |w| == n
    ensures forall k :: 0 <= k < n ==> w[k] == delay * Pow2(k + 1)
  {
    if n == 0 then [] else Backoff(delay, n - 1) + [delay * Pow2(n)]
  }

  /** Each delay doubles the previous one. */
  lemma BackoffDoubles(delay: int, n: nat, k: nat)
    requires 0 < k < n
    ensures Backoff(delay, n)[k] == 2 * Backoff(delay, n)[k - 1]
  {
  }

  /** With the defaults there are at most three retries, after 2, 4 and 8 seconds. */
  lemma DefaultBackoff()
    ensures Backoff(DefaultDelay, DefaultMaxRetries) == [2000, 4000, 8000]
  {
    assert Pow2(1) == 2 && Pow2(2) == 4 && Pow2(3) == 8;
  }

  /** The first `n` attempts were all answered with 429. */
  predicate RateLimitedUpTo<T>(attempt: nat -> Result<T, ApiError>, n: nat) {
    forall k :: 0 <= k < n ==> !Final(attempt(k))
  }

  function Max0(n: int): nat {
    if n < 0 then 0 else n
  }

  /**
   * `sendWithRetry(fn, maxRetries, delay)`. `calls` is how often `fn` ran and
   * `waits` the delays slept between the calls.
   */
  method SendWithRetry<T>(attempt: nat -> Result<T, ApiError>, maxRetries: int, delay: int)
    returns (r: Result<T, ApiError>, calls: nat, waits: seq<int>)
    ensures calls <= Max0(maxRetries)
    // every call before the last was answered with 429
    ensures calls > 0 ==> RateLimitedUpTo(attempt, calls - 1)
    // the first success, or the first error other than 429, is the result, and nothing runs after it
    ensures calls > 0 && Final(attempt(calls - 1)) ==> r == attempt(calls - 1) && waits == Backoff(delay, calls - 1)
    // when every allowed call was answered with 429, or none was allowed, the result is the retries error
    ensures calls == 0 || !Final(attempt(calls - 1)) ==>
      calls == Max0(maxRetries) && r == Err(MaxRetriesError) && waits == Backoff(delay, calls)
    // a 429 never comes out
    ensures Final(r)
  {
    var retries := 0;
    calls, waits := 0, [];
    while retries < maxRetries
      invariant 0 <= retries <= Max0(maxRetries) && calls == retries
      invariant RateLimitedUpTo(attempt, retries)
      invariant waits == Backoff(delay, retries)
    {
      var result := attempt(retries);
      calls := calls + 1;
      if Final(result) {
        return result, calls, waits;
      }
      retries := retries + 1;
      waits := waits + [delay * Pow2(retries)];
    }
    r := Err(MaxRetriesError);
  }

  /** `CreateContact` as `createOrUpdateContact` fills it in. */
  datatype CreateContact = CreateContact(email: string, attributes: map<string, Json>, updateEnabled: bool)

  /**
   * The contact payload: FIRSTNAME first, then the caller's attributes
   * spread over it, so that a caller's FIRSTNAME wins; updates always enabled.
   */
  function ContactPayload(email: string, firstName: string, attributes: map<string, Json>): (c: CreateContact)
    ensures c.email == email && c.updateEnabled
    ensures c.attributes.Keys == attributes.Keys + {"FIRSTNAME"}
    ensures forall k :: k in attributes ==> c.attributes[k] == attributes[k]
    ensures "FIRSTNAME" !in attributes ==> c.attributes["FIRSTNAME"] == Str(firstName)
  {
    CreateContact(email, map["FIRSTNAME" := Str(firstName)] + attributes, true)
  }

  /** `createOrUpdateContact`: the payload, sent through `sendWithRetry` with its defaults. */
  method CreateOrUpdateContact(email: string, firstName: string, attributes: map<string, Json>,
                               attempt: nat -> Result<Json, ApiError>)
    returns (sent: CreateContact, r: Result<Json, ApiError>, calls: nat)
    ensures sent == ContactPayload(email, firstName, attributes)
    ensures 1 <= calls <= DefaultMaxRetries
    ensures RateLimitedUpTo(attempt, calls - 1)
    ensures Final(attempt(calls - 1)) ==> r == attempt(calls - 1)
    ensures !Final(attempt(calls - 1)) ==> calls == DefaultMaxRetries && r == Err(MaxRetriesError)
    ensures Final(r)
  {
    sent := ContactPayload(email, firstName, attributes);
    var waits;
    r, calls, waits := SendWithRetry(attempt, DefaultMaxRetries, DefaultDelay);
  }

  /** `SendSmtpEmail` as `sendTransactionalEmail` fills it in. */
  datatype EmailData = EmailData(
    sender: Sender, to: seq<Recipient>, subject: string, htmlContent: string, params: Option<map<string, Json>>)

  const DefaultSenderEmail := "noreply@advelocity.ai"

  /** The email payload: sender EMAIL_FROM or the default address, always named "AdVelocity". */
  function EmailPayload(emailFrom: string, to: seq<Recipient>, subject: string, htmlContent: string,
                        params: Option<map<string, Json>>): (e: EmailData)
    ensures e.sender.email == if emailFrom != "" then emailFrom else DefaultSenderEmail
    ensures e.sender.name == "AdVelocity"
    ensures e.to == to && e.subject == subject && e.htmlContent == htmlContent && e.params == params
  {
    EmailData(Sender(if emailFrom != "" then emailFrom else DefaultSenderEmail, "AdVelocity"),
              to, subject, htmlContent, params)
  }

  /** `sendTransactionalEmail`: the payload, sent through `sendWithRetry` with its defaults. */
  method SendTransactionalEmail(emailFrom: string, to: seq<Recipient>, subject: string, htmlContent: string,
                                params: Option<map<string, Json>>, attempt: nat -> Result<Json, ApiError>)
    returns (sent: EmailData, r: Result<Json, ApiError>, calls: nat)
    ensures sent == EmailPayload(emailFrom, to, subject, htmlContent, params)
    ensures 1 <= calls <= DefaultMaxRetries
    ensures RateLimitedUpTo(attempt, calls - 1)
    ensures Final(attempt(calls - 1)) ==> r == attempt(calls - 1)
    ensures !Final(attempt(calls - 1)) ==> calls == DefaultMaxRetries && r == Err(MaxRetriesError)
    ensures Final(r)
  {
    sent := EmailPayload(emailFrom, to, subject, htmlContent, params);
    var waits;
    r, calls, waits := SendWithRetry(attempt, DefaultMaxRetries, DefaultDelay);
  }

  /** The confirmation email up to the name, and from the name to the message block. */
  const GreetingOpen :=
    "\n    <div style=\"font-family: Arial, sans-serif; max-width: 600px; margin: 0 auto;\">"
    + "\n      <h2>Thank you for your message!</h2>"
    + "\n      <p>Hi "
  const GreetingClose :=
    ",</p>"
    + "\n      <p>We have received your message and will get back to you shortly.</p>"
    + "\n      "

  /** The confirmation email up to the message block. */
  function TemplateHead(name: string): string {
    GreetingOpen + name + GreetingClose
  }

  /** The confirmation email after the message block. */
  const TemplateTail :=
    "\n      <p>Best regards,<br>The AdVelocity Team</p>"
    + "\n    </div>"
    + "\n  "

  const MessageCaption := "<p>Your message:</p>"

  /** The quoted message. */
  function Quote(message: string): string {
    "<blockquote>" + message + "</blockquote>"
  }

  /** `emailTemplates.contactFormTemplate(name, message)` */
  function ContactFormTemplate(name: string, message: string): string {
    TemplateHead(name) + (if message != "" then MessageCaption + Quote(message) else "") + TemplateTail
  }

  /** A non-empty message is quoted in the email; an empty one leaves no block at all. */
  lemma TemplateQuotesMessage(name: string, message: string)
    ensures message != "" ==> Contains(ContactFormTemplate(name, message), Quote(message))
    ensures message == "" ==> ContactFormTemplate(name, message) == TemplateHead(name) + TemplateTail
  {
    var head, quote, tail := TemplateHead(name), Quote(message), TemplateTail;
    if message != "" {
      var caption := MessageCaption;
      assert ContactFormTemplate(name, message) == head + (caption + quote) + tail;
      assert head + (caption + quote) + tail == (head + caption) + quote + tail;
      ContainsMiddle(head + caption, quote, tail);
    } else {
      assert ContactFormTemplate(name, message) == head + [] + tail;
    }
  }
}
