/**
 * The serverless `handler` of api/contact.ts: only `POST` is served; name,
 * email and message must all be truthy; then a Slack notification (only
 * when a bot token is configured) and a confirmation email are attempted,
 * each inside its own `try`, so that neither failure reaches the reply.
 */
module ContactApi {
  import opened Outcomes
  import opened Text
  import opened JsonValue

  /** `SLACK_CHANNEL_ID || "general"` */
  function Channel(configured: string): (c: string)
    ensures c != ""
    ensures configured != "" ==> c == configured
  {
    if configured != "" then configured else "general"
  }

  /** `v || 'Not provided'` inside a template string. */
  function OrNotProvided(v: Option<Json>): string {
    if Truthy(v) then ToJsString(v) else "Not provided"
  }

  const SlackHeading := "New Contact Form Submission:\n• Name: "
  const SlackEmail := "\n• Email: "
  const SlackMessage := "\n• Message: "

  /** The Slack text: one bullet each for name, email and message. */
  function SlackText(name: Option<Json>, email: Option<Json>, message: Option<Json>): string {
    SlackHeading + OrNotProvided(name) + SlackEmail + ToJsString(email) + SlackMessage + OrNotProvided(message)
  }

  /**
   * The handler posts to Slack only after the field check, so the two
   * "Not provided" defaults never show: the bullets carry the values themselves.
   */
  lemma SlackTextShowsFields(name: Option<Json>, email: Option<Json>, message: Option<Json>)
    requires Truthy(name) && Truthy(message)
    ensures SlackText(name, email, message)
      == SlackHeading + ToJsString(name) + SlackEmail + ToJsString(email) + SlackMessage + ToJsString(message)
  {
  }

  const GreetingOpen := "\n        <h2>Thank you for reaching out!</h2>\n        <p>Hi "
  const GreetingClose :=
    ",</p>\n        <p>We have received your message and will get back to you shortly.</p>"
    + "\n        <p>Your message:</p>\n        <blockquote>"
  const Closing := "</blockquote>\n        <p>Best regards,<br>The Physiq Fitness Team</p>\n      "

  /** The confirmation email's HTML, greeting the sender by name and quoting the message. */
  function ConfirmationHtml(name: Option<Json>, message: Option<Json>): string {
    GreetingOpen + ToJsString(name) + GreetingClose + ToJsString(message) + Closing
  }

  /** The message appears in the confirmation email. */
  lemma ConfirmationQuotesMessage(name: Option<Json>, message: Option<Json>)
    ensures Contains(ConfirmationHtml(name, message), ToJsString(message))
  {
    ContainsMiddle(GreetingOpen + ToJsString(name) + GreetingClose, ToJsString(message), Closing);
  }

  const Subject := "Thank you for contacting Physiq Fitness"
  const SenderName := "Physiq Fitness Website"
  const SenderAddress := "noreply@physiqfitness.com"

  /** The `SendSmtpEmail` the handler fills in; the recipient's email and name are the body's values as given. */
  datatype Email = Email(subject: string, htmlContent: string, senderName: string, senderEmail: string,
                         toEmail: Json, toName: Json)

  /** The side effects in the order they are attempted, each with whether it went through. */
  datatype Call =
    | SlackPost(channel: string, text: string, delivered: bool)
    | SendConfirmation(email: Email, delivered: bool)

  datatype Reply =
    | Failure(status: nat, error: string)
    // the 500 that destructuring an absent body raises
    | Crashed
    | Success(message: string)

  function Status(r: Reply): nat {
    match r
    case Failure(s, _) => s
    case Crashed => 500
    case Success(_) => 200
  }

  const MissingFields := "Missing required fields: name, email, and message are required"
  const Submitted := "Form submission successful"

  /** `!name || !email || !message` is false. */
  predicate Complete(body: Body) {
    Truthy(Get(body, "name")) && Truthy(Get(body, "email")) && Truthy(Get(body, "message"))
  }

  /** The confirmation email for a complete body. */
  function Confirmation(body: Body): (e: Email)
    requires Complete(body)
    ensures e.toEmail == body["email"] && e.toName == body["name"]
    ensures e.senderEmail == SenderAddress && e.subject == Subject
  {
    var name, message := Get(body, "name"), Get(body, "message");
    Email(Subject, ConfirmationHtml(name, message), SenderName, SenderAddress, body["email"], body["name"])
  }

  /**
   * `handler`. `body` is `None` when the request has no parsed body;
   * `slackToken` and `slackChannel` are the environment's ("" when unset);
   * `slackFails` and `emailFails` say whether each call throws.
   */
  method Handler(httpMethod: string, body: Option<Body>, slackToken: string, slackChannel: string,
                 slackFails: bool, emailFails: bool)
    returns (reply: Reply, calls: seq<Call>)
    ensures httpMethod != "POST" ==> reply == Failure(405, "Method not allowed") && calls == []
    ensures httpMethod == "POST" && body.None? ==> reply == Crashed && calls == []
    ensures httpMethod == "POST" && body.Some? && !Complete(body.value) ==>
      reply == Failure(400, MissingFields) && calls == []
    // a complete POST is answered with success whatever Slack and the email did
    ensures httpMethod == "POST" && body.Some? && Complete(body.value) ==> reply == Success(Submitted)
    ensures reply.Success? <==> calls != []
    // Slack is tried only with a token, and the email is tried after it, whether or not Slack failed
    ensures calls != [] ==>
      calls == (if slackToken != "" then [SlackPost(Channel(slackChannel),
                                                   SlackText(Get(body.value, "name"), Get(body.value, "email"),
                                                             Get(body.value, "message")),
                                                   !slackFails)]
                else [])
               + [SendConfirmation(Confirmation(body.value), !emailFails)]
    ensures Status(reply) in {200, 400, 405, 500}
  {
    calls := [];
    if httpMethod != "POST" {
      return Failure(405, "Method not allowed"), [];
    }
    if body.None? {
      return Crashed, [];
    }
    var data := body.value;
    var name, email, message := Get(data, "name"), Get(data, "email"), Get(data, "message");
    if !Truthy(name) || !Truthy(email) || !Truthy(message) {
      return Failure(400, MissingFields), [];
    }
    if slackToken != "" {
      // a failed post is logged and the submission goes on
      calls := calls + [SlackPost(Channel(slackChannel), SlackText(name, email, message), !slackFails)];
    }
    // a failed email is logged and the submission goes on
    calls := calls + [SendConfirmation(Confirmation(data), !emailFails)];
    reply := Success(Submitted);
  }
}
