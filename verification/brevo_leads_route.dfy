/**
 * The `POST` handler of src/app/api/leads/route.ts: validate the lead, then
 * three Brevo steps one after the other (create or update the contact, the
 * confirmation email to the lead, the notification email to the admin). The
 * first failing step ends the request with an error reply; nothing is
 * isolated.
 */
module BrevoLeadsRoute {
  import opened Outcomes
  import opened JsonValue
  import Zod
  import opened BrevoRetry
  import opened BrevoSdk

  /** The fields of `leadSchema`, in the order it declares them. */
  datatype Field = FirstName | Email | Phone | Message | Company

  const Schema: seq<Field> := [FirstName, Email, Phone, Message, Company]

  function Key(f: Field): string {
    match f
    case FirstName => "firstName"
    case Email => "email"
    case Phone => "phone"
    case Message => "message"
    case Company => "company"
  }

  /** The message a field's check gives, if it fails. */
  function FieldError(body: Body, isEmail: string -> bool, f: Field): Option<string> {
    var v := Get(body, Key(f));
    match f
    case FirstName => Zod.ErrorOf(Zod.RequiredString(v, 1, "First name is required"))
    case Email => Zod.ErrorOf(Zod.EmailString(v, isEmail, "Invalid email address"))
    case _ => Zod.ErrorOf(Zod.OptionalString(v))
  }

  /** Each field of the schema, in order, with the message of its check if it fails. */
  function Checks(body: Body, isEmail: string -> bool): (c: seq<(Field, Option<string>)>)
    ensures |c| == |Schema|
    ensures forall i :: 0 <= i < |c| ==> c[i] == (Schema[i], FieldError(body, isEmail, Schema[i]))
  {
    seq(|Schema|, i requires 0 <= i < |Schema| => (Schema[i], FieldError(body, isEmail, Schema[i])))
  }

  datatype Lead = Lead(firstName: string, email: string, phone: string, message: string, company: string)

  /** The text of a string value; every other value, and an absent one, reads as "". */
  function StringValue(v: Option<Json>): string {
    if v.Some? && v.value.Str? then v.value.s else ""
  }

  /**
   * `leadSchema.parse(body)`: the lead when no field fails, otherwise the
   * issues of the failing fields. An absent optional field is kept as "",
   * which is what every later use of it (`|| ''`, a truthy test) reads.
   */
  function Validate(body: Body, isEmail: string -> bool): (r: Result<Lead, seq<Zod.Issue<Field>>>)
    ensures r.Ok? <==> Zod.Issues(Checks(body, isEmail)) == []
    ensures r.Err? ==> r.error == Zod.Issues(Checks(body, isEmail))
  {
    var issues := Zod.Issues(Checks(body, isEmail));
    if issues == [] then
      Ok(Lead(StringValue(Get(body, "firstName")), StringValue(Get(body, "email")),
              StringValue(Get(body, "phone")), StringValue(Get(body, "message")),
              StringValue(Get(body, "company"))))
    else
      Err(issues)
  }

  /**
   * A parsed lead has a non-empty first name and an address `isEmail`
   * accepts, both the body's own; each optional field is the body's string
   * when present (a non-string fails the schema) and "" when absent.
   */
  lemma ValidLeadFields(body: Body, isEmail: string -> bool)
    requires Validate(body, isEmail).Ok?
    ensures var lead := Validate(body, isEmail).value;
      Get(body, "firstName") == Some(Str(lead.firstName)) && lead.firstName != ""
      && Get(body, "email") == Some(Str(lead.email)) && isEmail(lead.email)
    ensures var lead := Validate(body, isEmail).value;
      && (if "phone" in body then Get(body, "phone") == Some(Str(lead.phone)) else lead.phone == "")
      && (if "message" in body then Get(body, "message") == Some(Str(lead.message)) else lead.message == "")
      && (if "company" in body then Get(body, "company") == Some(Str(lead.company)) else lead.company == "")
  {
    var checks := Checks(body, isEmail);
    assert checks[0].1.None? && checks[1].1.None?;
    assert checks[2].1.None? && checks[3].1.None? && checks[4].1.None?;
  }

  /** Every failing field has its issue, and every issue is a failing field's. */
  lemma IssuesNameFailingFields(body: Body, isEmail: string -> bool, f: Field, message: string)
    ensures Zod.Issue(f, message) in Zod.Issues(Checks(body, isEmail)) <==> FieldError(body, isEmail, f) == Some(message)
  {
    var checks := Checks(body, isEmail);
    var i := match f
      case FirstName => 0 case Email => 1 case Phone => 2 case Message => 3 case Company => 4;
    assert Schema[i] == f;
    if (f, Some(message)) in checks {
      var j :| 0 <= j < |checks| && checks[j] == (f, Some(message));
      assert Schema[j] == f;
    }
  }

  /** The attributes of the upserted contact: the three optional fields defaulting to '', and a fixed source. */
  function LeadAttributes(lead: Lead): map<string, Json> {
    map["PHONE" := Str(lead.phone), "COMPANY" := Str(lead.company),
        "MESSAGE" := Str(lead.message), "SOURCE" := Str("Website Form")]
  }

  /**
   * The contact the first step sends: the lead's FIRSTNAME plus its four
   * attributes, the optional ones being the lead's values ("" when absent,
   * by `ValidLeadFields`).
   */
  lemma UpsertPayload(lead: Lead)
    ensures var c := ContactPayload(lead.email, lead.firstName, LeadAttributes(lead));
      c.attributes.Keys == {"FIRSTNAME", "PHONE", "COMPANY", "MESSAGE", "SOURCE"}
      && c.attributes["FIRSTNAME"] == Str(lead.firstName)
      && c.attributes["PHONE"] == Str(lead.phone) && c.attributes["COMPANY"] == Str(lead.company)
      && c.attributes["MESSAGE"] == Str(lead.message)
      && c.attributes["SOURCE"] == Str("Website Form")
      && c.updateEnabled
  {
  }

  /** The fixed text of the admin notification, between the values it shows. */
  const AdminOpen :=
    "\n        <div style=\"font-family: Arial, sans-serif;\">"
    + "\n          <h2>New Contact Form Submission</h2>"
    + "\n          <p><strong>Name:</strong> "
  const EmailCaption := "</p>\n          <p><strong>Email:</strong> "
  const LineBreak := "</p>\n          "
  const Indent := "\n          "
  const AdminClose := "\n        </div>\n      "

  /** `<p><strong>caption:</strong> value</p>` when `value` is truthy, nothing otherwise. */
  function Line(caption: string, value: string): string {
    if value != "" then "<p><strong>" + caption + ":</strong> " + value + "</p>" else ""
  }

  /** The message paragraph when the message is truthy, nothing otherwise. */
  function MessageLines(message: string): string {
    if message != "" then "<p><strong>Message:</strong></p><p>" + message + "</p>" else ""
  }

  /** The admin notification's HTML: name and email always, phone, company and message only when given. */
  function AdminHtml(lead: Lead): string {
    AdminOpen + lead.firstName + EmailCaption + lead.email + LineBreak
    + Line("Phone", lead.phone) + Indent + Line("Company", lead.company) + Indent
    + MessageLines(lead.message) + AdminClose
  }

  /** The Brevo calls in the order they are made, with how many tries each took and what came of it. */
  datatype Call =
    | UpsertContact(contact: CreateContact, attempts: nat, outcome: Result<Json, ApiError>)
    | SendEmail(email: EmailData, attempts: nat, outcome: Result<Json, ApiError>)

  datatype Reply =
    | Failure(status: nat, message: string)
    | InvalidForm(errors: seq<Zod.Issue<Field>>)
    | Success(message: string)

  function Status(r: Reply): nat {
    match r
    case Failure(s, _) => s
    case InvalidForm(_) => 400
    case Success(_) => 200
  }

  /** The catch block's mapping of a thrown Brevo error. */
  function ErrorReply(e: ApiError): (reply: Reply)
    ensures Status(reply) == 429 <==> IsRateLimit(e)
    ensures !IsRateLimit(e) ==> reply == GenericError
  {
    if IsRateLimit(e) then Failure(429, "Too many requests, please try again later")
    else Failure(500, "An error occurred while processing your request")
  }

  const ConfirmationSubject := "Thank you for contacting AdVelocity"
  const AdminSubject := "New Contact Form Submission"
  const SuccessMessage := "Form submitted successfully"

  const GenericError := Failure(500, "An error occurred while processing your request")

  /** `process.env.ADMIN_EMAIL || process.env.EMAIL_FROM || ''` */
  function AdminAddress(adminEmail: string, emailFrom: string): string {
    if adminEmail != "" then adminEmail else emailFrom
  }

  /** The contact the first step creates or updates. */
  function LeadContact(lead: Lead): CreateContact {
    ContactPayload(lead.email, lead.firstName, LeadAttributes(lead))
  }

  /** The confirmation email to the lead: addressed by name, quoting the message. */
  function ConfirmationEmail(lead: Lead, emailFrom: string): EmailData {
    EmailPayload(emailFrom, [Recipient(lead.email, Some(lead.firstName))], ConfirmationSubject,
                 ContactFormTemplate(lead.firstName, lead.message), None)
  }

  /** The notification to the admin address. */
  function AdminEmail(lead: Lead, adminEmail: string, emailFrom: string): EmailData {
    EmailPayload(emailFrom, [Recipient(AdminAddress(adminEmail, emailFrom), None)], AdminSubject,
                 AdminHtml(lead), None)
  }

  /**
   * What `sendWithRetry` with its defaults makes of a call: the tries before
   * the last were all answered with 429, and the outcome is the last try's
   * unless that too was a 429 and it was the third.
   */
  predicate Retried(attempt: nat -> Result<Json, ApiError>, attempts: nat, outcome: Result<Json, ApiError>) {
    1 <= attempts <= DefaultMaxRetries && RateLimitedUpTo(attempt, attempts - 1)
    && if Final(attempt(attempts - 1)) then outcome == attempt(attempts - 1)
       else attempts == DefaultMaxRetries && outcome == Err(MaxRetriesError)
  }

  /** The first step, `createOrUpdateContact` for the lead. */
  method Upsert(lead: Lead, attempt: nat -> Result<Json, ApiError>) returns (call: Call)
    ensures call.UpsertContact? && call.contact == LeadContact(lead)
    ensures Retried(attempt, call.attempts, call.outcome)
  {
    var contact, r, n := CreateOrUpdateContact(lead.email, lead.firstName, LeadAttributes(lead), attempt);
    call := UpsertContact(contact, n, r);
  }

  /** An email step, `sendTransactionalEmail` for `email`. */
  method Send(email: EmailData, attempt: nat -> Result<Json, ApiError>) returns (call: Call)
    ensures call.SendEmail? && call.email == email
    ensures Retried(attempt, call.attempts, call.outcome)
  {
    var sent, r, n := SendTransactionalEmail(email.sender.email, email.to, email.subject, email.htmlContent,
                                             email.params, attempt);
    call := SendEmail(email, n, r);
  }

  /** A 429 never survives `sendWithRetry`. */
  lemma RetriedIsFinal(attempt: nat -> Result<Json, ApiError>, attempts: nat, outcome: Result<Json, ApiError>)
    requires Retried(attempt, attempts, outcome)
    ensures Final(outcome)
  {
  }

  /**
   * The three Brevo steps for a parsed lead, in order; the first that fails
   * ends the request with the catch block's reply. Each `attempt` function
   * gives the outcome of each try of its call.
   */
  method Deliver(lead: Lead, adminEmail: string, emailFrom: string,
                 upsertAttempt: nat -> Result<Json, ApiError>,
                 confirmationAttempt: nat -> Result<Json, ApiError>,
                 adminAttempt: nat -> Result<Json, ApiError>)
    returns (reply: Reply, calls: seq<Call>)
    ensures 1 <= |calls| <= 3
    ensures calls[0].UpsertContact? && calls[0].contact == LeadContact(lead)
    ensures Retried(upsertAttempt, calls[0].attempts, calls[0].outcome)
    // each step runs only when the one before it succeeded
    ensures |calls| >= 2 ==>
      calls[0].outcome.Ok? && calls[1].SendEmail? && calls[1].email == ConfirmationEmail(lead, emailFrom)
      && Retried(confirmationAttempt, calls[1].attempts, calls[1].outcome)
    ensures |calls| == 3 ==>
      calls[1].outcome.Ok? && calls[2].SendEmail? && calls[2].email == AdminEmail(lead, adminEmail, emailFrom)
      && Retried(adminAttempt, calls[2].attempts, calls[2].outcome)
    // the request succeeds when all three do, and otherwise stops at the first failure
    ensures reply.Success? <==> calls[|calls| - 1].outcome.Ok?
    ensures reply.Success? ==> |calls| == 3 && reply.message == SuccessMessage
    // a 429 is retried inside each step and never reaches the reply
    ensures !reply.Success? ==> reply == GenericError
  {
    var upsert := Upsert(lead, upsertAttempt);
    if upsert.outcome.Err? {
      RetriedIsFinal(upsertAttempt, upsert.attempts, upsert.outcome);
      return ErrorReply(upsert.outcome.error), [upsert];
    }
    var confirmation := Send(ConfirmationEmail(lead, emailFrom), confirmationAttempt);
    if confirmation.outcome.Err? {
      RetriedIsFinal(confirmationAttempt, confirmation.attempts, confirmation.outcome);
      return ErrorReply(confirmation.outcome.error), [upsert, confirmation];
    }
    var notification := Send(AdminEmail(lead, adminEmail, emailFrom), adminAttempt);
    calls := [upsert, confirmation, notification];
    if notification.outcome.Err? {
      RetriedIsFinal(adminAttempt, notification.attempts, notification.outcome);
      return ErrorReply(notification.outcome.error), calls;
    }
    reply := Success(SuccessMessage);
  }

  /**
   * `POST`. `body` is `None` when the request is not valid JSON, which the
   * catch block answers like any error that is neither zod's nor a 429.
   */
  method Post(body: Option<Body>, isEmail: string -> bool, adminEmail: string, emailFrom: string,
              upsertAttempt: nat -> Result<Json, ApiError>,
              confirmationAttempt: nat -> Result<Json, ApiError>,
              adminAttempt: nat -> Result<Json, ApiError>)
    returns (reply: Reply, calls: seq<Call>)
    ensures body.None? ==> reply == GenericError && calls == []
    ensures body.Some? && Validate(body.value, isEmail).Err? ==>
      reply == InvalidForm(Validate(body.value, isEmail).error) && calls == []
    // Brevo is called only for a lead that passed the schema, and its contact is that lead's
    ensures calls != [] <==> body.Some? && Validate(body.value, isEmail).Ok?
    ensures calls != [] ==>
      |calls| <= 3 && calls[0].UpsertContact? && calls[0].contact == LeadContact(Validate(body.value, isEmail).value)
    // success means all three steps succeeded
    ensures reply.Success? <==> |calls| == 3 && calls[0].outcome.Ok? && calls[1].outcome.Ok? && calls[2].outcome.Ok?
    // a Brevo failure, rate limit included, is a 500
    ensures calls != [] && !reply.Success? ==> reply == GenericError
    // so the 429 reply of the catch block is never sent
    ensures reply == GenericError || reply.InvalidForm? || reply == Success(SuccessMessage)
  {
    calls := [];
    if body.None? {
      return GenericError, [];
    }
    var validation := Validate(body.value, isEmail);
    if validation.Err? {
      return InvalidForm(validation.error), [];
    }
    reply, calls := Deliver(validation.value, adminEmail, emailFrom, upsertAttempt, confirmationAttempt, adminAttempt);
  }
}
