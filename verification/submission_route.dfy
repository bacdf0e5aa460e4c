/**
 * The `POST` handler of app/api/submit/route.js: parse the body, validate it
 * with `submissionSchema`, insert the submission into the `contact_submissions`
 * table, then attempt the Brevo contact and the ClickUp task side by side and
 * answer success whatever those two attempts did.
 *
 * The environment variables become a `Config`; the clock readings, the insert
 * outcome and the two integration outcomes are parameters of `Post`.
 */
module SubmissionRoute {
  import opened Outcomes
  import opened Text
  import opened JsonValue
  import Zod

  const FirstNameMessage := "First name must be at least 2 characters"
  const EmailMessage := "Invalid email address"
  const QuestionMessage := "Question must be at least 5 characters"
  const ConsentMessage := "You must agree to receive communications"
  const SuccessMessage := "Form submitted successfully"

  /**
   * `z.string().min(min, tooShort).trim()`: zod runs the checks in the order
   * they were declared, so the length is that of the UNTRIMMED string, and the
   * value handed on is the trimmed one.
   */
  function StringField(v: Option<Json>, min: nat, tooShort: string): (r: Result<string, string>)
    ensures r.Ok? <==> v.Some? && v.value.Str? && Utf16Length(v.value.s) >= min
    ensures r.Ok? ==> r.value == Trim(v.value.s)
  {
    match Zod.RequiredString(v, min, tooShort)
    case Ok(s) => Ok(Trim(s))
    case Err(e) => Err(e)
  }

  /** `z.string().email(...).trim()`: the address check sees the untrimmed string. */
  function EmailField(v: Option<Json>, isEmail: string -> bool): (r: Result<string, string>)
    ensures r.Ok? <==> v.Some? && v.value.Str? && isEmail(v.value.s)
    ensures r.Ok? ==> r.value == Trim(v.value.s)
  {
    match Zod.EmailString(v, isEmail, EmailMessage)
    case Ok(s) => Ok(Trim(s))
    case Err(e) => Err(e)
  }

  /** `z.boolean().refine(val => val === true, ...)` */
  function ConsentField(v: Option<Json>): (r: Result<bool, string>)
    ensures r.Ok? <==> v == Some(Bool(true))
    ensures r == Err(ConsentMessage) <==> v == Some(Bool(false))
  {
    match v
    case None => Err("Required")
    case Some(Bool(b)) => if b then Ok(true) else Err(ConsentMessage)
    case Some(j) => Err(Zod.Expected("boolean", j))
  }

  function FirstNameCheck(body: Body): Result<string, string> {
    StringField(Get(body, "firstName"), 2, FirstNameMessage)
  }

  function EmailCheck(body: Body, isEmail: string -> bool): Result<string, string> {
    EmailField(Get(body, "email"), isEmail)
  }

  function QuestionCheck(body: Body): Result<string, string> {
    StringField(Get(body, "question"), 5, QuestionMessage)
  }

  function ConsentCheck(body: Body): Result<bool, string> {
    ConsentField(Get(body, "consent"))
  }

  /** The parsed submission, `validationResult.data`. */
  datatype Submission = Submission(firstName: string, email: string, question: string, consent: bool)

  /** The four fields of `submissionSchema`. */
  datatype Field = FirstName | Email | Question | Consent

  /** The key under which a field's errors appear in the reply. */
  function FieldName(f: Field): string {
    match f
    case FirstName => "firstName"
    case Email => "email"
    case Question => "question"
    case Consent => "consent"
  }

  /** The entry a failing field contributes to `error.flatten().fieldErrors`. */
  function Entry<T>(field: Field, r: Result<T, string>): map<Field, seq<string>> {
    if r.Err? then map[field := [r.error]] else map[]
  }

  /** `error.flatten().fieldErrors`: one entry, holding its message, for each failing field. */
  function FieldErrors<A, B, C, D>(f: Result<A, string>, e: Result<B, string>, q: Result<C, string>,
                                   c: Result<D, string>): (m: map<Field, seq<string>>)
    ensures m == map[] <==> f.Ok? && e.Ok? && q.Ok? && c.Ok?
    ensures (FirstName in m <==> f.Err?) && (Email in m <==> e.Err?)
    ensures (Question in m <==> q.Err?) && (Consent in m <==> c.Err?)
    ensures f.Err? ==> m[FirstName] == [f.error]
    ensures e.Err? ==> m[Email] == [e.error]
    ensures q.Err? ==> m[Question] == [q.error]
    ensures c.Err? ==> m[Consent] == [c.error]
  {
    var m := Entry(FirstName, f) + Entry(Email, e) + Entry(Question, q) + Entry(Consent, c);
    assert f.Err? ==> FirstName in m;
    assert e.Err? ==> Email in m;
    assert q.Err? ==> Question in m;
    assert c.Err? ==> Consent in m;
    m
  }

  /**
   * `submissionSchema.safeParse(data)`: every field is checked, and on failure
   * the field-error map has one entry, holding that field's message, for each
   * failing field and no other.
   */
  function Validate(body: Body, isEmail: string -> bool): (r: Result<Submission, map<Field, seq<string>>>)
    ensures r.Ok? <==>
      FirstNameCheck(body).Ok? && EmailCheck(body, isEmail).Ok? && QuestionCheck(body).Ok? && ConsentCheck(body).Ok?
    ensures r.Ok? ==> r.value == Submission(FirstNameCheck(body).value, EmailCheck(body, isEmail).value,
                                            QuestionCheck(body).value, true)
    ensures r.Err? ==> r.error != map[]
    ensures r.Err? ==> (FirstName in r.error <==> FirstNameCheck(body).Err?)
    ensures r.Err? ==> (Email in r.error <==> EmailCheck(body, isEmail).Err?)
    ensures r.Err? ==> (Question in r.error <==> QuestionCheck(body).Err?)
    ensures r.Err? ==> (Consent in r.error <==> ConsentCheck(body).Err?)
    ensures r.Err? && FirstName in r.error ==> r.error[FirstName] == [FirstNameCheck(body).error]
    ensures r.Err? && Email in r.error ==> r.error[Email] == [EmailCheck(body, isEmail).error]
    ensures r.Err? && Question in r.error ==> r.error[Question] == [QuestionCheck(body).error]
    ensures r.Err? && Consent in r.error ==> r.error[Consent] == [ConsentCheck(body).error]
  {
    var f, e, q, c := FirstNameCheck(body), EmailCheck(body, isEmail), QuestionCheck(body), ConsentCheck(body);
    if f.Ok? && e.Ok? && q.Ok? && c.Ok? then
      Ok(Submission(f.value, e.value, q.value, c.value))
    else
      Err(FieldErrors(f, e, q, c))
  }

  /** The three strings of a validated submission are trimmed, and consent is true. */
  lemma ValidatedIsTrimmed(body: Body, isEmail: string -> bool)
    requires Validate(body, isEmail).Ok?
    ensures var v := Validate(body, isEmail).value;
      Trim(v.firstName) == v.firstName && Trim(v.email) == v.email && Trim(v.question) == v.question
      && v.consent
  {
    TrimIdempotent(body["firstName"].s);
    TrimIdempotent(body["email"].s);
    TrimIdempotent(body["question"].s);
  }

  /**
   * Because the length is checked before trimming, five spaces pass the
   * question's minimum and become an empty question.
   */
  lemma BlankQuestionAccepted(isEmail: string -> bool)
    requires isEmail("ann@example.com")
    ensures var r := Validate(map["firstName" := Str("Ann"), "email" := Str("ann@example.com"),
                                  "question" := Str("     "), "consent" := Bool(true)], isEmail);
      r.Ok? && r.value.question == ""
  {
    var body := map["firstName" := Str("Ann"), "email" := Str("ann@example.com"),
                    "question" := Str("     "), "consent" := Bool(true)];
    TrimEmpty("     ");
    assert QuestionCheck(body) == Ok("");
  }

  /**
   * The minimum length counts UTF-16 code units as JavaScript does: a single
   * emoji (one character above U+FFFF, two code units) passes `min(2)`, while
   * a single letter does not.
   */
  lemma MinCountsCodeUnits()
    ensures FirstNameCheck(map["firstName" := Str("\U{1F600}")]) == Ok("\U{1F600}")
    ensures FirstNameCheck(map["firstName" := Str("A")]) == Err(FirstNameMessage)
  {
    assert Utf16Length("\U{1F600}") == 2;
    TrimOfTrimmed("\U{1F600}");
  }

  /** The module-level clients, as the environment configures them. */
  datatype Config = Config(
    supabaseUrl: string, supabaseKey: string,
    brevoApiKey: string, brevoListId: string,
    clickupApiToken: string, clickupListId: string)

  predicate SupabaseConfigured(c: Config) { c.supabaseUrl != "" && c.supabaseKey != "" }
  predicate BrevoConfigured(c: Config) { c.brevoApiKey != "" }
  predicate ClickUpConfigured(c: Config) { c.clickupApiToken != "" && c.clickupListId != "" }

  /** The row inserted into `contact_submissions`. */
  datatype SubmissionRow = SubmissionRow(firstName: string, email: string, question: string, consent: bool, createdAt: string)

  /** The `contactData` given to Brevo's `createContact`. */
  datatype BrevoContact = BrevoContact(
    email: string, attributes: map<string, string>, updateEnabled: bool, listIds: Option<seq<nat>>)

  /** `brevoListId && !isNaN(brevoListId)`, with "numeric" read as a string of decimal digits. */
  predicate NumericListId(listId: string) {
    listId != "" && AllDigits(listId)
  }

  /** `contactData`, with `listIds` added only for a numeric list id. */
  function ContactData(v: Submission, listId: string): (c: BrevoContact)
    ensures c.email == v.email && c.attributes == map["FIRSTNAME" := v.firstName]
    ensures c.updateEnabled
    ensures c.listIds.Some? <==> NumericListId(listId)
  {
    BrevoContact(v.email, map["FIRSTNAME" := v.firstName], true,
                 if NumericListId(listId) then Some([DigitsValue(listId)]) else None)
  }

  /** A list id written the way `String(n)` writes `n` lands in the contact as `[n]`. */
  lemma ListIdRoundTrip(v: Submission, n: nat)
    ensures ContactData(v, NatToString(n)).listIds == Some([n])
  {
    NatToStringRoundTrip(n);
  }

  /** `new Date().toISOString().split('T')[0]`: the text before the first 'T'. */
  function DatePart(iso: string): (d: string)
    ensures StartsWith(iso, d)
    ensures forall i :: 0 <= i < |d| ==> d[i] != 'T'
    ensures |d| < |iso| ==> iso[|d|] == 'T'
  {
    if iso == [] || iso[0] == 'T' then [] else [iso[0]] + DatePart(iso[1..])
  }

  function TaskName(v: Submission, now: string): string {
    "Contact: " + v.firstName + " (" + v.email + ") - " + DatePart(now)
  }

  /** The lines of the description's template from "Contact Information:" to "Question:". */
  function DescriptionHeader(v: Submission): string {
    "Contact Information:\nName: " + v.firstName + "\nEmail: " + v.email
    + "\nConsent: " + YesNo(v.consent) + "\n\nQuestion:"
  }

  function YesNo(b: bool): string {
    if b then "Yes" else "No"
  }

  /** The indentation of the template's closing line. */
  const Indentation := "          "

  /** The description's template string, before trimming. */
  function DescriptionTemplate(v: Submission): string {
    "\n" + DescriptionHeader(v) + "\n" + v.question + "\n" + Indentation
  }

  /** The task description: the template string, trimmed. */
  function TaskDescription(v: Submission): string {
    Trim(DescriptionTemplate(v))
  }

  /**
   * Trimming removes only the template's leading newline and trailing
   * indentation; an empty question leaves the text ending at "Question:".
   */
  lemma DescriptionShape(v: Submission)
    requires v.question == [] || !IsSpace(v.question[|v.question| - 1])
    ensures TaskDescription(v) == DescriptionHeader(v) + (if v.question == [] then "" else "\n" + v.question)
  {
    var head := DescriptionHeader(v);
    var core := head + (if v.question == [] then "" else "\n" + v.question);
    var tail := if v.question == [] then "\n\n" + Indentation else "\n" + Indentation;
    assert DescriptionTemplate(v) == "\n" + core + tail;
    assert head[0] == 'C' && head[|head| - 1] == ':';
    assert core[|core| - 1] == ':' || core[|core| - 1] == v.question[|v.question| - 1];
    assert forall i :: 0 <= i < |tail| ==> IsSpace(tail[i]);
    TrimFramed("\n", core, tail);
  }

  /** The body posted to ClickUp's `/list/{id}/task`. */
  datatype TaskPayload = TaskPayload(name: string, description: string)

  datatype Call =
    | InsertSubmission(row: SubmissionRow)
    | CreateBrevoContact(contact: BrevoContact)
    | PostClickUpTask(path: string, task: TaskPayload)

  /** What the insert returned: the new row's id, or an error. */
  datatype InsertOutcome = Inserted(id: int) | InsertFailed

  /** One entry of the array `Promise.allSettled` resolves to. */
  datatype Settled = FulfilledWithNull | Fulfilled | Rejected

  /** A started integration settles as its outcome; one never started settles as null. */
  function Settle(started: bool, fails: bool): Settled {
    if !started then FulfilledWithNull else if fails then Rejected else Fulfilled
  }

  datatype Reply =
    | Failure(status: nat, error: string, details: string)
    | ValidationFailed(fieldErrors: map<Field, seq<string>>)
    | Accepted(message: string, supabaseId: int)

  /** The HTTP status of a reply; a `NextResponse.json` without a status is 200. */
  function Status(r: Reply): nat {
    match r
    case Failure(s, _, _) => s
    case ValidationFailed(_) => 400
    case Accepted(_, _) => 200
  }

  /** The calls made to the two integrations after a successful insert. */
  function IntegrationCalls(v: Submission, config: Config, now: string): seq<Call> {
    (if BrevoConfigured(config) then [CreateBrevoContact(ContactData(v, config.brevoListId))] else [])
    + (if ClickUpConfigured(config)
       then [PostClickUpTask("/list/" + config.clickupListId + "/task", TaskPayload(TaskName(v, now), TaskDescription(v)))]
       else [])
  }

  /**
   * `POST`. `body` is `None` when the request is not valid JSON; `insertedAt`
   * and `taskTime` are the two readings of the clock; `brevoFails` and
   * `clickupFails` say whether each integration, if started, rejects.
   * `settled` is the pair of results the handler logs.
   */
  method Post(body: Option<Body>, isEmail: string -> bool, config: Config, insertedAt: string, taskTime: string,
              insert: InsertOutcome, brevoFails: bool, clickupFails: bool)
    returns (reply: Reply, calls: seq<Call>, settled: seq<Settled>)
    ensures body.None? ==>
      reply == Failure(400, "Invalid request format", "Request body must be valid JSON") && calls == []
    ensures body.Some? && Validate(body.value, isEmail).Err? ==>
      reply == ValidationFailed(Validate(body.value, isEmail).error) && calls == []
    ensures body.Some? && Validate(body.value, isEmail).Ok? && !SupabaseConfigured(config) ==>
      reply == Failure(500, "Server configuration error", "Database is not properly configured") && calls == []
    // the insert is attempted exactly when the body is valid and the database configured
    ensures calls != [] <==> body.Some? && Validate(body.value, isEmail).Ok? && SupabaseConfigured(config)
    ensures calls != [] ==> calls[0] == InsertSubmission(
      var v := Validate(body.value, isEmail).value;
      SubmissionRow(v.firstName, v.email, v.question, v.consent, insertedAt))
    // an insert error stops the request before either integration
    ensures calls != [] && insert.InsertFailed? ==>
      reply == Failure(500, "Database error", "Failed to save submission") && |calls| == 1
    // after a successful insert the reply is success whatever the integrations do
    ensures reply.Accepted? <==> calls != [] && insert.Inserted?
    ensures reply.Accepted? ==> reply == Accepted(SuccessMessage, insert.id)
    ensures reply.Accepted? ==>
      calls == [calls[0]] + IntegrationCalls(Validate(body.value, isEmail).value, config, taskTime)
      && settled == [Settle(BrevoConfigured(config), brevoFails), Settle(ClickUpConfigured(config), clickupFails)]
    ensures !reply.Accepted? ==> settled == []
    ensures Status(reply) in {200, 400, 500}
  {
    settled := [];
    if body.None? {
      return Failure(400, "Invalid request format", "Request body must be valid JSON"), [], [];
    }
    var validation := Validate(body.value, isEmail);
    if validation.Err? {
      return ValidationFailed(validation.error), [], [];
    }
    var v := validation.value;
    if !SupabaseConfigured(config) {
      return Failure(500, "Server configuration error", "Database is not properly configured"), [], [];
    }
    calls := [InsertSubmission(SubmissionRow(v.firstName, v.email, v.question, v.consent, insertedAt))];
    if insert.InsertFailed? {
      return Failure(500, "Database error", "Failed to save submission"), calls, [];
    }
    var brevoResult, brevoCalls := FulfilledWithNull, [];
    if BrevoConfigured(config) {
      brevoCalls := [CreateBrevoContact(ContactData(v, config.brevoListId))];
      brevoResult := if brevoFails then Rejected else Fulfilled;
    }
    var clickupResult, clickupCalls := FulfilledWithNull, [];
    if ClickUpConfigured(config) {
      var task := TaskPayload(TaskName(v, taskTime), TaskDescription(v));
      clickupCalls := [PostClickUpTask("/list/" + config.clickupListId + "/task", task)];
      clickupResult := if clickupFails then Rejected else Fulfilled;
    }
    calls := calls + (brevoCalls + clickupCalls);
    settled := [brevoResult, clickupResult];
    reply := Accepted(SuccessMessage, insert.id);
  }
}
