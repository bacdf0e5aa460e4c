/**
 * The `POST` handler of app/api/leads/route.ts: `leadSchema.parse`, the
 * service-key check, the `insertData` record for the `leads` table, and the
 * mapping of each outcome to an HTTP status.
 */
module LeadsRoute {
  import opened Outcomes
  import opened JsonValue
  import Zod

  /** The fields of `leadSchema`, in the order it declares them. */
  datatype Field = FirstName | Email | Question | Name | Phone | Message | Source

  const Schema: seq<Field> := [FirstName, Email, Question, Name, Phone, Message, Source]

  /** The key a field is read from. */
  function Key(f: Field): string {
    match f
    case FirstName => "first_name"
    case Email => "email"
    case Question => "question"
    case Name => "name"
    case Phone => "phone"
    case Message => "message"
    case Source => "source"
  }

  /** The message a field's check gives, if it fails. */
  function FieldError(body: Body, isEmail: string -> bool, f: Field): Option<string> {
    var v := Get(body, Key(f));
    match f
    case FirstName => Zod.ErrorOf(Zod.RequiredString(v, 1, "First name is required"))
    case Email => Zod.ErrorOf(Zod.EmailString(v, isEmail, "Invalid email address"))
    case Question => Zod.ErrorOf(Zod.RequiredString(v, 1, "Question is required"))
    case _ => Zod.ErrorOf(Zod.OptionalString(v))
  }

  /** Each field of the schema, in order, with the message of its check if it fails. */
  function Checks(body: Body, isEmail: string -> bool): (c: seq<(Field, Option<string>)>)
    ensures |c| == |Schema|
    ensures forall i :: 0 <= i < |c| ==> c[i] == (Schema[i], FieldError(body, isEmail, Schema[i]))
  {
    seq(|Schema|, i requires 0 <= i < |Schema| => (Schema[i], FieldError(body, isEmail, Schema[i])))
  }

  /** Every failing field has its issue, and every issue is a failing field's. */
  lemma IssuesNameFailingFields(body: Body, isEmail: string -> bool, f: Field, message: string)
    ensures Zod.Issue(f, message) in Zod.Issues(Checks(body, isEmail)) <==> FieldError(body, isEmail, f) == Some(message)
  {
    var checks := Checks(body, isEmail);
    var i := match f
      case FirstName => 0 case Email => 1 case Question => 2 case Name => 3
      case Phone => 4 case Message => 5 case Source => 6;
    assert Schema[i] == f;
    if (f, Some(message)) in checks {
      var j :| 0 <= j < |checks| && checks[j] == (f, Some(message));
      assert Schema[j] == f;
    }
  }

  /** The parsed lead. */
  datatype Lead = Lead(
    firstName: string, email: string, question: string,
    name: Option<string>, phone: Option<string>, message: Option<string>, source: Option<string>)

  /** The text of a string value; every other value reads as "". */
  function StringValue(v: Option<Json>): string {
    if v.Some? && v.value.Str? then v.value.s else ""
  }

  /** The text of an optional string value that is present. */
  function OptionalStringValue(v: Option<Json>): Option<string> {
    if v.Some? && v.value.Str? then Some(v.value.s) else None
  }

  /**
   * `leadSchema.parse(body)`: the lead when no field fails its check,
   * otherwise the issues of the failing fields in schema order.
   */
  function Validate(body: Body, isEmail: string -> bool): (r: Result<Lead, seq<Zod.Issue<Field>>>)
    ensures r.Ok? <==> Zod.Issues(Checks(body, isEmail)) == []
    ensures r.Err? ==> r.error == Zod.Issues(Checks(body, isEmail))
  {
    var issues := Zod.Issues(Checks(body, isEmail));
    if issues == [] then
      Ok(Lead(StringValue(Get(body, "first_name")), StringValue(Get(body, "email")), StringValue(Get(body, "question")),
              OptionalStringValue(Get(body, "name")), OptionalStringValue(Get(body, "phone")),
              OptionalStringValue(Get(body, "message")), OptionalStringValue(Get(body, "source"))))
    else
      Err(issues)
  }

  /**
   * A parsed lead carries the body's own first name, email and question,
   * the first and last non-empty and the email accepted by `isEmail`, and
   * each optional field exactly when the body has it.
   */
  lemma ValidLeadFields(body: Body, isEmail: string -> bool)
    requires Validate(body, isEmail).Ok?
    ensures var lead := Validate(body, isEmail).value;
      Get(body, "first_name") == Some(Str(lead.firstName)) && |lead.firstName| >= 1
      && Get(body, "email") == Some(Str(lead.email)) && isEmail(lead.email)
      && Get(body, "question") == Some(Str(lead.question)) && |lead.question| >= 1
      && (lead.name.Some? <==> "name" in body) && (lead.phone.Some? <==> "phone" in body)
      && (lead.message.Some? <==> "message" in body) && (lead.source.Some? <==> "source" in body)
    // a present optional field is the body's own string
    ensures var lead := Validate(body, isEmail).value;
      && (lead.name.Some? ==> Get(body, "name") == Some(Str(lead.name.value)))
      && (lead.phone.Some? ==> Get(body, "phone") == Some(Str(lead.phone.value)))
      && (lead.message.Some? ==> Get(body, "message") == Some(Str(lead.message.value)))
      && (lead.source.Some? ==> Get(body, "source") == Some(Str(lead.source.value)))
  {
    var checks := Checks(body, isEmail);
    assert checks[0].1.None? && checks[1].1.None? && checks[2].1.None? && checks[3].1.None?;
    assert checks[4].1.None? && checks[5].1.None? && checks[6].1.None?;
  }

  /** `v` in a truthy test: present and not the empty string. */
  predicate Given(v: Option<string>) {
    v.Some? && v.value != ""
  }

  /**
   * The `insertData` record: the three required fields, `source` defaulting
   * to "website", then name, phone and message each added only when given.
   */
  predicate IsInsertData(lead: Lead, row: map<string, string>) {
    && row.Keys == {"first_name", "email", "question", "source"}
      + (if Given(lead.name) then {"name"} else {})
      + (if Given(lead.phone) then {"phone"} else {})
      + (if Given(lead.message) then {"message"} else {})
    && row["first_name"] == lead.firstName && row["email"] == lead.email && row["question"] == lead.question
    && row["source"] == (if Given(lead.source) then lead.source.value else "website")
    && (Given(lead.name) ==> row["name"] == lead.name.value)
    && (Given(lead.phone) ==> row["phone"] == lead.phone.value)
    && (Given(lead.message) ==> row["message"] == lead.message.value)
  }

  /** The description of `insertData` leaves no freedom: one row per lead. */
  lemma InsertDataUnique(lead: Lead, row1: map<string, string>, row2: map<string, string>)
    requires IsInsertData(lead, row1) && IsInsertData(lead, row2)
    ensures row1 == row2
  {
    forall k | k in row1.Keys
      ensures row1[k] == row2[k]
    {
      assert k in {"first_name", "email", "question", "source", "name", "phone", "message"};
    }
  }

  /** Builds `insertData` for a parsed lead, one optional field at a time. */
  method BuildInsertData(lead: Lead) returns (row: map<string, string>)
    ensures IsInsertData(lead, row)
  {
    row := map[
      "first_name" := lead.firstName,
      "email" := lead.email,
      "question" := lead.question,
      "source" := if Given(lead.source) then lead.source.value else "website"];
    if Given(lead.name) {
      row := row["name" := lead.name.value];
    }
    if Given(lead.phone) {
      row := row["phone" := lead.phone.value];
    }
    if Given(lead.message) {
      row := row["message" := lead.message.value];
    }
  }

  /** What the insert returned: the new row's id, or Supabase's error. */
  datatype InsertOutcome = Inserted(id: Json) | InsertFailed(message: string, code: string)

  datatype Reply =
    | Failure(status: nat, error: string)
    | ValidationFailed(issues: seq<Zod.Issue<Field>>)
    | SaveFailed(details: string, code: string)
    | Created(message: string, leadId: Json)

  function Status(r: Reply): nat {
    match r
    case Failure(s, _) => s
    case ValidationFailed(_) => 400
    case SaveFailed(_, _) => 500
    case Created(_, _) => 201
  }

  /**
   * `POST`. `body` is `None` when the request is not valid JSON; the URL and
   * key are the environment's ("" when unset); `insert` is what Supabase
   * answers. `row` is the record inserted, if any.
   */
  method Post(body: Option<Body>, isEmail: string -> bool, supabaseUrl: string, serviceKey: string,
              insert: InsertOutcome)
    returns (reply: Reply, row: Option<map<string, string>>)
    // an unreadable body is not a validation error: the catch-all answers
    ensures body.None? ==> reply == Failure(500, "Internal server error") && row.None?
    ensures body.Some? && Validate(body.value, isEmail).Err? ==>
      reply == ValidationFailed(Validate(body.value, isEmail).error) && row.None?
    // the key is checked only for a valid lead, and before any insert
    ensures body.Some? && Validate(body.value, isEmail).Ok? && serviceKey == "" ==>
      reply == Failure(500, "Service role key not configured") && row.None?
    // `createClient` throws on an empty URL
    ensures body.Some? && Validate(body.value, isEmail).Ok? && serviceKey != "" && supabaseUrl == "" ==>
      reply == Failure(500, "Internal server error") && row.None?
    ensures row.Some? <==> body.Some? && Validate(body.value, isEmail).Ok? && serviceKey != "" && supabaseUrl != ""
    // the row inserted is the `insertData` of the validated lead
    ensures row.Some? ==> IsInsertData(Validate(body.value, isEmail).value, row.value)
    ensures row.Some? && insert.InsertFailed? ==> reply == SaveFailed(insert.message, insert.code)
    ensures reply.Created? <==> row.Some? && insert.Inserted?
    ensures reply.Created? ==> reply == Created("Lead saved successfully", insert.id)
    ensures Status(reply) in {201, 400, 500}
  {
    row := None;
    if body.None? {
      return Failure(500, "Internal server error"), None;
    }
    var validation := Validate(body.value, isEmail);
    if validation.Err? {
      return ValidationFailed(validation.error), None;
    }
    if serviceKey == "" {
      return Failure(500, "Service role key not configured"), None;
    }
    if supabaseUrl == "" {
      return Failure(500, "Internal server error"), None;
    }
    var insertData := BuildInsertData(validation.value);
    row := Some(insertData);
    match insert {
      case InsertFailed(message, code) =>
        reply := SaveFailed(message, code);
      case Inserted(id) =>
        reply := Created("Lead saved successfully", id);
    }
  }
}
