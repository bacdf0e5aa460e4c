/**
 * server/routes/contact.ts: `createContact`, which falls back to looking up
 * and updating a contact the SDK reports as existing, and `sendEmail`, which
 * supplies a default sender.
 *
 * `BREVO_API_KEY` is a parameter ("" when unset), and so is the outcome of
 * every SDK call: what it resolved with, or the error it threw.
 */
module ContactRoutes {
  import opened Outcomes
  import opened JsonValue
  import opened BrevoSdk

  /** `CreateContactParams` */
  datatype ContactParams = ContactParams(
    email: string, firstName: Option<string>, lastName: Option<string>, attributes: Option<Body>,
    listIds: Option<seq<int>>)

  /** What a call throws: an SDK error passed on unchanged, or a new `Error` with a message. */
  datatype Thrown = Rethrown(error: SdkError) | Raised(message: string)

  /** The SDK calls made, in order. */
  datatype Call =
    | CreateCall(params: ContactParams)
    | LookupCall(email: string)
    | UpdateCall(id: Json, params: ContactParams)
    | SendCall(message: EmailParams)

  const KeyMissing := "BREVO_API_KEY environment variable is not set"
  const NoContactId := "Failed to get contact ID"

  /** The create failed because the contact exists: the body's message says "already exists". */
  predicate IsDuplicate(e: SdkError) {
    AlreadyExists(BodyField(e, "message"))
  }

  /**
   * `updateParams`: the original parameters except for the attributes, which
   * are the stored ones with the new ones spread over them.
   */
  function UpdateParams(params: ContactParams, existing: ContactRecord): (u: ContactParams)
    ensures u.email == params.email && u.firstName == params.firstName && u.lastName == params.lastName
    ensures u.listIds == params.listIds
    ensures u.attributes == Some(Spread(existing.attributes.GetOr(map[]), params.attributes.GetOr(map[])))
  {
    params.(attributes := Some(Spread(existing.attributes.GetOr(map[]), params.attributes.GetOr(map[]))))
  }

  /** Updating a second time with the same parameters leaves the merged attributes as they are. */
  lemma UpdateParamsSettle(params: ContactParams, existing: ContactRecord)
    ensures UpdateParams(params, ContactRecord(existing.fields, UpdateParams(params, existing).attributes))
            == UpdateParams(params, existing)
  {
    SpreadAgain(existing.attributes.GetOr(map[]), params.attributes.GetOr(map[]));
  }

  /**
   * `createContact`. `create`, `lookup` and `update` are the outcomes the
   * three SDK calls would have; `calls` are the calls actually made.
   */
  method CreateContact(apiKey: string, params: ContactParams, create: Result<ContactRecord, SdkError>,
                       lookup: Result<ContactRecord, SdkError>, update: Result<ContactRecord, SdkError>)
    returns (r: Result<ContactRecord, Thrown>, calls: seq<Call>)
    ensures apiKey == "" ==> r == Err(Raised(KeyMissing)) && calls == []
    ensures apiKey != "" ==> 1 <= |calls| <= 3 && calls[0] == CreateCall(params)
    // a successful create is returned as is
    ensures apiKey != "" && create.Ok? ==> r == Ok(create.value) && |calls| == 1
    // any other error is passed on unchanged
    ensures apiKey != "" && create.Err? && !IsDuplicate(create.error) ==>
      r == Err(Rethrown(create.error)) && |calls| == 1
    ensures |calls| >= 2 <==> apiKey != "" && create.Err? && IsDuplicate(create.error)
    ensures |calls| >= 2 ==> calls[1] == LookupCall(params.email)
    ensures |calls| >= 2 && lookup.Err? ==> r == Err(Rethrown(lookup.error)) && |calls| == 2
    ensures |calls| >= 2 && lookup.Ok? && !Truthy(Get(lookup.value.fields, "id")) ==>
      r == Err(Raised(NoContactId)) && |calls| == 2
    ensures |calls| == 3 <==>
      |calls| >= 2 && lookup.Ok? && Truthy(Get(lookup.value.fields, "id"))
    // the update's own answer is returned
    ensures |calls| == 3 ==>
      calls[2] == UpdateCall(lookup.value.fields["id"], UpdateParams(params, lookup.value))
      && r == (match update case Ok(u) => Ok(u) case Err(e) => Err(Rethrown(e)))
  {
    if apiKey == "" {
      return Err(Raised(KeyMissing)), [];
    }
    calls := [CreateCall(params)];
    match create
    case Ok(createResponse) =>
      r := Ok(createResponse);
    case Err(error) =>
      if !IsDuplicate(error) {
        return Err(Rethrown(error)), calls;
      }
      calls := calls + [LookupCall(params.email)];
      if lookup.Err? {
        return Err(Rethrown(lookup.error)), calls;
      }
      var getResponse := lookup.value;
      if !Truthy(Get(getResponse.fields, "id")) {
        return Err(Raised(NoContactId)), calls;
      }
      var updateParams := UpdateParams(params, getResponse);
      calls := calls + [UpdateCall(getResponse.fields["id"], updateParams)];
      match update
      case Ok(updateResponse) => r := Ok(updateResponse);
      case Err(e) => r := Err(Rethrown(e));
  }

  /** `SendEmailParams`, with the sender a caller may pass along. */
  datatype EmailParams = EmailParams(
    to: seq<Recipient>, subject: string, htmlContent: string, textContent: Option<string>,
    params: Option<Body>, tags: Option<seq<string>>, sender: Option<Sender>)

  const DefaultSender := Sender("noreply@advelocity.ai", "AdVelocity")

  /** `{ sender: <default>, ...params }`: the caller's sender, if any, wins; nothing else changes. */
  function EmailWithSender(params: EmailParams): (e: EmailParams)
    ensures e.sender.Some?
    ensures params.sender.Some? ==> e == params
    ensures params.sender.None? ==> e == params.(sender := Some(DefaultSender))
  {
    if params.sender.Some? then params else params.(sender := Some(DefaultSender))
  }

  /** `sendEmail`: a missing key throws; otherwise the email with its sender, and the SDK's answer or error. */
  method SendEmail(apiKey: string, params: EmailParams, outcome: Result<Json, SdkError>)
    returns (r: Result<Json, Thrown>, calls: seq<Call>)
    ensures apiKey == "" ==> r == Err(Raised(KeyMissing)) && calls == []
    ensures apiKey != "" ==> calls == [SendCall(EmailWithSender(params))]
    ensures apiKey != "" ==> r == (match outcome case Ok(v) => Ok(v) case Err(e) => Err(Rethrown(e)))
  {
    if apiKey == "" {
      return Err(Raised(KeyMissing)), [];
    }
    var emailParams := EmailWithSender(params);
    calls := [SendCall(emailParams)];
    match outcome
    case Ok(response) => r := Ok(response);
    case Err(error) => r := Err(Rethrown(error));
  }
}
