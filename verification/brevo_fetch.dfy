/**
 * server/utils/brevo.ts: `sendEmail` and `createContact` over Brevo's REST
 * API with `fetch`. A contact that already exists is looked up and updated,
 * its stored attributes overridden key by key by the new ones.
 *
 * `BREVO_API_KEY` is a parameter ("" when unset), and so is every response
 * a `fetch` resolves with.
 */
module BrevoFetch {
  import opened Outcomes
  import opened Text
  import opened JsonValue
  import opened BrevoSdk

  const ApiUrl := "https://api.brevo.com/v3"

  /** `CreateContactParams`, sent as the request body. */
  datatype ContactParams = ContactParams(
    email: string, firstName: Option<string>, lastName: Option<string>, phone: Option<string>,
    listId: Option<int>, attributes: Option<Body>)

  /** The parameters of `sendEmail`. */
  datatype EmailParams = EmailParams(to: seq<Recipient>, subject: string, htmlContent: string, sender: Option<Sender>)

  /** The body posted to `/smtp/email`. */
  datatype EmailBody = EmailBody(subject: string, htmlContent: string, sender: Sender, to: seq<Recipient>)

  /** A response: its status, its status text and its JSON body. */
  datatype Response<T> = Response(status: int, statusText: string, data: T)

  /** `response.ok` */
  predicate IsOk(status: int) {
    200 <= status <= 299
  }

  /** The requests sent, in order. */
  datatype Request =
    | PostContact(url: string, contact: ContactParams)
    | GetContact(url: string)
    | PutContact(url: string, contact: ContactParams)
    | PostEmail(url: string, email: EmailBody)

  const KeyMissing := "BREVO_API_KEY environment variable is not set"
  const DefaultSender := Sender("noreply@physiqfitness.com", "Physiq Fitness Website")

  /**
   * `sendEmail`: without a key nothing is sent and nothing is returned;
   * otherwise the email goes out from the given sender or the default one,
   * and a non-OK response throws with its status text.
   */
  method SendEmail(apiKey: string, params: EmailParams, response: Response<Body>)
    returns (r: Result<Option<Body>, string>, calls: seq<Request>)
    ensures apiKey == "" ==> r == Ok(None) && calls == []
    ensures apiKey != "" ==>
      calls == [PostEmail(ApiUrl + "/smtp/email",
                          EmailBody(params.subject, params.htmlContent, params.sender.GetOr(DefaultSender), params.to))]
    ensures apiKey != "" && IsOk(response.status) ==> r == Ok(Some(response.data))
    ensures apiKey != "" && !IsOk(response.status) ==> r == Err("Failed to send email: " + response.statusText)
  {
    if apiKey == "" {
      return Ok(None), [];
    }
    var sender := if params.sender.Some? then params.sender.value else DefaultSender;
    calls := [PostEmail(ApiUrl + "/smtp/email", EmailBody(params.subject, params.htmlContent, sender, params.to))];
    if !IsOk(response.status) {
      return Err("Failed to send email: " + response.statusText), calls;
    }
    r := Ok(Some(response.data));
  }

  /** The create was refused because the contact exists: a 400 whose message says "already exists". */
  predicate IsDuplicate(create: Response<ContactRecord>) {
    create.status == 400 && AlreadyExists(Get(create.data.fields, "message"))
  }

  /**
   * The body of the update: the parameters as given, except that the
   * attributes are the stored ones with the new ones spread over them.
   */
  function UpdateBody(params: ContactParams, existing: ContactRecord): (u: ContactParams)
    ensures u.email == params.email && u.firstName == params.firstName && u.lastName == params.lastName
    ensures u.phone == params.phone && u.listId == params.listId
    ensures u.attributes == Some(Spread(existing.attributes.GetOr(map[]), params.attributes.GetOr(map[])))
  {
    params.(attributes := Some(Spread(existing.attributes.GetOr(map[]), params.attributes.GetOr(map[]))))
  }

  /** Every stored attribute survives the update, and every new attribute wins over a stored one. */
  lemma UpdateKeepsStoredAttributes(params: ContactParams, existing: ContactRecord, key: string)
    requires existing.attributes.Some? && key in existing.attributes.value
    ensures key in UpdateBody(params, existing).attributes.value
    ensures params.attributes.Some? && key in params.attributes.value ==>
      UpdateBody(params, existing).attributes.value[key] == params.attributes.value[key]
    ensures params.attributes.None? || key !in params.attributes.value ==>
      UpdateBody(params, existing).attributes.value[key] == existing.attributes.value[key]
  {
  }

  /** `error.message || 'Failed to create contact'` for the body of a refused create. */
  function CreateError(data: Body): (t: string)
    ensures t != ""
    ensures Truthy(Get(data, "message")) ==> t == ToJsString(Get(data, "message"))
  {
    if Truthy(Get(data, "message")) then
      TruthyText(Get(data, "message"));
      ToJsString(Get(data, "message"))
    else "Failed to create contact"
  }

  const RetrieveFailed := "Failed to retrieve existing contact"
  const UpdateFailed := "Failed to update existing contact"

  /**
   * `createContact`. `create`, `lookup` and `updateStatus` are what the
   * create, the lookup and the update would answer; `calls` are the
   * requests actually sent. A missing key throws before any request.
   */
  method CreateContact(apiKey: string, params: ContactParams, create: Response<ContactRecord>,
                       lookup: Response<ContactRecord>, updateStatus: int)
    returns (r: Result<ContactRecord, string>, calls: seq<Request>)
    ensures apiKey == "" ==> r == Err(KeyMissing) && calls == []
    ensures apiKey != "" ==> 1 <= |calls| <= 3 && calls[0] == PostContact(ApiUrl + "/contacts", params)
    // only a duplicate leads to the lookup, and only a found contact to the update
    ensures |calls| >= 2 <==> apiKey != "" && IsDuplicate(create)
    ensures |calls| >= 2 ==> calls[1] == GetContact(ApiUrl + "/contacts/" + params.email)
    ensures |calls| == 3 <==> apiKey != "" && IsDuplicate(create) && IsOk(lookup.status)
    ensures |calls| == 3 ==>
      calls[2] == PutContact(ApiUrl + "/contacts/" + ToJsString(Get(lookup.data.fields, "id")),
                             UpdateBody(params, lookup.data))
    // on the duplicate path the looked-up contact is returned, not the update's answer
    ensures |calls| >= 2 ==>
      r == (if !IsOk(lookup.status) then Err(RetrieveFailed)
            else if !IsOk(updateStatus) then Err(UpdateFailed)
            else Ok(lookup.data))
    ensures |calls| == 1 ==>
      r == (if IsOk(create.status) then Ok(create.data) else Err(CreateError(create.data.fields)))
  {
    if apiKey == "" {
      return Err(KeyMissing), [];
    }
    calls := [PostContact(ApiUrl + "/contacts", params)];
    if create.status == 400 {
      var error := create.data.fields;
      if AlreadyExists(Get(error, "message")) {
        calls := calls + [GetContact(ApiUrl + "/contacts/" + params.email)];
        if !IsOk(lookup.status) {
          return Err(RetrieveFailed), calls;
        }
        var existingContact := lookup.data;
        calls := calls + [PutContact(ApiUrl + "/contacts/" + ToJsString(Get(existingContact.fields, "id")),
                                     UpdateBody(params, existingContact))];
        if !IsOk(updateStatus) {
          return Err(UpdateFailed), calls;
        }
        return Ok(existingContact), calls;
      }
    }
    if !IsOk(create.status) {
      return Err(CreateError(create.data.fields)), calls;
    }
    r := Ok(create.data);
  }
}
