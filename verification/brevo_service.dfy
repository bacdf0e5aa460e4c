/**
 * lib/brevo.service.ts: the `BrevoService` class over the Brevo SDK. It
 * builds the contact it creates (default names, caller attributes, an SMS
 * number only in E.164 form, list ids), reports a duplicate contact as a
 * success, and turns every other failure into `{ success: false, error }`.
 *
 * Each SDK call is a parameter: what it resolved with, or the error it threw.
 */
module BrevoService {
  import opened Outcomes
  import opened Text
  import opened JsonValue
  import opened BrevoSdk

  /**
   * `CreateContactParams` as `createContact` reads it: an empty first name,
   * last name or SMS, and an empty attribute map, stand for absent ones.
   */
  datatype ContactParams = ContactParams(
    email: string, firstName: string, lastName: string, attributes: Body, sms: string,
    listIds: Option<seq<int>>)

  /** The SDK's `CreateContact` object as `createContact` fills it in. */
  datatype ContactPayload = ContactPayload(email: string, attributes: Body, listIds: seq<int>)

  /** `SendEmailParams`; an empty `textContent` stands for an absent one. */
  datatype EmailParams = EmailParams(
    to: seq<Recipient>, subject: string, htmlContent: string, textContent: string,
    params: Option<Body>, tags: Option<seq<string>>)

  /** The SDK's `SendSmtpEmail`; `None` is a field left unset. */
  datatype SmtpEmail = SmtpEmail(
    to: seq<Recipient>, subject: string, htmlContent: string, textContent: Option<string>,
    params: Option<Body>, tags: Option<seq<string>>)

  /** The part of `Partial<CreateContactParams>` that `updateContact` reads. */
  datatype UpdateParams = UpdateParams(attributes: Option<Body>, listIds: Option<seq<int>>)

  /** The SDK's `UpdateContact` object, sent for the contact `identifier`. */
  datatype UpdatePayload = UpdatePayload(identifier: string, attributes: Option<Body>, listIds: Option<seq<int>>)

  /** `{ success, <value>?, error? }`, what every method resolves with. */
  datatype Reply<T> = Reply(success: bool, value: Option<T>, error: Option<string>)

  /** `/^\+[1-9]\d{1,14}$/.test(s)`: a plus, a non-zero digit, then one to fourteen digits. */
  predicate MatchesE164(s: string) {
    2 <= |s| && s[0] == '+' && '1' <= s[1] <= '9' && 1 <= |s| - 2 <= 14 && AllDigits(s[2..])
  }

  /** The two tests `createContact` puts the SMS number through before it is kept. */
  predicate SmsAccepted(sms: string) {
    sms != "" && StartsWith(sms, "+") && |sms| >= 10 && MatchesE164(sms)
  }

  /**
   * Together the tests accept exactly a plus followed by 9 to 15 digits, the
   * first of them not zero: the length test raises the pattern's minimum.
   */
  lemma SmsAcceptedIff(sms: string)
    ensures SmsAccepted(sms) <==>
      (|sms| >= 1 && sms[0] == '+' && 9 <= |sms| - 1 <= 15 && AllDigits(sms[1..]) && sms[1] != '0')
  {
    if |sms| >= 2 && sms[0] == '+' {
      assert sms[..1] == "+";
      if AllDigits(sms[1..]) {
        assert forall i :: 0 <= i < |sms[2..]| ==> sms[2..][i] == sms[1..][i + 1];
      }
      if '1' <= sms[1] <= '9' && AllDigits(sms[2..]) {
        assert forall i :: 1 <= i < |sms[1..]| ==> sms[1..][i] == sms[2..][i - 1];
      }
    }
  }

  /**
   * The attributes of the created contact: FIRSTNAME and LASTNAME default to
   * '', the caller's attributes override them, and SMS is set last, only
   * when the number passes the tests; a number that fails is dropped without
   * an error.
   */
  function ContactAttributes(params: ContactParams): (a: Body)
    ensures a.Keys == {"FIRSTNAME", "LASTNAME"} + params.attributes.Keys
                      + (if SmsAccepted(params.sms) then {"SMS"} else {})
    ensures "FIRSTNAME" !in params.attributes ==> a["FIRSTNAME"] == Str(params.firstName)
    ensures "LASTNAME" !in params.attributes ==> a["LASTNAME"] == Str(params.lastName)
    ensures forall k :: k in params.attributes && (k != "SMS" || !SmsAccepted(params.sms)) ==>
      a[k] == params.attributes[k]
    ensures SmsAccepted(params.sms) ==> a["SMS"] == Str(params.sms)
  {
    var spread := Spread(map["FIRSTNAME" := Str(params.firstName), "LASTNAME" := Str(params.lastName)],
                         params.attributes);
    if SmsAccepted(params.sms) then spread["SMS" := Str(params.sms)] else spread
  }

  /** `error.response?.body?.code === 'duplicate_parameter'` */
  predicate IsDuplicate(e: SdkError) {
    BodyField(e, "code") == Some(Str("duplicate_parameter"))
  }

  /**
   * The error text every method reports: the response body's message, else
   * the error's own message, else "Unknown error"; never empty.
   */
  function ErrorText(e: SdkError): (t: string)
    ensures t != ""
    ensures Truthy(BodyField(e, "message")) ==> t == ToJsString(BodyField(e, "message"))
    ensures !Truthy(BodyField(e, "message")) && Truthy(e.message) ==> t == ToJsString(e.message)
    ensures !Truthy(BodyField(e, "message")) && !Truthy(e.message) ==> t == "Unknown error"
  {
    if Truthy(BodyField(e, "message")) then
      TruthyText(BodyField(e, "message"));
      ToJsString(BodyField(e, "message"))
    else if Truthy(e.message) then
      TruthyText(e.message);
      ToJsString(e.message)
    else "Unknown error"
  }

  /** The failure reply for a thrown error. */
  function Failed<T>(e: SdkError): (r: Reply<T>)
    ensures !r.success && r.value.None? && r.error == Some(ErrorText(e))
  {
    Reply(false, None, Some(ErrorText(e)))
  }

  /** `result.body?.id?.toString()`: absent for a missing or null id. */
  function IdText(id: Option<Json>): (t: Option<string>)
    ensures t.Some? <==> id.Some? && id.value != Null
    ensures t.Some? ==> t.value == ToJsString(id)
  {
    if id.Some? && id.value != Null then Some(ToJsString(id)) else None
  }

  const AlreadyExistsText := "Contact already exists"

  class BrevoService {
    /** The key both SDK clients are configured with. */
    const apiKey: string
    const defaultListId: int

    /** `new BrevoService(apiKey, defaultListId = 1)` */
    constructor(apiKey: string, defaultListId: Option<int>)
      ensures this.apiKey == apiKey && this.defaultListId == defaultListId.GetOr(1)
    {
      this.apiKey := apiKey;
      this.defaultListId := defaultListId.GetOr(1);
    }

    /**
     * `createContact`. `sent` is the contact handed to the SDK and `outcome`
     * the body it resolved with or the error it threw. The contact is
     * created in the default list when the caller names none, and a
     * duplicate is answered with success, no id and "Contact already exists".
     */
    method CreateContact(params: ContactParams, outcome: Result<Body, SdkError>)
      returns (sent: ContactPayload, r: Reply<string>)
      ensures sent.email == params.email && sent.attributes == ContactAttributes(params)
      ensures sent.listIds == if params.listIds.Some? then params.listIds.value else [defaultListId]
      ensures outcome.Ok? ==> r == Reply(true, IdText(Get(outcome.value, "id")), None)
      ensures outcome.Err? && IsDuplicate(outcome.error) ==> r == Reply(true, None, Some(AlreadyExistsText))
      ensures outcome.Err? && !IsDuplicate(outcome.error) ==> r == Failed(outcome.error)
      ensures r.success <==> outcome.Ok? || IsDuplicate(outcome.error)
    {
      var attributes := map["FIRSTNAME" := Str(params.firstName), "LASTNAME" := Str(params.lastName)]
                        + params.attributes;
      if params.sms != "" && StartsWith(params.sms, "+") && |params.sms| >= 10 {
        if MatchesE164(params.sms) {
          attributes := attributes["SMS" := Str(params.sms)];
        }
      }
      var listIds := if params.listIds.Some? then params.listIds.value else [defaultListId];
      sent := ContactPayload(params.email, attributes, listIds);
      match outcome
      case Ok(body) =>
        r := Reply(true, IdText(Get(body, "id")), None);
      case Err(e) =>
        if IsDuplicate(e) {
          r := Reply(true, None, Some(AlreadyExistsText));
        } else {
          r := Failed(e);
        }
    }

    /**
     * `sendEmail`: the text content, params and tags are set only when the
     * caller supplies them (a text content only when it is not empty).
     */
    method SendEmail(params: EmailParams, outcome: Result<Body, SdkError>)
      returns (sent: SmtpEmail, r: Reply<Json>)
      ensures sent.to == params.to && sent.subject == params.subject && sent.htmlContent == params.htmlContent
      ensures sent.textContent.Some? <==> params.textContent != ""
      ensures sent.textContent.Some? ==> sent.textContent.value == params.textContent
      ensures sent.params == params.params && sent.tags == params.tags
      ensures outcome.Ok? ==> r == Reply(true, Get(outcome.value, "messageId"), None)
      ensures outcome.Err? ==> r == Failed(outcome.error)
    {
      sent := SmtpEmail(params.to, params.subject, params.htmlContent, None, None, None);
      if params.textContent != "" {
        sent := sent.(textContent := Some(params.textContent));
      }
      if params.params.Some? {
        sent := sent.(params := params.params);
      }
      if params.tags.Some? {
        sent := sent.(tags := params.tags);
      }
      match outcome
      case Ok(body) => r := Reply(true, Get(body, "messageId"), None);
      case Err(e) => r := Failed(e);
    }

    /** `getContact`: the contact the SDK returned, or the error text. */
    method GetContact(email: string, outcome: Result<ContactRecord, SdkError>)
      returns (r: Reply<ContactRecord>)
      ensures r.success <==> outcome.Ok?
      ensures outcome.Ok? ==> r == Reply(true, Some(outcome.value), None)
      ensures outcome.Err? ==> r == Failed(outcome.error)
    {
      match outcome
      case Ok(contact) => r := Reply(true, Some(contact), None);
      case Err(e) => r := Failed(e);
    }

    /**
     * `updateContact`: attributes and list ids are set only when supplied;
     * `failure` is the error the SDK threw, if it did.
     */
    method UpdateContact(email: string, params: UpdateParams, failure: Option<SdkError>)
      returns (sent: UpdatePayload, r: Reply<()>)
      ensures sent.identifier == email
      ensures sent.attributes.Some? <==> params.attributes.Some?
      ensures sent.listIds.Some? <==> params.listIds.Some?
      ensures sent.attributes.Some? ==> sent.attributes == params.attributes
      ensures sent.listIds.Some? ==> sent.listIds == params.listIds
      ensures failure.None? ==> r == Reply(true, None, None)
      ensures failure.Some? ==> r == Failed(failure.value)
    {
      sent := UpdatePayload(email, None, None);
      if params.attributes.Some? {
        sent := sent.(attributes := params.attributes);
      }
      if params.listIds.Some? {
        sent := sent.(listIds := params.listIds);
      }
      if failure.Some? {
        r := Failed(failure.value);
      } else {
        r := Reply(true, None, None);
      }
    }
  }
}
