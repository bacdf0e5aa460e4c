/**
 * server/utils/brevoClient.ts: Brevo over axios. Every email address is
 * cleaned (trimmed, then lower-cased) before it is sent; payloads and
 * answers are completed with defaults; a contact lookup that meets a 404
 * gives `null`; every other failure throws with the response's message, the
 * error's own message or a fixed text.
 *
 * The outcome of every request is a parameter: the response data, or the
 * error axios rejects with.
 */
module BrevoAxios {
  import opened Outcomes
  import opened Text
  import opened JsonValue
  import opened BrevoSdk

  /** `cleanEmail`: trim, then lower-case. */
  function CleanEmail(email: string): string {
    Lower(Trim(email))
  }

  /** A cleaned address has no white space at either end, and cleaning it again changes nothing. */
  lemma CleanEmailIdempotent(email: string)
    ensures var c := CleanEmail(email); c == [] || (!IsSpace(c[0]) && !IsSpace(c[|c| - 1]))
    ensures CleanEmail(CleanEmail(email)) == CleanEmail(email)
  {
    var t := Trim(email);
    var c := Lower(t);
    assert c == CleanEmail(email);
    if c != [] {
      LowerCharSpace(t[0]);
      LowerCharSpace(t[|t| - 1]);
    }
    TrimOfTrimmed(c);
    assert Trim(c) == c;
    LowerIdempotent(t);
    assert CleanEmail(c) == Lower(c);
  }

  /** `to.map(email => ({ email: cleanEmail(email) }))` */
  function Recipients(to: seq<string>): (r: seq<string>)
    ensures |r| == |to|
    ensures forall i :: 0 <= i < |to| ==> r[i] == CleanEmail(to[i])
  {
    if to == [] then [] else [CleanEmail(to[0])] + Recipients(to[1..])
  }

  /** A rejection: `error.response?.status`, `error.response?.data` and `error.message`. */
  datatype AxiosError = AxiosError(status: Option<int>, data: Option<Body>, message: Option<Json>)

  /** `error.response?.data?.message || error.message || fallback` */
  function ErrorText(e: AxiosError, fallback: string): (t: string)
    ensures fallback != "" ==> t != ""
    ensures e.data.Some? && Truthy(Get(e.data.value, "message")) ==> t == ToJsString(Get(e.data.value, "message"))
    ensures (e.data.None? || !Truthy(Get(e.data.value, "message"))) && Truthy(e.message) ==> t == ToJsString(e.message)
    ensures (e.data.None? || !Truthy(Get(e.data.value, "message"))) && !Truthy(e.message) ==> t == fallback
  {
    if e.data.Some? && Truthy(Get(e.data.value, "message")) then
      TruthyText(Get(e.data.value, "message"));
      ToJsString(Get(e.data.value, "message"))
    else if Truthy(e.message) then
      TruthyText(e.message);
      ToJsString(e.message)
    else fallback
  }

  /** `v || d` */
  function Or(v: Option<Json>, d: Json): (r: Json)
    ensures Truthy(v) ==> Some(r) == v
    ensures !Truthy(v) ==> r == d
  {
    if Truthy(v) then v.value else d
  }

  const DefaultSender := Sender("noreply@physiq.ai", "PhysIQ")

  /** The bodies posted and put. */
  datatype Payload =
    | EmailPayload(sender: Sender, to: seq<string>, subject: string, htmlContent: string)
    | TemplatePayload(sender: Sender, to: seq<string>, templateId: int, params: Body)
    | ContactPayload(email: string, attributes: Body, listIds: seq<int>, updateEnabled: bool)
    | UpdatePayload(attributes: Body, listIds: seq<int>)

  /** A request: method, path under the API base and body. */
  datatype Request = Post(path: string, payload: Payload) | GetPath(path: string) | Put(path: string, payload: Payload)

  /**
   * `sendEmail(to, subject, htmlContent, sender = default)`: every recipient
   * is cleaned, in order; a missing `messageId` in the answer becomes ''.
   */
  function SendEmail(to: seq<string>, subject: string, htmlContent: string, sender: Option<Sender>,
                     outcome: Result<Body, AxiosError>): (c: (Request, Result<Json, string>))
    ensures c.0 == Post("/smtp/email", EmailPayload(sender.GetOr(DefaultSender), Recipients(to), subject, htmlContent))
    ensures outcome.Ok? ==> c.1 == Ok(Or(Get(outcome.value, "messageId"), Str("")))
    ensures outcome.Err? ==> c.1 == Err(ErrorText(outcome.error, "Failed to send email"))
  {
    (Post("/smtp/email", EmailPayload(sender.GetOr(DefaultSender), Recipients(to), subject, htmlContent)),
     match outcome
     case Ok(data) => Ok(Or(Get(data, "messageId"), Str("")))
     case Err(e) => Err(ErrorText(e, "Failed to send email")))
  }

  /**
   * `createContact(email, { attributes, listIds } = {})`: the email cleaned,
   * no attributes and no lists by default, updates enabled; a missing `id`
   * in the answer becomes 0.
   */
  function CreateContact(email: string, attributes: Option<Body>, listIds: Option<seq<int>>,
                         outcome: Result<Body, AxiosError>): (c: (Request, Result<Json, string>))
    ensures c.0 == Post("/contacts", ContactPayload(CleanEmail(email), attributes.GetOr(map[]), listIds.GetOr([]), true))
    ensures outcome.Ok? ==> c.1 == Ok(Or(Get(outcome.value, "id"), Num(0)))
    ensures outcome.Err? ==> c.1 == Err(ErrorText(outcome.error, "Failed to create contact"))
  {
    (Post("/contacts", ContactPayload(CleanEmail(email), attributes.GetOr(map[]), listIds.GetOr([]), true)),
     match outcome
     case Ok(data) => Ok(Or(Get(data, "id"), Num(0)))
     case Err(e) => Err(ErrorText(e, "Failed to create contact")))
  }

  /** `ContactInfoResponse` */
  datatype ContactInfo = ContactInfo(
    email: Json, id: Json, emailBlacklisted: Json, smsBlacklisted: Json, createdAt: Json, modifiedAt: Json,
    attributes: Body)

  /** The answer of `getContactInfo`: every falsy field replaced by its default. */
  function ContactInfoOf(data: ContactRecord): (info: ContactInfo)
    ensures Truthy(Get(data.fields, "email")) ==> Some(info.email) == Get(data.fields, "email")
    ensures !Truthy(Get(data.fields, "email")) ==> info.email == Str("")
    ensures Truthy(Get(data.fields, "id")) ==> Some(info.id) == Get(data.fields, "id")
    ensures !Truthy(Get(data.fields, "id")) ==> info.id == Num(0)
    ensures Truthy(Get(data.fields, "emailBlacklisted")) ==> Some(info.emailBlacklisted) == Get(data.fields, "emailBlacklisted")
    ensures !Truthy(Get(data.fields, "emailBlacklisted")) ==> info.emailBlacklisted == Bool(false)
    ensures Truthy(Get(data.fields, "smsBlacklisted")) ==> Some(info.smsBlacklisted) == Get(data.fields, "smsBlacklisted")
    ensures !Truthy(Get(data.fields, "smsBlacklisted")) ==> info.smsBlacklisted == Bool(false)
    ensures Truthy(Get(data.fields, "createdAt")) ==> Some(info.createdAt) == Get(data.fields, "createdAt")
    ensures !Truthy(Get(data.fields, "createdAt")) ==> info.createdAt == Str("")
    ensures Truthy(Get(data.fields, "modifiedAt")) ==> Some(info.modifiedAt) == Get(data.fields, "modifiedAt")
    ensures !Truthy(Get(data.fields, "modifiedAt")) ==> info.modifiedAt == Str("")
    ensures info.attributes == data.attributes.GetOr(map[])
  {
    var f := data.fields;
    ContactInfo(Or(Get(f, "email"), Str("")), Or(Get(f, "id"), Num(0)),
                Or(Get(f, "emailBlacklisted"), Bool(false)), Or(Get(f, "smsBlacklisted"), Bool(false)),
                Or(Get(f, "createdAt"), Str("")), Or(Get(f, "modifiedAt"), Str("")),
                data.attributes.GetOr(map[]))
  }

  /** The record an answer is read back as. */
  function RecordOf(info: ContactInfo): ContactRecord {
    ContactRecord(map["email" := info.email, "id" := info.id, "emailBlacklisted" := info.emailBlacklisted,
                      "smsBlacklisted" := info.smsBlacklisted, "createdAt" := info.createdAt,
                      "modifiedAt" := info.modifiedAt],
                  Some(info.attributes))
  }

  /** Defaulting is idempotent: an answer read back and defaulted again is the same answer. */
  lemma ContactInfoSettles(data: ContactRecord)
    ensures ContactInfoOf(RecordOf(ContactInfoOf(data))) == ContactInfoOf(data)
  {
    var info := ContactInfoOf(data);
    var f := RecordOf(info).fields;
    assert Get(f, "email") == Some(info.email) && Get(f, "id") == Some(info.id);
    assert Get(f, "emailBlacklisted") == Some(info.emailBlacklisted);
    assert Get(f, "smsBlacklisted") == Some(info.smsBlacklisted);
    assert Get(f, "createdAt") == Some(info.createdAt) && Get(f, "modifiedAt") == Some(info.modifiedAt);
  }

  /**
   * `getContactInfo(email)`: the contact with its defaults, `None` (the
   * `null` answer) on a 404, or the error text on any other failure.
   */
  function GetContactInfo(email: string, outcome: Result<ContactRecord, AxiosError>)
    : (c: (Request, Result<Option<ContactInfo>, string>))
    ensures c.0 == GetPath("/contacts/" + CleanEmail(email))
    ensures outcome.Ok? ==> c.1 == Ok(Some(ContactInfoOf(outcome.value)))
    ensures c.1 == Ok(None) <==> outcome.Err? && outcome.error.status == Some(404)
    ensures outcome.Err? && outcome.error.status != Some(404) ==>
      c.1 == Err(ErrorText(outcome.error, "Failed to get contact info"))
  {
    (GetPath("/contacts/" + CleanEmail(email)),
     match outcome
     case Ok(data) => Ok(Some(ContactInfoOf(data)))
     case Err(e) => if e.status == Some(404) then Ok(None) else Err(ErrorText(e, "Failed to get contact info")))
  }

  /** `updateContact(email, { attributes, listIds })`: no attributes and no lists by default. */
  function UpdateContact(email: string, attributes: Option<Body>, listIds: Option<seq<int>>,
                         failure: Option<AxiosError>): (c: (Request, Result<(), string>))
    ensures c.0 == Put("/contacts/" + CleanEmail(email), UpdatePayload(attributes.GetOr(map[]), listIds.GetOr([])))
    ensures failure.None? <==> c.1.Ok?
    ensures failure.Some? ==> c.1 == Err(ErrorText(failure.value, "Failed to update contact"))
  {
    (Put("/contacts/" + CleanEmail(email), UpdatePayload(attributes.GetOr(map[]), listIds.GetOr([]))),
     if failure.Some? then Err(ErrorText(failure.value, "Failed to update contact")) else Ok(()))
  }

  /** `sendEmailWithTemplate(to, templateId, params = {}, sender = default)` */
  function SendEmailWithTemplate(to: seq<string>, templateId: int, params: Option<Body>, sender: Option<Sender>,
                                 outcome: Result<Body, AxiosError>): (c: (Request, Result<Json, string>))
    ensures c.0 == Post("/smtp/email", TemplatePayload(sender.GetOr(DefaultSender), Recipients(to), templateId,
                                                       params.GetOr(map[])))
    ensures outcome.Ok? ==> c.1 == Ok(Or(Get(outcome.value, "messageId"), Str("")))
    ensures outcome.Err? ==> c.1 == Err(ErrorText(outcome.error, "Failed to send email with template"))
  {
    (Post("/smtp/email", TemplatePayload(sender.GetOr(DefaultSender), Recipients(to), templateId, params.GetOr(map[]))),
     match outcome
     case Ok(data) => Ok(Or(Get(data, "messageId"), Str("")))
     case Err(e) => Err(ErrorText(e, "Failed to send email with template")))
  }

  /** Every address that leaves the module is clean: cleaning the recipients again changes nothing. */
  lemma RecipientsClean(to: seq<string>)
    ensures Recipients(Recipients(to)) == Recipients(to)
  {
    var r := Recipients(to);
    forall i | 0 <= i < |r|
      ensures Recipients(r)[i] == r[i]
    {
      CleanEmailIdempotent(to[i]);
    }
  }
}
