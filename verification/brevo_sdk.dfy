/**
 * What the `@getbrevo/brevo` SDK and Brevo's REST API hand back to the
 * callers in this repository: the error a failed call throws, the contact
 * records the API returns, and the sender and recipients of an email.
 */
module BrevoSdk {
  import opened Outcomes
  import opened Text
  import opened JsonValue

  /**
   * A thrown SDK error: `error.response?.body` (`None` when there was no
   * response or it had no body) and `error.message`.
   */
  datatype SdkError = SdkError(body: Option<Body>, message: Option<Json>)

  /** `error.response?.body?.<key>` */
  function BodyField(e: SdkError, key: string): (v: Option<Json>)
    ensures v.Some? <==> e.body.Some? && key in e.body.value
  {
    if e.body.Some? then Get(e.body.value, key) else None
  }

  /** `message?.includes('already exists')` holds: the API's wording for a duplicate contact. */
  predicate AlreadyExists(message: Option<Json>) {
    message.Some? && message.value.Str? && Contains(message.value.s, "already exists")
  }

  /** A contact as the API returns it: its scalar fields and its nested `attributes` object, if any. */
  datatype ContactRecord = ContactRecord(fields: Body, attributes: Option<Body>)

  /** An email recipient, `{ email, name? }`. */
  datatype Recipient = Recipient(email: string, name: Option<string>)

  /** An email sender, `{ email, name }`. */
  datatype Sender = Sender(email: string, name: string)
}
