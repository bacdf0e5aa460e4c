/**
 * server/utils/slack.ts: `sendLeadNotification` builds a Block Kit message
 * for a new lead (a header, four fields, and the question when there is one)
 * and posts it to "#ticketpeak"; nothing it meets, a missing token, a refused
 * post or a throw, escapes it.
 */
module SlackNotify {
  import opened Outcomes

  /** The lead as the notification receives it. */
  datatype LeadData = LeadData(
    firstName: string, email: string, phone: Option<string>, question: Option<string>,
    marketingConsent: Option<bool>, communicationConsent: Option<bool>)

  /** A `section` block with `mrkdwn` text, or one with `mrkdwn` fields. */
  datatype Block = TextSection(text: string) | FieldsSection(fields: seq<string>)

  datatype Message = Message(channel: string, blocks: seq<Block>)

  const Channel := "#ticketpeak"
  const Header := TextSection("🎯 *New Lead Notification*")

  /** A truthy optional string. */
  predicate Given(v: Option<string>) {
    v.Some? && v.value != ""
  }

  /** `*Phone:*` shows the phone, or "Not provided". */
  function PhoneText(lead: LeadData): string {
    "*Phone:*\n" + (if Given(lead.phone) then lead.phone.value else "Not provided")
  }

  /** `*Marketing Consent:*` shows a check mark only for an explicit `true`. */
  function ConsentText(lead: LeadData): string {
    "*Marketing Consent:*\n" + (if lead.marketingConsent == Some(true) then "✅" else "❌")
  }

  /** The four fields of the second block, in order: name, email, phone, marketing consent. */
  function LeadFields(lead: LeadData): (fields: seq<string>)
    ensures |fields| == 4
    ensures fields[0] == "*Name:*\n" + lead.firstName && fields[1] == "*Email:*\n" + lead.email
    ensures fields[2] == PhoneText(lead) && fields[3] == ConsentText(lead)
  {
    ["*Name:*\n" + lead.firstName, "*Email:*\n" + lead.email, PhoneText(lead), ConsentText(lead)]
  }

  /** The question block. */
  function QuestionBlock(question: string): Block {
    TextSection("*Question:*\n>" + question)
  }

  /**
   * The message posted: the header, the fields block, and the question
   * block exactly when the question is given.
   */
  function LeadMessage(lead: LeadData): (m: Message)
    ensures m.channel == Channel
    ensures |m.blocks| == if Given(lead.question) then 3 else 2
    ensures m.blocks[0] == Header && m.blocks[1] == FieldsSection(LeadFields(lead))
    ensures Given(lead.question) ==> m.blocks[2] == QuestionBlock(lead.question.value)
  {
    Message(Channel, [Header, FieldsSection(LeadFields(lead))]
                     + (if Given(lead.question) then [QuestionBlock(lead.question.value)] else []))
  }

  /** The question appears in a block exactly when it is given; no other block quotes it. */
  lemma QuestionBlockIffGiven(lead: LeadData)
    ensures (exists i :: 0 <= i < |LeadMessage(lead).blocks| && LeadMessage(lead).blocks[i].TextSection?
                          && LeadMessage(lead).blocks[i].text != Header.text)
            <==> Given(lead.question)
  {
    var blocks := LeadMessage(lead).blocks;
    if Given(lead.question) {
      var q := QuestionBlock(lead.question.value);
      assert blocks[2] == q;
      assert q.text[0] == '*' && Header.text[0] != '*';
    }
  }

  /** What `chat.postMessage` does. */
  datatype PostOutcome = Posted | Refused(error: string) | Threw(message: string)

  /**
   * `sendLeadNotification`. `posted` is the message sent, if any; whatever
   * `outcome` the post has, the function returns normally, and the only trace
   * of a failure is a log line.
   */
  method SendLeadNotification(lead: LeadData, slackBotToken: string, outcome: PostOutcome)
    returns (posted: Option<Message>)
    ensures slackBotToken == "" ==> posted.None?
    ensures slackBotToken != "" ==> posted == Some(LeadMessage(lead))
  {
    if slackBotToken == "" {
      return None;
    }
    var message := Message(Channel, [Header, FieldsSection(LeadFields(lead))]);
    if Given(lead.question) {
      message := message.(blocks := message.blocks + [QuestionBlock(lead.question.value)]);
    }
    assert message == LeadMessage(lead);
    // the post's outcome, whatever it is, is only logged
    posted := Some(message);
  }
}
