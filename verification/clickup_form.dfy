/**
 * server/utils/clickup.ts: `createTaskFromForm` turns a form submission into
 * a ClickUp task (a name, a Markdown description and fixed fields) and
 * creates it with `ClickUpClient.CreateTask`, re-throwing any failure as a
 * plain error.
 */
module ClickUpForm {
  import opened Outcomes
  import opened Text
  import opened JsonValue
  import ClickUpClient

  /** `FormSubmissionParams` */
  datatype FormSubmission = FormSubmission(
    submissionId: Option<string>, firstName: string, email: string, phone: string, question: string,
    marketingConsent: Option<bool>, communicationConsent: Option<bool>, company: Option<string>)

  /** `v || 'Not provided'` */
  function OrNotProvided(v: string): (r: string)
    ensures v != "" ==> r == v
    ensures v == "" ==> r == "Not provided"
  {
    if v != "" then v else "Not provided"
  }

  /** `flag ? 'Yes' : 'No'` for an optional flag. */
  function YesNo(flag: Option<bool>): (r: string)
    ensures r == "Yes" <==> flag == Some(true)
    ensures r == "No" <==> flag != Some(true)
  {
    if flag == Some(true) then "Yes" else "No"
  }

  /** `New Lead: {firstName}` */
  function TaskName(form: FormSubmission): string {
    "New Lead: " + form.firstName
  }

  /**
   * The lines of the description template; the description is them joined
   * with newlines. `today` is `new Date().toLocaleDateString()`.
   */
  function DescriptionLines(form: FormSubmission, today: string): (lines: seq<string>)
    ensures |lines| == 14
    ensures lines[1] == "- Name: " + form.firstName && lines[2] == "- Email: " + form.email
    // phone and company show "Not provided" when empty
    ensures lines[3] == "- Phone: " + OrNotProvided(form.phone)
    ensures lines[4] == "- Company: " + OrNotProvided(form.company.GetOr(""))
    // an absent submission id is rendered by the template as "undefined"
    ensures lines[5] == "- Submission ID: " + form.submissionId.GetOr("undefined")
    ensures lines[8] == form.question
    ensures lines[10] == "Marketing Consent: " + YesNo(form.marketingConsent)
    ensures lines[11] == "Communication Consent: " + YesNo(form.communicationConsent)
    ensures lines[13] == "Submitted: " + today
  {
    ["**Lead Details:**",
     "- Name: " + form.firstName,
     "- Email: " + form.email,
     "- Phone: " + OrNotProvided(form.phone),
     "- Company: " + OrNotProvided(form.company.GetOr("")),
     "- Submission ID: " + form.submissionId.GetOr("undefined"),
     "",
     "**Question:**",
     form.question,
     "",
     "Marketing Consent: " + YesNo(form.marketingConsent),
     "Communication Consent: " + YesNo(form.communicationConsent),
     "",
     "Submitted: " + today]
  }

  /** The task `createTaskFromForm` creates: status "to do", priority 3, no dates, and no assignees, tags or custom fields. */
  function FormTask(form: FormSubmission, today: string): (t: ClickUpClient.TaskData)
    ensures t.name == TaskName(form) && t.description == Join(DescriptionLines(form, today), "\n")
    ensures t.status == "to do" && t.priority == 3 && t.dueDate.None? && t.startDate.None?
    ensures t.assignees == [] && t.tags == [] && t.customFields == []
  {
    ClickUpClient.TaskData(TaskName(form), Join(DescriptionLines(form, today), "\n"), [], [], "to do", 3, None, None, [])
  }

  const NotConfigured := "CLICKUP_API_TOKEN or CLICKUP_LIST_ID environment variable is not set"
  const FailedToCreate := "Failed to create ClickUp task"

  /**
   * `createTaskFromForm`: throws before building anything without both
   * settings; otherwise the form's task is posted to the list, and the result
   * is the created task, or an error carrying the client's message (or a
   * default when it has none). `c.0` is the request sent, if any.
   */
  function CreateTaskFromForm(config: ClickUpClient.Config, form: FormSubmission, today: string,
                              outcome: ClickUpClient.AxiosOutcome)
    : (c: (Option<ClickUpClient.Request>, Result<Body, string>))
    ensures config.token == "" || config.listId == "" ==> c.0.None? && c.1 == Err(NotConfigured)
    // the task built from the form is what is posted, to the configured list
    ensures config.token != "" && config.listId != "" ==>
      c.0 == Some(ClickUpClient.Post("/list/" + config.listId + "/task", FormTask(form, today)))
    ensures c.1.Ok? <==> config.token != "" && config.listId != "" && outcome.Resolved?
    ensures c.1.Ok? ==> c.1.value == outcome.data
  {
    if config.token == "" || config.listId == "" then (None, Err(NotConfigured))
    else
      var created := ClickUpClient.CreateTask(config, FormTask(form, today), outcome);
      (created.sent,
       match created.result
       case Ok(task) => Ok(task)
       case Err(e) => Err(if e.message != "" then e.message else FailedToCreate))
  }

  /**
   * Once configured, a failure carries the client's own message: the
   * default is never used, since every client error has a message.
   */
  lemma FailureKeepsClientMessage(config: ClickUpClient.Config, form: FormSubmission, today: string,
                                  outcome: ClickUpClient.AxiosOutcome)
    requires config.token != "" && config.listId != "" && outcome.Rejected?
    ensures CreateTaskFromForm(config, form, today, outcome).1
      == Err(ClickUpClient.Classify(outcome.error, "Something went wrong", true).message)
    ensures CreateTaskFromForm(config, form, today, outcome).1 != Err(FailedToCreate)
  {
    var e := ClickUpClient.Classify(outcome.error, "Something went wrong", true);
    assert ClickUpClient.CreateTask(config, FormTask(form, today), outcome).result == Err(e);
    assert e.message != "";
    if e.errorType == ClickUpClient.Api {
      assert e.message == "API Error: " + ClickUpClient.ErrOr(outcome.error.response.value, "Something went wrong");
      assert e.message[0] == 'A';
    } else if e.errorType == ClickUpClient.Network {
      assert e.message[0] == 'N';
    } else {
      assert e.message == "Unexpected Error: " + ToJsString(outcome.error.message);
      assert e.message[0] == 'U';
    }
    assert FailedToCreate[0] == 'F';
  }
}
