/**
 * lib/clickup.service.ts: the `ClickUpService` class that turns a lead into a
 * ClickUp task (name, tags, description lines, custom fields) and maps each
 * HTTP exchange with the ClickUp API to a `{ success, data | error }` result
 * without ever throwing.
 *
 * The HTTP exchange itself is a parameter: a response's status and parsed
 * JSON object, or a throw.
 */
module ClickUpService {
  import opened Outcomes
  import opened Text
  import opened JsonValue

  const DefaultBaseUrl := "https://api.clickup.com/api/v2"

  /** `ClickUpConfig`; an unset `baseUrl` is "". */
  datatype Config = Config(apiKey: string, listId: string, baseUrl: string)

  /** `ClickUpCustomFields`: the configured field ids, "" for one that is not configured. */
  datatype CustomFieldIds = CustomFieldIds(email: string, phone: string, source: string, leadDate: string, leadId: string)

  /** `LeadTaskData` */
  datatype LeadTaskData = LeadTaskData(
    leadId: int, firstName: string, email: string, phone: Option<string>,
    question: string, source: string, leadDate: string)

  /** `if (leadData.phone)` */
  predicate HasPhone(lead: LeadTaskData) {
    lead.phone.Some? && lead.phone.value != ""
  }

  // ---------------------------------------------------------------- description

  const Heading := "**New Lead Submission**"
  const ContactHeading := "**Contact Information:**"
  const DetailsHeading := "**Lead Details:**"
  const QuestionHeading := "**Question/Message:**"
  const Rule := "---"
  const Footer := "*This task was automatically created from a lead form submission.*"

  function Bullet(caption: string, value: string): string {
    "• " + caption + ": " + value
  }

  /**
   * The lines `formatLeadDescription` joins: contact information, a phone
   * line only when there is a phone, lead details, the question and a
   * footer. `shownDate` is the lead date as `toLocaleDateString` renders it.
   */
  function DescriptionLines(lead: LeadTaskData, shownDate: string): (lines: seq<string>)
    ensures |lines| == if HasPhone(lead) then 17 else 16
    ensures lines[..5] == [Heading, "", ContactHeading, Bullet("Name", lead.firstName), Bullet("Email", lead.email)]
    // the phone line is the sixth line exactly when there is a phone; otherwise the sixth is blank
    ensures HasPhone(lead) <==> lines[5] == Bullet("Phone", lead.phone.GetOr(""))
    ensures lines[|lines| - 4] == lead.question
    ensures lines[|lines| - 7] == Bullet("Lead ID", IntToString(lead.leadId))
  {
    var contact := [Heading, "", ContactHeading, Bullet("Name", lead.firstName), Bullet("Email", lead.email)];
    var phone := if HasPhone(lead) then [Bullet("Phone", lead.phone.value)] else [];
    var details := ["", DetailsHeading, Bullet("Source", lead.source), Bullet("Date", shownDate),
                    Bullet("Lead ID", IntToString(lead.leadId)), "", QuestionHeading, lead.question, "", Rule, Footer];
    assert |Bullet("Phone", lead.phone.GetOr(""))| > 0;
    assert |contact| == 5 && |details| == 11;
    contact + phone + details
  }

  // -------------------------------------------------------------- custom fields

  /** The custom fields `buildCustomFields` can add, in the order it considers them. */
  datatype FieldKind = EmailField | PhoneField | SourceField | LeadDateField | LeadIdField

  function Rank(k: FieldKind): nat {
    match k
    case EmailField => 0
    case PhoneField => 1
    case SourceField => 2
    case LeadDateField => 3
    case LeadIdField => 4
  }

  function IdOf(ids: CustomFieldIds, k: FieldKind): string {
    match k
    case EmailField => ids.email
    case PhoneField => ids.phone
    case SourceField => ids.source
    case LeadDateField => ids.leadDate
    case LeadIdField => ids.leadId
  }

  /** A field is added when its id is configured; the phone field also needs a phone. */
  predicate Wanted(ids: CustomFieldIds, lead: LeadTaskData, k: FieldKind) {
    IdOf(ids, k) != "" && (k == PhoneField ==> HasPhone(lead))
  }

  /** The value a field carries; the lead id as its decimal string. */
  function ValueOf(lead: LeadTaskData, k: FieldKind): string {
    match k
    case EmailField => lead.email
    case PhoneField => lead.phone.GetOr("")
    case SourceField => lead.source
    case LeadDateField => lead.leadDate
    case LeadIdField => IntToString(lead.leadId)
  }

  /** `[k]` when `k` is wanted, `[]` otherwise. */
  function IfWanted(ids: CustomFieldIds, lead: LeadTaskData, k: FieldKind): seq<FieldKind> {
    if Wanted(ids, lead, k) then [k] else []
  }

  /** The kinds of field added, in order. */
  function Selected(ids: CustomFieldIds, lead: LeadTaskData): seq<FieldKind> {
    IfWanted(ids, lead, EmailField) + IfWanted(ids, lead, PhoneField) + IfWanted(ids, lead, SourceField)
    + IfWanted(ids, lead, LeadDateField) + IfWanted(ids, lead, LeadIdField)
  }

  /** A custom field as the task payload carries it. */
  datatype CustomField = CustomField(id: string, value: string)

  function FieldFor(ids: CustomFieldIds, lead: LeadTaskData, k: FieldKind): CustomField {
    CustomField(IdOf(ids, k), ValueOf(lead, k))
  }

  /** `[field]` when its kind is wanted, `[]` otherwise. */
  function FieldPart(ids: CustomFieldIds, lead: LeadTaskData, k: FieldKind): seq<CustomField> {
    if Wanted(ids, lead, k) then [FieldFor(ids, lead, k)] else []
  }

  /** The custom fields of a task, pushed in the fixed order. */
  function CustomFieldsFor(ids: CustomFieldIds, lead: LeadTaskData): seq<CustomField> {
    FieldPart(ids, lead, EmailField) + FieldPart(ids, lead, PhoneField) + FieldPart(ids, lead, SourceField)
    + FieldPart(ids, lead, LeadDateField) + FieldPart(ids, lead, LeadIdField)
  }

  /** `fields` holds one field for each of `kinds`, in the same order. */
  predicate FieldsMatch(ids: CustomFieldIds, lead: LeadTaskData, fields: seq<CustomField>, kinds: seq<FieldKind>) {
    |fields| == |kinds| && forall i :: 0 <= i < |fields| ==> fields[i] == FieldFor(ids, lead, kinds[i])
  }

  lemma FieldsMatchAppend(ids: CustomFieldIds, lead: LeadTaskData,
                          fields: seq<CustomField>, kinds: seq<FieldKind>, k: FieldKind)
    requires FieldsMatch(ids, lead, fields, kinds)
    ensures FieldsMatch(ids, lead, fields + FieldPart(ids, lead, k), kinds + IfWanted(ids, lead, k))
  {
  }

  /** The custom fields are exactly one per selected kind, in the same order. */
  lemma CustomFieldsFollowSelected(ids: CustomFieldIds, lead: LeadTaskData)
    ensures FieldsMatch(ids, lead, CustomFieldsFor(ids, lead), Selected(ids, lead))
  {
    var fields, kinds := FieldPart(ids, lead, EmailField), IfWanted(ids, lead, EmailField);
    assert FieldsMatch(ids, lead, fields, kinds);
    FieldsMatchAppend(ids, lead, fields, kinds, PhoneField);
    fields, kinds := fields + FieldPart(ids, lead, PhoneField), kinds + IfWanted(ids, lead, PhoneField);
    FieldsMatchAppend(ids, lead, fields, kinds, SourceField);
    fields, kinds := fields + FieldPart(ids, lead, SourceField), kinds + IfWanted(ids, lead, SourceField);
    FieldsMatchAppend(ids, lead, fields, kinds, LeadDateField);
    fields, kinds := fields + FieldPart(ids, lead, LeadDateField), kinds + IfWanted(ids, lead, LeadDateField);
    FieldsMatchAppend(ids, lead, fields, kinds, LeadIdField);
  }

  /** Every wanted field appears, and no other. */
  lemma SelectedExactlyWanted(ids: CustomFieldIds, lead: LeadTaskData, k: FieldKind)
    ensures k in Selected(ids, lead) <==> Wanted(ids, lead, k)
  {
    var e, p, s, d, l := IfWanted(ids, lead, EmailField), IfWanted(ids, lead, PhoneField),
      IfWanted(ids, lead, SourceField), IfWanted(ids, lead, LeadDateField), IfWanted(ids, lead, LeadIdField);
    assert Selected(ids, lead) == e + p + s + d + l;
    assert k in e + p + s + d + l <==> k in e || k in p || k in s || k in d || k in l;
  }

  /** The fields come in the fixed order email, phone, source, lead date, lead id, each at most once. */
  lemma SelectedInOrder(ids: CustomFieldIds, lead: LeadTaskData, i: nat, j: nat)
    requires i < j < |Selected(ids, lead)|
    ensures Rank(Selected(ids, lead)[i]) < Rank(Selected(ids, lead)[j])
  {
    var e, p, s, d, l := IfWanted(ids, lead, EmailField), IfWanted(ids, lead, PhoneField),
      IfWanted(ids, lead, SourceField), IfWanted(ids, lead, LeadDateField), IfWanted(ids, lead, LeadIdField);
    assert Selected(ids, lead) == e + p + s + d + l;
    RankBelow(e, p, s, d, l, i);
    RankBelow(e, p, s, d, l, j);
  }

  /** Where index `i` of the five concatenated parts falls, and so which kind it holds. */
  lemma RankBelow(e: seq<FieldKind>, p: seq<FieldKind>, s: seq<FieldKind>, d: seq<FieldKind>, l: seq<FieldKind>, i: nat)
    requires e == [] || e == [EmailField]
    requires p == [] || p == [PhoneField]
    requires s == [] || s == [SourceField]
    requires d == [] || d == [LeadDateField]
    requires l == [] || l == [LeadIdField]
    requires i < |e + p + s + d + l|
    ensures Rank((e + p + s + d + l)[i]) == (
      if i < |e| then 0
      else if i < |e + p| then 1
      else if i < |e + p + s| then 2
      else if i < |e + p + s + d| then 3
      else 4)
  {
  }

  /** The lead-id field's value reads back as the lead id. */
  lemma LeadIdValueRoundTrip(lead: LeadTaskData)
    requires lead.leadId >= 0
    ensures AllDigits(ValueOf(lead, LeadIdField)) && DigitsValue(ValueOf(lead, LeadIdField)) == lead.leadId
  {
    NatToStringRoundTrip(lead.leadId);
  }

  // ------------------------------------------------------------------ responses

  /** What `fetch` and `response.json()` give: a status and a JSON object, or a throw (`None`: not an `Error`). */
  datatype FetchOutcome = Responded(status: nat, data: Body) | Threw(message: Option<string>)

  /** `ClickUpApiResponse` */
  datatype ApiResponse = Success(data: Body) | Failure(error: Json, statusCode: Option<nat>)

  /** `response.ok` */
  predicate IsOk(status: nat) {
    200 <= status <= 299
  }

  /**
   * The mapping every API method applies: the data of an OK response; for
   * any other response the body's `err`, else its `error`, else
   * "HTTP <status>", with the status; for a throw its message, or
   * "Network error" for a thrown value that is not an `Error`.
   */
  function ResponseOf(outcome: FetchOutcome): (r: ApiResponse)
    ensures r.Success? <==> outcome.Responded? && IsOk(outcome.status)
    ensures r.Success? ==> r.data == outcome.data
    ensures outcome.Responded? && !IsOk(outcome.status) ==>
      r.statusCode == Some(outcome.status)
      && r.error == (if Truthy(Get(outcome.data, "err")) then outcome.data["err"]
                     else if Truthy(Get(outcome.data, "error")) then outcome.data["error"]
                     else Str("HTTP " + IntToString(outcome.status)))
    // a failed response always carries a truthy error
    ensures outcome.Responded? && !IsOk(outcome.status) ==> Truthy(Some(r.error))
    ensures outcome.Threw? ==> r == Failure(Str(outcome.message.GetOr("Network error")), None)
  {
    match outcome
    case Threw(message) => Failure(Str(message.GetOr("Network error")), None)
    case Responded(status, data) =>
      if IsOk(status) then Success(data)
      else
        var err, error := Get(data, "err"), Get(data, "error");
        Failure(if Truthy(err) then err.value else if Truthy(error) then error.value
                else Str("HTTP " + IntToString(status)), Some(status))
  }

  // ----------------------------------------------------------------- the service

  /** `CreateTaskParams` as `createLeadTask` fills it in. */
  datatype CreateTaskParams = CreateTaskParams(
    name: string, description: string, tags: seq<string>, priority: int, notifyAll: bool,
    customFields: seq<CustomField>)

  /** What a request sends. */
  datatype Payload =
    | NoPayload
    | TaskPayload(task: CreateTaskParams)
    // `Partial<CreateTaskParams>`, passed through as given
    | UpdatePayload(update: Body)
    | CommentPayload(commentText: string)

  /** One HTTP request: method, URL, authorisation header and body. */
  datatype Request = Request(httpMethod: string, url: string, authorization: string, payload: Payload)

  /** `ClickUpTaskResult` */
  datatype TaskResult = Created(taskId: Option<Json>, taskUrl: Option<Json>) | NotCreated(error: Json)

  const FailedToCreate := "Failed to create task"

  /** `New Lead: {firstName} - {email}` */
  function LeadTaskName(lead: LeadTaskData): string {
    "New Lead: " + lead.firstName + " - " + lead.email
  }

  class ClickUpService {
    const apiKey: string
    const listId: string
    const baseUrl: string
    const customFields: CustomFieldIds

    /** The base URL defaults to the public API's. */
    constructor(config: Config, customFields: CustomFieldIds)
      ensures apiKey == config.apiKey && listId == config.listId && this.customFields == customFields
      ensures baseUrl == if config.baseUrl != "" then config.baseUrl else DefaultBaseUrl
    {
      apiKey := config.apiKey;
      listId := config.listId;
      baseUrl := if config.baseUrl != "" then config.baseUrl else DefaultBaseUrl;
      this.customFields := customFields;
    }

    /** `formatLeadDescription`: the lines, pushed in order, joined with newlines. */
    method FormatLeadDescription(lead: LeadTaskData, shownDate: string) returns (description: string)
      ensures description == Join(DescriptionLines(lead, shownDate), "\n")
    {
      var lines := [Heading, "", ContactHeading, Bullet("Name", lead.firstName), Bullet("Email", lead.email)];
      if HasPhone(lead) {
        lines := lines + [Bullet("Phone", lead.phone.value)];
      }
      lines := lines + ["", DetailsHeading, Bullet("Source", lead.source), Bullet("Date", shownDate),
                        Bullet("Lead ID", IntToString(lead.leadId)), "", QuestionHeading, lead.question, "", Rule, Footer];
      description := Join(lines, "\n");
    }

    /** `buildCustomFields`: a field pushed for each configured id, in the fixed order. */
    method BuildCustomFields(lead: LeadTaskData) returns (fields: seq<CustomField>)
      ensures fields == CustomFieldsFor(customFields, lead)
    {
      fields := [];
      if customFields.email != "" {
        fields := fields + [CustomField(customFields.email, lead.email)];
      }
      assert fields == FieldPart(customFields, lead, EmailField);
      if customFields.phone != "" && HasPhone(lead) {
        fields := fields + [CustomField(customFields.phone, lead.phone.value)];
      }
      ghost var pushed := FieldPart(customFields, lead, EmailField) + FieldPart(customFields, lead, PhoneField);
      assert fields == pushed;
      if customFields.source != "" {
        fields := fields + [CustomField(customFields.source, lead.source)];
      }
      pushed := pushed + FieldPart(customFields, lead, SourceField);
      assert fields == pushed;
      if customFields.leadDate != "" {
        fields := fields + [CustomField(customFields.leadDate, lead.leadDate)];
      }
      pushed := pushed + FieldPart(customFields, lead, LeadDateField);
      assert fields == pushed;
      if customFields.leadId != "" {
        fields := fields + [CustomField(customFields.leadId, IntToString(lead.leadId))];
      }
    }

    /** `createTask`: POST the task to the list. */
    method CreateTask(params: CreateTaskParams, outcome: FetchOutcome) returns (request: Request, response: ApiResponse)
      ensures request == Request("POST", baseUrl + "/list/" + listId + "/task", apiKey, TaskPayload(params))
      ensures response == ResponseOf(outcome)
    {
      request := Request("POST", baseUrl + "/list/" + listId + "/task", apiKey, TaskPayload(params));
      response := ResponseOf(outcome);
    }

    /** `getTask`: the subtasks query only when asked for. */
    method GetTask(taskId: string, includeSubtasks: bool, outcome: FetchOutcome)
      returns (request: Request, response: ApiResponse)
      ensures request.httpMethod == "GET" && request.authorization == apiKey && request.payload == NoPayload
      ensures includeSubtasks ==> request.url == baseUrl + "/task/" + taskId + "?include_subtasks=true"
      ensures !includeSubtasks ==> request.url == baseUrl + "/task/" + taskId
      ensures response == ResponseOf(outcome)
    {
      var query := if includeSubtasks then "?include_subtasks=true" else "";
      request := Request("GET", baseUrl + "/task/" + taskId + query, apiKey, NoPayload);
      response := ResponseOf(outcome);
    }

    /** `updateTask`: PUT the given fields. */
    method UpdateTask(taskId: string, update: Body, outcome: FetchOutcome) returns (request: Request, response: ApiResponse)
      ensures request == Request("PUT", baseUrl + "/task/" + taskId, apiKey, UpdatePayload(update))
      ensures response == ResponseOf(outcome)
    {
      request := Request("PUT", baseUrl + "/task/" + taskId, apiKey, UpdatePayload(update));
      response := ResponseOf(outcome);
    }

    /** `addTaskComment`: POST `{ comment_text }`. */
    method AddTaskComment(taskId: string, comment: string, outcome: FetchOutcome)
      returns (request: Request, response: ApiResponse)
      ensures request == Request("POST", baseUrl + "/task/" + taskId + "/comment", apiKey, CommentPayload(comment))
      ensures response == ResponseOf(outcome)
    {
      request := Request("POST", baseUrl + "/task/" + taskId + "/comment", apiKey, CommentPayload(comment));
      response := ResponseOf(outcome);
    }

    /** `testConnection`: GET the authorised user. */
    method TestConnection(outcome: FetchOutcome) returns (request: Request, response: ApiResponse)
      ensures request == Request("GET", baseUrl + "/user", apiKey, NoPayload)
      ensures response == ResponseOf(outcome)
    {
      request := Request("GET", baseUrl + "/user", apiKey, NoPayload);
      response := ResponseOf(outcome);
    }

    /**
     * `createLeadTask`: the task for the lead, sent with `createTask`; the
     * new task's id and URL on success, otherwise the API's error or
     * "Failed to create task".
     */
    method CreateLeadTask(lead: LeadTaskData, shownDate: string, outcome: FetchOutcome)
      returns (task: CreateTaskParams, request: Request, result: TaskResult)
      ensures task.name == LeadTaskName(lead)
      ensures task.description == Join(DescriptionLines(lead, shownDate), "\n")
      ensures task.tags == [lead.source, "lead", "new"] && task.priority == 3 && !task.notifyAll
      ensures task.customFields == CustomFieldsFor(customFields, lead)
      ensures request == Request("POST", baseUrl + "/list/" + listId + "/task", apiKey, TaskPayload(task))
      ensures result.Created? <==> ResponseOf(outcome).Success?
      ensures result.Created? ==> result.taskId == Get(outcome.data, "id") && result.taskUrl == Get(outcome.data, "url")
      ensures result.NotCreated? ==>
        result.error == if Truthy(Some(ResponseOf(outcome).error)) then ResponseOf(outcome).error else Str(FailedToCreate)
    {
      var description := FormatLeadDescription(lead, shownDate);
      var fields := BuildCustomFields(lead);
      task := CreateTaskParams(LeadTaskName(lead), description, [lead.source, "lead", "new"], 3, false, fields);
      var response;
      request, response := CreateTask(task, outcome);
      if response.Success? {
        result := Created(Get(response.data, "id"), Get(response.data, "url"));
      } else {
        result := NotCreated(if Truthy(Some(response.error)) then response.error else Str(FailedToCreate));
      }
    }
  }

  /**
   * The "Failed to create task" default is reached only through a thrown
   * `Error` with an empty message: an HTTP failure always has its own error.
   */
  lemma DefaultErrorOnlyForEmptyThrow(outcome: FetchOutcome)
    requires ResponseOf(outcome).Failure? && !Truthy(Some(ResponseOf(outcome).error))
    ensures outcome == Threw(Some(""))
  {
  }
}
