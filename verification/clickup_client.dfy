/**
 * server/utils/clickupClient.ts: the configuration checks of `createTask`,
 * `getTask` and `updateTask`, and how each turns a failed axios request into
 * a `ClickUpError` of type API, NETWORK, UNEXPECTED or VALIDATION.
 *
 * The axios request is a parameter: the response data it resolves with, or
 * the error it rejects with.
 */
module ClickUpClient {
  import opened Outcomes
  import opened JsonValue

  const BaseUrl := "https://api.clickup.com/api/v2"

  /** `CLICKUP_API_TOKEN` and `CLICKUP_LIST_ID`, "" when unset. */
  datatype Config = Config(token: string, listId: string)

  /** `ClickUpError.type` */
  datatype ErrorType = Api | Network | Validation | Unexpected

  /** What `ClickUpError.details` carries. */
  datatype Details =
    | NoDetails
    // which of the two settings is missing
    | Missing(token: bool, listId: bool)
    | ResponseData(data: Body)
    | PendingRequest
    | Cause(error: Thrown)

  datatype ClickUpError = ClickUpError(message: string, errorType: ErrorType, details: Details)

  /**
   * An axios rejection: the response's data if a response arrived, whether a
   * request went out, and the error's `message` (`None` when it has none).
   */
  datatype Thrown = Thrown(response: Option<Body>, request: bool, message: Option<Json>)

  /** What an axios call gives: the response data, or a rejection. */
  datatype AxiosOutcome = Resolved(data: Body) | Rejected(error: Thrown)

  const NetworkMessage := "Network Error: Unable to reach the server"

  /** `${data.err || fallback}` */
  function ErrOr(data: Body, fallback: string): string {
    if Truthy(Get(data, "err")) then ToJsString(Get(data, "err")) else fallback
  }

  /**
   * The catch block: a response makes it an API error, else a sent request a
   * network error, else an unexpected one. `fallback` is the text used when
   * the response data has no `err`; `withDetails` is set for `createTask`,
   * which attaches the request or the error itself as details.
   */
  function Classify(e: Thrown, fallback: string, withDetails: bool): (r: ClickUpError)
    ensures r.errorType == Api <==> e.response.Some?
    ensures r.errorType == Network <==> e.response.None? && e.request
    ensures r.errorType == Unexpected <==> e.response.None? && !e.request
    ensures r.errorType != Validation
    ensures e.response.Some? ==>
      r.message == "API Error: " + ErrOr(e.response.value, fallback) && r.details == ResponseData(e.response.value)
    ensures e.response.None? && e.request ==> r.message == NetworkMessage
    ensures e.response.None? && !e.request ==> r.message == "Unexpected Error: " + ToJsString(e.message)
    ensures e.response.None? && !withDetails ==> r.details == NoDetails
  {
    if e.response.Some? then
      ClickUpError("API Error: " + ErrOr(e.response.value, fallback), Api, ResponseData(e.response.value))
    else if e.request then
      ClickUpError(NetworkMessage, Network, if withDetails then PendingRequest else NoDetails)
    else
      ClickUpError("Unexpected Error: " + ToJsString(e.message), Unexpected, if withDetails then Cause(e) else NoDetails)
  }

  /** `TaskData` */
  datatype TaskData = TaskData(
    name: string, description: string, assignees: seq<int>, tags: seq<string>, status: string,
    priority: int, dueDate: Option<int>, startDate: Option<int>, customFields: seq<Json>)

  /** What is sent: method, path under the base URL, and body. */
  datatype Request = Post(path: string, task: TaskData) | GetRequest(path: string) | Put(path: string, updates: Body)

  /** A call of one of the functions: the request it sent, if any, and what it returned or threw. */
  datatype Call<T> = Call(sent: Option<Request>, result: Result<T, ClickUpError>)

  const ConfigMissing := "ClickUp configuration is missing"
  const TokenMissing := "ClickUp API token is missing"

  /**
   * `createTask`: without a token or a list id a VALIDATION error saying which
   * is missing, and nothing sent; otherwise the task posted to the list and
   * the response data, or the classified error.
   */
  function CreateTask(config: Config, task: TaskData, outcome: AxiosOutcome): (c: Call<Body>)
    ensures config.token == "" || config.listId == "" ==>
      c == Call(None, Err(ClickUpError(ConfigMissing, Validation, Missing(config.token == "", config.listId == ""))))
    ensures config.token != "" && config.listId != "" ==> c.sent == Some(Post("/list/" + config.listId + "/task", task))
    ensures c.result.Ok? <==> config.token != "" && config.listId != "" && outcome.Resolved?
    ensures c.result.Ok? ==> c.result.value == outcome.data
    ensures c.sent.Some? && outcome.Rejected? ==> c.result == Err(Classify(outcome.error, "Something went wrong", true))
  {
    if config.token == "" || config.listId == "" then
      Call(None, Err(ClickUpError(ConfigMissing, Validation, Missing(config.token == "", config.listId == ""))))
    else
      Call(Some(Post("/list/" + config.listId + "/task", task)),
           match outcome
           case Resolved(data) => Ok(data)
           case Rejected(e) => Err(Classify(e, "Something went wrong", true)))
  }

  /** `getTask`: only the token is required. */
  function GetTask(config: Config, taskId: string, outcome: AxiosOutcome): (c: Call<Body>)
    ensures config.token == "" ==> c == Call(None, Err(ClickUpError(TokenMissing, Validation, NoDetails)))
    ensures config.token != "" ==> c.sent == Some(GetRequest("/task/" + taskId))
    ensures c.result.Ok? <==> config.token != "" && outcome.Resolved?
    ensures c.sent.Some? && outcome.Rejected? ==> c.result == Err(Classify(outcome.error, "Failed to get task", false))
  {
    if config.token == "" then Call(None, Err(ClickUpError(TokenMissing, Validation, NoDetails)))
    else
      Call(Some(GetRequest("/task/" + taskId)),
           match outcome
           case Resolved(data) => Ok(data)
           case Rejected(e) => Err(Classify(e, "Failed to get task", false)))
  }

  /** `updateTask`: only the token is required. */
  function UpdateTask(config: Config, taskId: string, updates: Body, outcome: AxiosOutcome): (c: Call<Body>)
    ensures config.token == "" ==> c == Call(None, Err(ClickUpError(TokenMissing, Validation, NoDetails)))
    ensures config.token != "" ==> c.sent == Some(Put("/task/" + taskId, updates))
    ensures c.result.Ok? <==> config.token != "" && outcome.Resolved?
    ensures c.sent.Some? && outcome.Rejected? ==> c.result == Err(Classify(outcome.error, "Failed to update task", false))
  {
    if config.token == "" then Call(None, Err(ClickUpError(TokenMissing, Validation, NoDetails)))
    else
      Call(Some(Put("/task/" + taskId, updates)),
           match outcome
           case Resolved(data) => Ok(data)
           case Rejected(e) => Err(Classify(e, "Failed to update task", false)))
  }

  /** A VALIDATION error is raised only by the configuration checks, before anything is sent. */
  lemma ValidationOnlyBeforeSending(config: Config, task: TaskData, taskId: string, updates: Body, outcome: AxiosOutcome)
    ensures CreateTask(config, task, outcome).result.Err? && CreateTask(config, task, outcome).result.error.errorType == Validation
            <==> CreateTask(config, task, outcome).sent.None?
    ensures GetTask(config, taskId, outcome).result.Err? && GetTask(config, taskId, outcome).result.error.errorType == Validation
            <==> GetTask(config, taskId, outcome).sent.None?
    ensures UpdateTask(config, taskId, updates, outcome).result.Err?
            && UpdateTask(config, taskId, updates, outcome).result.error.errorType == Validation
            <==> UpdateTask(config, taskId, updates, outcome).sent.None?
  {
  }

  /** Every error the three functions throw has a non-empty message. */
  lemma ErrorMessagesNonEmpty(config: Config, task: TaskData, taskId: string, updates: Body, outcome: AxiosOutcome)
    ensures CreateTask(config, task, outcome).result.Err? ==> CreateTask(config, task, outcome).result.error.message != ""
    ensures GetTask(config, taskId, outcome).result.Err? ==> GetTask(config, taskId, outcome).result.error.message != ""
    ensures UpdateTask(config, taskId, updates, outcome).result.Err? ==>
      UpdateTask(config, taskId, updates, outcome).result.error.message != ""
  {
  }
}
