/** What the three submission routes share: the environment they read, the
    outbound calls they make, the downstream replies they receive and the
    responses they return. A route is a function from (parsed body,
    environment, downstream reply, clock) to (response, outbound calls). */
module Http {
  import opened Util
  import opened Json

  /** `process.env`: every variable that is set, with its string value. */
  datatype Env = Env(vars: map<string, string>)

  function EnvVar(env: Env, name: string): (r: Option<string>)
    ensures r.Some? <==> name in env.vars
  {
    if name in env.vars then Some(env.vars[name]) else None
  }

  /** `process.env.NAME` is truthy: set and not empty. */
  predicate EnvSet(env: Env, name: string)
  {
    name in env.vars && env.vars[name] != ""
  }

  const ApiKeyVar := "CLICKUP_API_KEY"
  const ListIdVar := "CLICKUP_LIST_ID"

  /** Both the API key and the list id are configured. */
  predicate Configured(env: Env)
  {
    EnvSet(env, ApiKeyVar) && EnvSet(env, ListIdVar)
  }

  /** The same environment with one variable set to another value (or unset). */
  function WithVar(env: Env, name: string, value: Option<string>): (r: Env)
    ensures forall n :: n != name ==> EnvVar(r, n) == EnvVar(env, n)
    ensures EnvVar(r, name) == value
  {
    match value
    case None => Env(env.vars - {name})
    case Some(v) => Env(env.vars[name := v])
  }

  /** One `{ id, value }` entry of a task's `custom_fields`: `id` comes from
      an environment variable and may be undefined. */
  datatype Candidate = Candidate(id: Option<string>, value: Option<Json>)

  predicate TruthyId(id: Option<string>)
  {
    id.Some? && id.value != ""
  }

  /** An outbound request. `highlights` are the lines of the task's markdown
      description that this model states; the rest of the text is left out. */
  datatype Call =
    | CreateTask(url: string, authorization: string, name: string,
                 highlights: seq<string>, status: string, priority: int,
                 tags: seq<string>, customFields: seq<Candidate>)
    | Notify(url: string, text: string, email: Option<Json>,
             taskId: Option<Json>, taskUrl: Option<Json>)

  /** How the task-creation `fetch` went: the request itself failed, or a
      reply came back with its `ok` flag and its body, which is `None` when
      it is not JSON (so that `.json()` rejects). */
  datatype Fetch = NetworkError | Reply(ok: bool, body: Option<Json>)

  datatype Response = Response(status: nat, body: map<string, Json>)

  datatype Outcome = Outcome(response: Response, calls: seq<Call>)

  const TaskStatus := "open"
  const TaskPriority := 2

  const ClickUpListBase := "https://api.clickup.com/api/v2/list/"

  /** The ClickUp endpoint that creates a task in a list: the list id reads
      back from between the API's list prefix and `/task`. */
  function ListTaskUrl(listId: string): (r: string)
    ensures StartsWith(r, ClickUpListBase) && EndsWith(r, "/task")
    ensures |r| == |ClickUpListBase| + |listId| + 5
    ensures r[|ClickUpListBase|..|r| - 5] == listId
  {
    ClickUpListBase + listId + "/task"
  }

  /** `${first} ${last}`, as a template literal prints it. */
  function FullName(first: Option<Json>, last: Option<Json>): string
  {
    ToStr(first) + " " + ToStr(last)
  }

  /** `created?.key || fallback`: the downstream task's member when it is
      truthy, otherwise the fallback. */
  function OrFallback(created: Option<Json>, key: string, fallback: Json): (r: Json)
    ensures Truthy(Prop(created, key)) ==> Some(r) == Prop(created, key)
    ensures !Truthy(Prop(created, key)) ==> r == fallback
  {
    var v := Prop(created, key);
    if Truthy(v) then v.value else fallback
  }
}
