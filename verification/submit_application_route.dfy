/** `POST /api/submit-application`: parses the body, checks the ClickUp
    configuration, creates a task without validating anything, and answers
    200 even when ClickUp refused the task. */
module SubmitApplicationRoute {
  import opened Util
  import opened Json
  import opened Http

  const ConfigErrorMessage := "Server configuration error."
  const InternalErrorMessage := "Internal Server Error during submission."
  const SuccessMessage := "Application successfully submitted to Bravetto HQ!"
  const ApplicationTags := ["application", "candidate"]

  /** The payload's custom fields, in order: the environment variable that
      names each field's id, and the body key of its value. */
  const ApplicationFields: seq<(string, string)> := [
    ("CLICKUP_FIELD_ID_FIRST_NAME", "firstName"),
    ("CLICKUP_FIELD_ID_LAST_NAME", "lastName"),
    ("CLICKUP_FIELD_ID_EMAIL", "email"),
    ("CLICKUP_FIELD_ID_PHONE", "phone")]

  /** The four custom-field entries in payload order, before filtering:
      entry `i` pairs the id configured for field `i` of the table with the
      body's value under that field's key. */
  function Candidates(body: Option<Json>, env: Env): (r: seq<Candidate>)
    ensures |r| == |ApplicationFields| == 4
    ensures forall i :: 0 <= i < |r| ==>
      r[i] == Candidate(EnvVar(env, ApplicationFields[i].0), Prop(body, ApplicationFields[i].1))
  {
    [ Candidate(EnvVar(env, "CLICKUP_FIELD_ID_FIRST_NAME"), Prop(body, "firstName")),
      Candidate(EnvVar(env, "CLICKUP_FIELD_ID_LAST_NAME"), Prop(body, "lastName")),
      Candidate(EnvVar(env, "CLICKUP_FIELD_ID_EMAIL"), Prop(body, "email")),
      Candidate(EnvVar(env, "CLICKUP_FIELD_ID_PHONE"), Prop(body, "phone")) ]
  }

  /** The application filter: id and value both truthy, so `""`, `0`,
      `false` and `null` values are dropped. */
  predicate KeepField(c: Candidate)
  {
    TruthyId(c.id) && Truthy(c.value)
  }

  function TaskName(body: Option<Json>): string
  {
    FullName(Prop(body, "firstName"), Prop(body, "lastName")) + " - Application"
  }

  /** `body.phone || 'Not provided'`, as printed into the description. */
  function PhoneText(body: Option<Json>): (r: string)
    ensures !Truthy(Prop(body, "phone")) ==> r == "Not provided"
    ensures Truthy(Prop(body, "phone")) ==> r == ToStr(Prop(body, "phone"))
  {
    var phone := Prop(body, "phone");
    if Truthy(phone) then ToStr(phone) else "Not provided"
  }

  function Highlights(body: Option<Json>): seq<string>
  {
    [ "**Name:** " + FullName(Prop(body, "firstName"), Prop(body, "lastName")),
      "**Email:** " + ToStr(Prop(body, "email")),
      "**Phone:** " + PhoneText(body) ]
  }

  function TaskCall(body: Option<Json>, env: Env): Call
    requires Configured(env)
  {
    CreateTask(ListTaskUrl(env.vars[ListIdVar]), env.vars[ApiKeyVar], TaskName(body),
      Highlights(body), TaskStatus, TaskPriority, ApplicationTags,
      Filter(Candidates(body, env), KeepField))
  }

  function MessageResponse(status: nat, message: string): Response
  {
    Response(status, map["message" := JStr(message)])
  }

  /** `taskId` falls back to `task_<now>` and `taskUrl` to `null`. */
  function SuccessBody(created: Option<Json>, now: nat): map<string, Json>
  {
    map[ "success" := JBool(true),
         "message" := JStr(SuccessMessage),
         "taskId" := OrFallback(created, "id", JStr("task_" + NatToString(now))),
         "taskUrl" := OrFallback(created, "url", JNull) ]
  }

  /** `clickUpResponse.ok ? await clickUpResponse.json() : null`. */
  function Created(task: Fetch): Option<Json>
    requires task.Reply?
  {
    if task.ok then task.body else Some(JNull)
  }

  /** The route. `body` is `None` when `request.json()` rejects, which
      happens before the configuration check; `body.email` is then read
      for logging, which throws on a `null` body. */
  function Post(body: Option<Json>, env: Env, task: Fetch, now: nat): (out: Outcome)
    ensures out.response.status in {200, 500}
    ensures body.Some? && !Configured(env) ==>
      out == Outcome(MessageResponse(500, ConfigErrorMessage), [])
    ensures body.None? ==> out == Outcome(MessageResponse(500, InternalErrorMessage), [])
    ensures !Nullish(body) && Configured(env) ==>
      out.calls == [TaskCall(body, env)] &&
      out.calls[0].name == TaskName(body)
    ensures |out.calls| <= 1
    ensures out.response.status == 500 ==>
      out.response.body in {map["message" := JStr(ConfigErrorMessage)],
                            map["message" := JStr(InternalErrorMessage)]}
    ensures out.response.status == 200 <==>
      !Nullish(body) && Configured(env) && task.Reply? && task.body.Some?
  {
    if body.None? then
      Outcome(MessageResponse(500, InternalErrorMessage), [])
    else if !Configured(env) then
      Outcome(MessageResponse(500, ConfigErrorMessage), [])
    else if body.value.JNull? then
      Outcome(MessageResponse(500, InternalErrorMessage), [])
    else
      var call := TaskCall(body, env);
      match task
      case NetworkError => Outcome(MessageResponse(500, InternalErrorMessage), [call])
      case Reply(ok, reply) =>
        if reply.None? then
          Outcome(MessageResponse(500, InternalErrorMessage), [call])
        else
          Outcome(Response(200, SuccessBody(Created(task), now)), [call])
  }

  /** The payload keeps exactly the candidates whose id and value are both
      truthy; unlike the quest route, a value of 0 or `""` is dropped. */
  lemma CustomFieldsFilter(body: Option<Json>, env: Env, task: Fetch, now: nat)
    requires Post(body, env, task, now).calls != []
    ensures var fields := Post(body, env, task, now).calls[0].customFields;
      fields == Filter(Candidates(body, env), KeepField) &&
      (forall c :: c in fields <==> c in Candidates(body, env) && KeepField(c))
    ensures forall c: Candidate :: c.value in {Some(JNum(0)), Some(JStr(""))} ==> !KeepField(c)
  {
  }

  /** Any ClickUp reply with a JSON body yields 200 and success; the ids
      fall back when the task was refused. */
  lemma SoftSuccess(body: Option<Json>, env: Env, error: Json, now: nat)
    requires !Nullish(body) && Configured(env)
    ensures var r := Post(body, env, Reply(false, Some(error)), now).response;
      r.status == 200 && r.body["success"] == JBool(true) &&
      r.body["taskId"] == JStr("task_" + NatToString(now)) &&
      r.body["taskUrl"] == JNull
  {
  }

  /** A 200 answer is the success body built from the created task. */
  lemma OkResponse(body: Option<Json>, env: Env, task: Fetch, now: nat)
    requires Post(body, env, task, now).response.status == 200
    ensures !Nullish(body) && Configured(env) && task.Reply? && task.body.Some?
    ensures Post(body, env, task, now).response == Response(200, SuccessBody(Created(task), now))
  {
  }

  /** An accepted task's truthy id and url are the ones reported. */
  lemma TaskIdFromClickUp(body: Option<Json>, env: Env, created: Json, now: nat)
    requires !Nullish(body) && Configured(env)
    ensures var r := Post(body, env, Reply(true, Some(created)), now).response;
      r.status == 200 && r.body["success"] == JBool(true) &&
      (Truthy(Prop(Some(created), "id")) ==> Some(r.body["taskId"]) == Prop(Some(created), "id")) &&
      (!Truthy(Prop(Some(created), "id")) ==> r.body["taskId"] == JStr("task_" + NatToString(now))) &&
      (Truthy(Prop(Some(created), "url")) ==> Some(r.body["taskUrl"]) == Prop(Some(created), "url")) &&
      (!Truthy(Prop(Some(created), "url")) ==> r.body["taskUrl"] == JNull)
  {
  }

  /** There is no validation: with a configuration, any object body makes a
      task call, whatever its fields are. */
  lemma NoValidation(fields: map<string, Json>, env: Env, task: Fetch, now: nat)
    requires Configured(env)
    ensures Post(Some(JObj(fields)), env, task, now).calls ==
      [TaskCall(Some(JObj(fields)), env)]
  {
  }
}
