/** `POST /api/submit-quest`: checks the three identity fields, checks the
    ClickUp configuration, creates a task, optionally notifies a webhook and
    answers with a success body even when ClickUp refused the task. */
module SubmitQuestRoute {
  import opened Util
  import opened Json
  import opened Http

  const BadRequestMessage := "First name, last name, and email are required"
  const ConfigErrorMessage := "Server configuration error"
  const FailureMessage := "Failed to process quest submission"
  const SuccessMessage := "Quest completed successfully! Our team will review your application soon."
  const WebhookVar := "NOTIFICATION_WEBHOOK_URL"
  const QuestTags := ["quest-application", "candidate"]

  function BasicInfo(data: Option<Json>): Option<Json>
  {
    Prop(data, "basicInfo")
  }

  /** `data.basicInfo?.firstName` and its two siblings are all truthy. */
  predicate HasIdentity(data: Option<Json>)
  {
    var bi := BasicInfo(data);
    Truthy(Prop(bi, "firstName")) && Truthy(Prop(bi, "lastName")) &&
    Truthy(Prop(bi, "email"))
  }

  predicate IsArray(v: Option<Json>)
  {
    v.Some? && v.value.JArr?
  }

  /** Building the description throws a TypeError: a section object is
      missing, or one of the lists it `join`s is not an array. */
  predicate DescriptionThrows(data: Option<Json>)
  {
    var ex := Prop(data, "experience");
    var ts := Prop(data, "technicalSkills");
    var inn := Prop(data, "innovation");
    var cu := Prop(data, "culture");
    Nullish(ex) || !IsArray(Prop(ex, "techStack")) ||
    Nullish(ts) || !IsArray(Prop(ts, "specializations")) ||
    Nullish(Prop(data, "problemSolving")) ||
    Nullish(Prop(data, "systemDesign")) ||
    Nullish(inn) || !IsArray(Prop(inn, "emergingTech")) ||
    Nullish(cu) || !IsArray(Prop(cu, "values"))
  }

  /** The payload's custom fields, in order: the environment variable that
      names each field's id, and the section and key of its value. */
  const QuestFields: seq<(string, string, string)> := [
    ("CLICKUP_FIELD_ID_FIRST_NAME", "basicInfo", "firstName"),
    ("CLICKUP_FIELD_ID_LAST_NAME", "basicInfo", "lastName"),
    ("CLICKUP_FIELD_ID_EMAIL", "basicInfo", "email"),
    ("CLICKUP_FIELD_ID_PORTFOLIO", "basicInfo", "portfolio"),
    ("CLICKUP_FIELD_ID_RATING_REACT", "technicalSkills", "frontendRating"),
    ("CLICKUP_FIELD_ID_RATING_DB", "technicalSkills", "backendRating"),
    ("CLICKUP_FIELD_ID_RATING_AI", "systemDesign", "scalabilityRating"),
    ("CLICKUP_FIELD_ID_RATING_EDGE", "technicalSkills", "devOpsRating"),
    ("CLICKUP_FIELD_ID_SUPERPOWER", "innovation", "innovationExample")]

  /** The nine custom-field entries in payload order, before filtering:
      entry `i` pairs the id configured for field `i` of the table with the
      submitted value that field names. */
  function Candidates(data: Option<Json>, env: Env): (r: seq<Candidate>)
    ensures |r| == |QuestFields| == 9
    ensures forall i :: 0 <= i < |r| ==>
      r[i] == Candidate(EnvVar(env, QuestFields[i].0), Prop(Prop(data, QuestFields[i].1), QuestFields[i].2))
  {
    var bi := BasicInfo(data);
    var ts := Prop(data, "technicalSkills");
    var sd := Prop(data, "systemDesign");
    var inn := Prop(data, "innovation");
    [ Candidate(EnvVar(env, "CLICKUP_FIELD_ID_FIRST_NAME"), Prop(bi, "firstName")),
      Candidate(EnvVar(env, "CLICKUP_FIELD_ID_LAST_NAME"), Prop(bi, "lastName")),
      Candidate(EnvVar(env, "CLICKUP_FIELD_ID_EMAIL"), Prop(bi, "email")),
      Candidate(EnvVar(env, "CLICKUP_FIELD_ID_PORTFOLIO"), Prop(bi, "portfolio")),
      Candidate(EnvVar(env, "CLICKUP_FIELD_ID_RATING_REACT"), Prop(ts, "frontendRating")),
      Candidate(EnvVar(env, "CLICKUP_FIELD_ID_RATING_DB"), Prop(ts, "backendRating")),
      Candidate(EnvVar(env, "CLICKUP_FIELD_ID_RATING_AI"), Prop(sd, "scalabilityRating")),
      Candidate(EnvVar(env, "CLICKUP_FIELD_ID_RATING_EDGE"), Prop(ts, "devOpsRating")),
      Candidate(EnvVar(env, "CLICKUP_FIELD_ID_SUPERPOWER"), Prop(inn, "innovationExample")) ]
  }

  /** The quest filter: a truthy id and a value that is neither undefined
      nor the empty string. Unlike a truthiness test it keeps 0 and false. */
  predicate KeepField(c: Candidate)
  {
    TruthyId(c.id) && c.value.Some? && c.value != Some(JStr(""))
  }

  function TaskName(data: Option<Json>): string
  {
    var bi := BasicInfo(data);
    FullName(Prop(bi, "firstName"), Prop(bi, "lastName")) + " - Quest Application"
  }

  function Highlights(data: Option<Json>): seq<string>
  {
    var bi := BasicInfo(data);
    [ "- **Name:** " + FullName(Prop(bi, "firstName"), Prop(bi, "lastName")),
      "- **Email:** " + ToStr(Prop(bi, "email")) ]
  }

  function TaskCall(data: Option<Json>, env: Env): Call
    requires Configured(env)
  {
    CreateTask(ListTaskUrl(env.vars[ListIdVar]), env.vars[ApiKeyVar], TaskName(data),
      Highlights(data), TaskStatus, TaskPriority, QuestTags,
      Filter(Candidates(data, env), KeepField))
  }

  function ErrorResponse(status: nat, message: string): Response
  {
    Response(status, map["error" := JStr(message)])
  }

  /** The success body: `taskId` falls back to `QUEST-<now>`, and `data`
      echoes the identity fields. */
  function SuccessBody(data: Option<Json>, created: Option<Json>, now: nat): map<string, Json>
    requires HasIdentity(data)
  {
    var bi := BasicInfo(data);
    var first := Prop(bi, "firstName");
    var last := Prop(bi, "lastName");
    var echo := map[ "firstName" := first.value, "lastName" := last.value,
                     "fullName" := JStr(FullName(first, last)),
                     "email" := Prop(bi, "email").value ];
    map[ "success" := JBool(true),
         "message" := JStr(SuccessMessage),
         "taskId" := OrFallback(created, "id", JStr("QUEST-" + NatToString(now))),
         "data" := JObj(echo) ]
  }

  function WebhookCall(data: Option<Json>, env: Env, created: Option<Json>): Call
    requires EnvSet(env, WebhookVar)
  {
    var bi := BasicInfo(data);
    Notify(env.vars[WebhookVar],
      "New Quest Application: " + FullName(Prop(bi, "firstName"), Prop(bi, "lastName")),
      Prop(bi, "email"), Prop(created, "id"), Prop(created, "url"))
  }

  /** The created task the response reads: the reply on success, `null`
      on a refusal (the refusal's body is only logged). */
  function Created(task: Fetch): Option<Json>
    requires task.Reply?
  {
    if task.ok then task.body else Some(JNull)
  }

  /** The route. `body` is `None` when `request.json()` rejects; `task` is
      how the ClickUp call went; `now` is `Date.now()`. A failed webhook
      call is caught and ignored, so its outcome is not a parameter. */
  function Post(body: Option<Json>, env: Env, task: Fetch, now: nat): (out: Outcome)
    ensures out.response.status in {200, 400, 500}
    ensures out.response.status == 400 <==> !Nullish(body) && !HasIdentity(body)
    ensures out.response.status == 400 ==>
      out == Outcome(ErrorResponse(400, BadRequestMessage), [])
    ensures !Nullish(body) && HasIdentity(body) && !Configured(env) ==>
      out == Outcome(ErrorResponse(500, ConfigErrorMessage), [])
    ensures out.calls != [] ==>
      Configured(env) && out.calls[0] == TaskCall(body, env) &&
      out.calls[0].name == TaskName(body)
    ensures out.response.status == 500 ==>
      out.response.body in {map["error" := JStr(ConfigErrorMessage)],
                            map["error" := JStr(FailureMessage)]}
    ensures out.response.status == 200 ==>
      |out.calls| == (if EnvSet(env, WebhookVar) then 2 else 1) &&
      "success" in out.response.body && out.response.body["success"] == JBool(true)
    ensures |out.calls| == 2 ==> out.calls[1].Notify? && out.response.status == 200
  {
    if Nullish(body) then
      // a body that is not JSON, or `data.basicInfo` on `null`
      Outcome(ErrorResponse(500, FailureMessage), [])
    else if !HasIdentity(body) then
      Outcome(ErrorResponse(400, BadRequestMessage), [])
    else if !Configured(env) then
      Outcome(ErrorResponse(500, ConfigErrorMessage), [])
    else if DescriptionThrows(body) then
      Outcome(ErrorResponse(500, FailureMessage), [])
    else
      var call := TaskCall(body, env);
      match task
      case NetworkError => Outcome(ErrorResponse(500, FailureMessage), [call])
      case Reply(ok, reply) =>
        if reply.None? then
          // `.json()` is awaited on either branch and rejects
          Outcome(ErrorResponse(500, FailureMessage), [call])
        else
          var created := Created(task);
          var notify := if EnvSet(env, WebhookVar) then [WebhookCall(body, env, created)] else [];
          Outcome(Response(200, SuccessBody(body, created, now)), [call] + notify)
  }

  /** The payload keeps exactly the candidates with a truthy id and a
      defined, non-empty value, in payload order, and a rating of 0 stays. */
  lemma CustomFieldsFilter(body: Option<Json>, env: Env, task: Fetch, now: nat)
    requires Post(body, env, task, now).calls != []
    ensures var fields := Post(body, env, task, now).calls[0].customFields;
      fields == Filter(Candidates(body, env), KeepField) &&
      (forall c :: c in fields <==> c in Candidates(body, env) && KeepField(c))
    ensures forall id: string :: id != "" ==> KeepField(Candidate(Some(id), Some(JNum(0))))
  {
  }

  /** A ClickUp refusal with a JSON body still answers 200 with success,
      and the task id falls back to `QUEST-<now>`. */
  lemma SoftSuccess(body: Option<Json>, env: Env, error: Json, now: nat)
    requires !Nullish(body) && HasIdentity(body) && Configured(env) && !DescriptionThrows(body)
    ensures var r := Post(body, env, Reply(false, Some(error)), now).response;
      r.status == 200 && r.body["success"] == JBool(true) &&
      r.body["taskId"] == JStr("QUEST-" + NatToString(now))
  {
  }

  /** An accepted task with a truthy id reports that id. */
  lemma TaskIdFromClickUp(body: Option<Json>, env: Env, created: Json, now: nat)
    requires !Nullish(body) && HasIdentity(body) && Configured(env) && !DescriptionThrows(body)
    requires Truthy(Prop(Some(created), "id"))
    ensures Some(Post(body, env, Reply(true, Some(created)), now).response.body["taskId"]) ==
      Prop(Some(created), "id")
  {
  }

  /** A 200 answer is the success body built from the created task. */
  lemma OkResponse(body: Option<Json>, env: Env, task: Fetch, now: nat)
    requires Post(body, env, task, now).response.status == 200
    ensures !Nullish(body) && HasIdentity(body) && Configured(env) && !DescriptionThrows(body)
    ensures task.Reply? && task.body.Some?
    ensures Post(body, env, task, now).response == Response(200, SuccessBody(body, Created(task), now))
  {
  }

  /** The webhook setting changes the outbound calls only: the response is
      the same whether or not a webhook is configured. */
  lemma WebhookDoesNotChangeResponse(body: Option<Json>, env: Env, task: Fetch, now: nat,
                                     url: Option<string>)
    ensures Post(body, WithVar(env, WebhookVar, url), task, now).response ==
      Post(body, env, task, now).response
  {
    var env' := WithVar(env, WebhookVar, url);
    assert EnvVar(env', ApiKeyVar) == EnvVar(env, ApiKeyVar);
    assert EnvVar(env', ListIdVar) == EnvVar(env, ListIdVar);
    assert Configured(env') == Configured(env);
    if Nullish(body) || !HasIdentity(body) || !Configured(env) || DescriptionThrows(body) {
    } else if task.NetworkError? || task.body.None? {
    } else {
      OkResponse(body, env, task, now);
      OkResponse(body, env', task, now);
    }
  }

  /** The response echoes the identity fields and joins the full name. */
  lemma EchoesIdentity(body: Option<Json>, env: Env, task: Fetch, now: nat)
    requires Post(body, env, task, now).response.status == 200
    ensures var bi := BasicInfo(body);
      var r := Post(body, env, task, now).response.body;
      "data" in r && r["data"].JObj? &&
      var d := r["data"].fields;
      "firstName" in d && "lastName" in d && "email" in d && "fullName" in d &&
      Some(d["firstName"]) == Prop(bi, "firstName") &&
      Some(d["lastName"]) == Prop(bi, "lastName") &&
      Some(d["email"]) == Prop(bi, "email") &&
      d["fullName"] == JStr(ToStr(Prop(bi, "firstName")) + " " + ToStr(Prop(bi, "lastName")))
  {
    OkResponse(body, env, task, now);
  }
}
