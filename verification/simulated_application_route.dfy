/** The v0 modal's `POST /api/submit-application`: a template that checks
    the ClickUp configuration before reading the body and then simulates a
    created task instead of calling ClickUp. */
module SimulatedApplicationRoute {
  import opened Util
  import opened Json
  import opened Http

  const ConfigErrorMessage := "Server configuration error."
  const InternalErrorMessage := "Internal Server Error during submission."
  const SuccessMessage := "Application successfully submitted to Bravetto HQ!"
  const TaskUrlPrefix := "https://app.clickup.com/t/"

  function SimulatedTaskId(now: nat): (r: string)
    ensures StartsWith(r, "task_")
  {
    "task_" + NatToString(now)
  }

  /** The route. `body` is `None` when `request.json()` rejects; reading
      `body.email` for logging throws on a `null` body. No outbound call is
      made. */
  function Post(body: Option<Json>, env: Env, now: nat): (r: Response)
    ensures !Configured(env) ==> r == Response(500, map["message" := JStr(ConfigErrorMessage)])
    ensures Configured(env) && Nullish(body) ==>
      r == Response(500, map["message" := JStr(InternalErrorMessage)])
    ensures r.status == 200 <==> Configured(env) && !Nullish(body)
    ensures r.status == 200 ==>
      r.body.Keys == {"success", "message", "taskId", "taskUrl"} &&
      r.body["success"] == JBool(true) && r.body["message"] == JStr(SuccessMessage) &&
      r.body["taskId"].JStr? && StartsWith(r.body["taskId"].s, "task_") &&
      r.body["taskUrl"] == JStr(TaskUrlPrefix + r.body["taskId"].s)
  {
    if !Configured(env) then
      Response(500, map["message" := JStr(ConfigErrorMessage)])
    else if Nullish(body) then
      Response(500, map["message" := JStr(InternalErrorMessage)])
    else
      var id := SimulatedTaskId(now);
      Response(200, map[ "success" := JBool(true),
                         "message" := JStr(SuccessMessage),
                         "taskId" := JStr(id),
                         "taskUrl" := JStr(TaskUrlPrefix + id) ])
  }

  /** The configuration is checked first: with it missing, not even an
      unparsable body changes the answer. */
  lemma ConfigBeforeParse(body1: Option<Json>, body2: Option<Json>, env: Env, now1: nat, now2: nat)
    requires !Configured(env)
    ensures Post(body1, env, now1) == Post(body2, env, now2)
  {
  }

  /** The task id is `task_<now>` and the printed time can be read back
      from it. */
  lemma TaskIdCarriesTime(body: Option<Json>, env: Env, now: nat)
    requires Configured(env) && !Nullish(body)
    ensures var id := Post(body, env, now).body["taskId"].s;
      id[..5] == "task_" && ParseDecimal(id[5..]) == now
  {
    var id := SimulatedTaskId(now);
    assert id[5..] == NatToString(now);
    ParsePrinted(now);
  }
}
