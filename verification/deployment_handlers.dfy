/**
 * The orchestrator's deployment endpoints
 * (`challenge-orchestrator-service/internal/api/handlers/deployement.go` and
 * `.../handlers/validation.go`): deploy, status, destroy and results. Each
 * handler answers with a status code and a body; `http.Error` bodies are
 * their text.
 */
module DeploymentHandlers {
  import opened Wrappers
  import opened OrchestratorDomain
  import opened InMemoryAdapters
  import opened RepositoryPort
  import opened DeployService

  datatype Body =
    | ErrorText(text: string)
    | Deployed(challengeId: string, deploymentId: string, status: string)
    | StatusBody(deploymentId: string, status: string)
    | NoContent
    | ResultBody(deploymentId: string, result: Option<ValidationResult>, status: string)
    | ResultListBody(deploymentId: string, results: seq<ValidationResult>, status: string)

  datatype Reply = Reply(code: int, body: Body)

  datatype Handled = Handled(reply: Reply, repo: Repo, calls: seq<DeployerCall>)

  /** The JSON body of a deploy request; nothing when it does not decode. */
  datatype DeployRequest = DeployRequest(name: string, manifest: string, userId: string)

  /** The challenge a deploy request describes, under a freshly generated id. */
  function NewChallenge(req: DeployRequest, freshId: string): (c: Challenge)
    ensures c.id == freshId && c.name == req.name && c.manifest == req.manifest
    ensures c.status == ChallengeInitializing && IsValidChallengeStatus(c.status)
  {
    Challenge(freshId, req.name, "", 0, 0, req.manifest, ChallengeInitializing)
  }

  /** `DeployChallengeHandler`. */
  function DeployChallengeHandler(body: Option<DeployRequest>, freshId: string, repo: Repo, faults: Faults,
                                  deployReply: Result<Deployment, string>): (h: Handled)
    ensures body.None? ==> h == Handled(Reply(400, ErrorText("invalid request body")), repo, [])
    ensures body.Some? ==>
      var o := DeployChallenge(repo, faults, NewChallenge(body.value, freshId), body.value.userId, deployReply);
      && h.repo == o.repo && h.calls == o.calls
      && (o.result.Err? ==> h.reply == Reply(500, ErrorText("deployment failed: " + o.result.error)))
      && (o.result.Ok? ==> h.reply == Reply(200, Deployed(freshId, o.result.value.id, o.result.value.status)))
    ensures h.reply.code == 200 <==> body.Some? && faults.saveChallenge.None? && deployReply.Ok? && faults.saveDeployment.None?
  {
    match body
    case None => Handled(Reply(400, ErrorText("invalid request body")), repo, [])
    case Some(req) =>
      var c := NewChallenge(req, freshId);
      var o := DeployChallenge(repo, faults, c, req.userId, deployReply);
      match o.result
      case Err(e) => Handled(Reply(500, ErrorText("deployment failed: " + e)), o.repo, o.calls)
      case Ok(d) => Handled(Reply(200, Deployed(c.id, d.id, d.status)), o.repo, o.calls)
  }

  /** `GetDeployedChallengeStatusHandler`: the stored status, not the live one; 404 for an unknown id. */
  function StatusHandler(repo: Repo, id: string): (reply: Reply)
    ensures id !in repo.deployments <==> reply == Reply(404, ErrorText("deployment not found"))
    ensures id in repo.deployments ==>
      reply == Reply(200, StatusBody(repo.deployments[id].id, repo.deployments[id].status))
  {
    match GetDeployment(repo, id)
    case Err(_) => Reply(404, ErrorText("deployment not found"))
    case Ok(d) => Reply(200, StatusBody(d.id, d.status))
  }

  /** `DestroyDeploymentHandler`: 404 for an unknown id, 204 at once for a destroyed one, else destroy. */
  function DestroyHandler(repo: Repo, faults: Faults, id: string, destroyError: Option<string>, now: int): (h: Handled)
    ensures id !in repo.deployments ==> h == Handled(Reply(404, ErrorText("deployment not found")), repo, [])
    ensures id in repo.deployments && repo.deployments[id].status == DeploymentDestroyed ==>
      h == Handled(Reply(204, NoContent), repo, [])
    ensures h.calls != [] <==> id in repo.deployments && repo.deployments[id].status != DeploymentDestroyed
    ensures h.calls != [] ==>
      var o := DestroyDeployment(repo, faults, repo.deployments[id], destroyError, now);
      && h.calls == o.calls && h.repo == o.repo
      && (o.result.Err? ==> h.reply == Reply(500, ErrorText("failed to destroy deployment: " + o.result.error)))
      && (o.result.Ok? ==> h.reply == Reply(204, NoContent))
  {
    match GetDeployment(repo, id)
    case Err(_) => Handled(Reply(404, ErrorText("deployment not found")), repo, [])
    case Ok(d) =>
      if d.status == DeploymentDestroyed then Handled(Reply(204, NoContent), repo, [])
      else
        var o := DestroyDeployment(repo, faults, d, destroyError, now);
        match o.result
        case Err(e) => Handled(Reply(500, ErrorText("failed to destroy deployment: " + e)), o.repo, o.calls)
        case Ok(_) => Handled(Reply(204, NoContent), o.repo, o.calls)
  }

  /**
   * Destroy is idempotent: after a successful destroy, a second request
   * answers 204 again without calling the deployer or changing anything.
   */
  lemma DestroyIdempotent(repo: Repo, faults: Faults, id: string, destroyError: Option<string>, e2: Option<string>,
                          now: int, later: int)
    requires id in repo.deployments && repo.deployments[id].id == id
    requires DestroyHandler(repo, faults, id, destroyError, now).reply == Reply(204, NoContent)
    ensures var first := DestroyHandler(repo, faults, id, destroyError, now);
      DestroyHandler(first.repo, faults, id, e2, later) == Handled(Reply(204, NoContent), first.repo, [])
  {
  }

  /**
   * `GetChallengeResultsHandler` as written: it looks up a result whose own
   * id is the deployment's id; a failed lookup answers "pending", a found
   * one "finished".
   */
  function ResultsHandler(repo: Repo, keyOrder: seq<string>, id: string): (reply: Reply)
    requires IsKeyOrder(repo, keyOrder)
    ensures id !in repo.deployments ==> reply == Reply(404, ErrorText("deployment not found"))
    ensures id in repo.deployments ==>
      && reply.code == 200 && reply.body.ResultBody?
      && reply.body.deploymentId == repo.deployments[id].id
      && (reply.body.status == DeploymentFinished <==> reply.body.result.Some?)
      && (reply.body.status == DeploymentPending <==> reply.body.result.None?)
      && (reply.body.result.Some? ==> reply.body.result.value.id == repo.deployments[id].id)
  {
    match GetDeployment(repo, id)
    case Err(_) => Reply(404, ErrorText("deployment not found"))
    case Ok(d) =>
      match InMemoryAdapters.GetValidationResult(repo, keyOrder, d.id)
      case Err(_) => Reply(200, ResultBody(d.id, None, DeploymentPending))
      case Ok(v) => Reply(200, ResultBody(d.id, Some(v), DeploymentFinished))
  }

  /** As written, the answer is "finished" exactly when some stored result's own id equals the deployment's id. */
  lemma ResultsKeyedByResultId(repo: Repo, keyOrder: seq<string>, id: string)
    requires IsKeyOrder(repo, keyOrder) && id in repo.deployments
    ensures ResultsHandler(repo, keyOrder, id).body.status == DeploymentFinished <==>
      exists k | k in repo.results :: exists v | v in repo.results[k] :: v.id == repo.deployments[id].id
  {
  }

  /** The repository after the dummy deployer and validator ran for challenge "c1". */
  function DummyRunRepo(): Repo {
    var d := DummyDeploy(Challenge("c1", "", "", 0, 0, "", ChallengeInitializing), "u1");
    SaveValidationResults(SaveDeployment(EmptyRepo, d), DummyResults(d))
  }

  /** A deployment whose validation has run still reads as "pending", with no results. */
  lemma ResultsPendingDespiteStoredResult()
    ensures "deploy-c1" in DummyRunRepo().deployments
    ensures |GetValidationResults(DummyRunRepo(), "deploy-c1")| == 1
    ensures ResultsHandler(DummyRunRepo(), ["deploy-c1"], "deploy-c1") == Reply(200, ResultBody("deploy-c1", None, DeploymentPending))
  {
    var d := DummyDeploy(Challenge("c1", "", "", 0, 0, "", ChallengeInitializing), "u1");
    assert d.id == "deploy-c1";
    var r := DummyRunRepo();
    assert r.results == map["deploy-c1" := DummyResults(d)];
    assert r.results.Keys == {"deploy-c1"};
    assert r.results["deploy-c1"][0].id == "val-1";
  }

  /** The results endpoint as intended: the deployment's own result list, "finished" once it has any. */
  function ResultsHandlerByDeployment(repo: Repo, id: string): (reply: Reply)
    ensures id !in repo.deployments ==> reply == Reply(404, ErrorText("deployment not found"))
    ensures id in repo.deployments ==>
      && reply.code == 200 && reply.body.ResultListBody?
      && reply.body.results == GetValidationResults(repo, repo.deployments[id].id)
      && (reply.body.status == DeploymentFinished <==> |reply.body.results| > 0)
      && (reply.body.status == DeploymentPending <==> |reply.body.results| == 0)
  {
    match GetDeployment(repo, id)
    case Err(_) => Reply(404, ErrorText("deployment not found"))
    case Ok(d) =>
      var rs := GetValidationResults(repo, d.id);
      Reply(200, ResultListBody(d.id, rs, if |rs| > 0 then DeploymentFinished else DeploymentPending))
  }

  /** Once a result is saved for a deployment, the intended endpoint reports it finished and lists that result last. */
  lemma SavedResultIsFinished(repo: Repo, id: string, v: ValidationResult)
    requires id in repo.deployments && v.deploymentId == repo.deployments[id].id
    ensures var reply := ResultsHandlerByDeployment(SaveValidationResult(repo, v), id);
      reply.body.status == DeploymentFinished && reply.body.results[|reply.body.results| - 1] == v
  {
  }
}
