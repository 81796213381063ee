/**
 * The deploy workflows (`challenge-orchestrator-service/internal/app/deploy_service.go`):
 * deploying a challenge, destroying a deployment, and refreshing a
 * deployment's status. The deployer is external: its replies are
 * parameters and the calls made to it are recorded in order.
 */
module DeployService {
  import opened Wrappers
  import opened OrchestratorDomain
  import opened InMemoryAdapters
  import opened RepositoryPort

  datatype DeployerCall = DeployCall(challenge: Challenge, userId: string) | DestroyCall(deployment: Deployment) | StatusCall(deployment: Deployment)

  datatype Outcome<T> = Outcome(result: Result<T, string>, repo: Repo, calls: seq<DeployerCall>)

  /**
   * `DeployChallenge`: save the challenge, deploy it, save the deployment.
   * A failed deployment re-saves the challenge with status "failed"; the
   * error of that re-save is ignored.
   */
  function DeployChallenge(repo: Repo, faults: Faults, c: Challenge, userId: string,
                           deployReply: Result<Deployment, string>): (o: Outcome<Deployment>)
    ensures faults.saveChallenge.Some? ==>
      o == Outcome(Err(Wrap("failed to save challenge", faults.saveChallenge.value)), repo, [])
    ensures faults.saveChallenge.None? ==> o.calls == [DeployCall(c, userId)]
    ensures faults.saveChallenge.None? && deployReply.Err? ==>
      && o.result == Err(Wrap("deployment failed", deployReply.error))
      && o.repo.challenges == repo.challenges[c.id := c.(status := "failed")]
      && o.repo.deployments == repo.deployments
    ensures faults.saveChallenge.None? && deployReply.Ok? && faults.saveDeployment.Some? ==>
      o == Outcome(Err(Wrap("failed to save deployment", faults.saveDeployment.value)), SaveChallenge(repo, c), [DeployCall(c, userId)])
    ensures o.result.Ok? <==> faults.saveChallenge.None? && deployReply.Ok? && faults.saveDeployment.None?
    ensures o.result.Ok? ==>
      && o.result.value == deployReply.value
      && GetDeployment(o.repo, deployReply.value.id) == Ok(deployReply.value)
      && GetChallenge(o.repo, c.id) == Ok(c)
    ensures o.repo.results == repo.results
  {
    if faults.saveChallenge.Some? then
      Outcome(Err(Wrap("failed to save challenge", faults.saveChallenge.value)), repo, [])
    else
      var saved := SaveChallenge(repo, c);
      var calls := [DeployCall(c, userId)];
      match deployReply
      case Err(e) =>
        Outcome(Err(Wrap("deployment failed", e)), SaveChallenge(saved, c.(status := "failed")), calls)
      case Ok(d) =>
        if faults.saveDeployment.Some? then
          Outcome(Err(Wrap("failed to save deployment", faults.saveDeployment.value)), saved, calls)
        else Outcome(Ok(d), SaveDeployment(saved, d), calls)
  }

  /** A failing first save stops the workflow before the deployer is asked. */
  lemma SaveFailureSkipsDeployer(repo: Repo, faults: Faults, c: Challenge, userId: string,
                                 deployReply: Result<Deployment, string>)
    requires faults.saveChallenge.Some?
    ensures DeployChallenge(repo, faults, c, userId, deployReply).calls == []
    ensures DeployChallenge(repo, faults, c, userId, deployReply).repo == repo
  {
  }

  /** A failed deployment saves no deployment record. */
  lemma DeployFailureSavesNoDeployment(repo: Repo, faults: Faults, c: Challenge, userId: string, e: string)
    ensures DeployChallenge(repo, faults, c, userId, Err(e)).repo.deployments == repo.deployments
    ensures DeployChallenge(repo, faults, c, userId, Err(e)).result.Err?
  {
  }

  /**
   * The status a failed deployment leaves on its challenge is not one of the
   * valid challenge statuses, whatever status the challenge started with.
   */
  lemma FailedDeployLeavesInvalidStatus(repo: Repo, c: Challenge, userId: string, e: string)
    ensures var o := DeployChallenge(repo, NoFaults, c, userId, Err(e));
      && c.id in o.repo.challenges
      && !IsValidChallengeStatus(o.repo.challenges[c.id].status)
  {
  }

  /** Under the corrected status set, every challenge status the workflow writes is known. */
  lemma DeployWritesKnownStatuses(repo: Repo, faults: Faults, c: Challenge, userId: string,
                                  deployReply: Result<Deployment, string>)
    requires forall k | k in repo.challenges :: IsKnownChallengeStatus(repo.challenges[k].status)
    requires IsKnownChallengeStatus(c.status)
    ensures var o := DeployChallenge(repo, faults, c, userId, deployReply);
      forall k | k in o.repo.challenges :: IsKnownChallengeStatus(o.repo.challenges[k].status)
  {
  }

  /**
   * `DestroyDeployment`: ask the deployer to destroy, then store the
   * deployment as destroyed at `now`. A destroy error stores nothing; an
   * update error is returned as it is.
   */
  function DestroyDeployment(repo: Repo, faults: Faults, d: Deployment, destroyError: Option<string>, now: int)
    : (o: Outcome<()>)
    ensures o.calls == [DestroyCall(d)]
    ensures destroyError.Some? ==> o.result == Err(Wrap("failed to destroy deployment", destroyError.value)) && o.repo == repo
    ensures destroyError.None? && faults.updateDeployment.Some? ==>
      o.result == Err(faults.updateDeployment.value) && o.repo == repo
    ensures o.result.Ok? <==> destroyError.None? && faults.updateDeployment.None?
    ensures o.result.Ok? ==>
      && GetDeployment(o.repo, d.id) == Ok(d.(status := DeploymentDestroyed, updatedAt := now))
      && (forall k | k != d.id :: GetDeployment(o.repo, k) == GetDeployment(repo, k))
      && o.repo.challenges == repo.challenges && o.repo.results == repo.results
  {
    if destroyError.Some? then Outcome(Err(Wrap("failed to destroy deployment", destroyError.value)), repo, [DestroyCall(d)])
    else
      var destroyed := d.(status := DeploymentDestroyed, updatedAt := now);
      if faults.updateDeployment.Some? then Outcome(Err(faults.updateDeployment.value), repo, [DestroyCall(d)])
      else Outcome(Ok(()), UpdateDeployment(repo, destroyed), [DestroyCall(d)])
  }

  /**
   * `GetDeploymentStatus`: read the record, ask the deployer for the live
   * status, write it back and return it. The live status is stored as it
   * comes, valid or not.
   */
  function GetDeploymentStatus(repo: Repo, faults: Faults, id: string, statusReply: Deployment -> Result<string, string>)
    : (o: Outcome<string>)
    ensures id !in repo.deployments ==>
      o == Outcome(Err(Wrap("deployment not found", DeploymentNotFound)), repo, [])
    ensures id in repo.deployments ==> o.calls == [StatusCall(repo.deployments[id])]
    ensures id in repo.deployments && statusReply(repo.deployments[id]).Err? ==>
      o.result == Err(Wrap("failed to get status", statusReply(repo.deployments[id]).error)) && o.repo == repo
    ensures o.result.Err? ==> o.repo == repo
    ensures o.result.Ok? <==> id in repo.deployments && statusReply(repo.deployments[id]).Ok? && faults.updateDeployment.None?
    ensures o.result.Ok? ==>
      var d := repo.deployments[id];
      && o.result.value == statusReply(d).value
      && GetDeployment(o.repo, d.id) == Ok(d.(status := o.result.value))
      && (forall k | k != d.id :: GetDeployment(o.repo, k) == GetDeployment(repo, k))
  {
    match GetDeployment(repo, id)
    case Err(e) => Outcome(Err(Wrap("deployment not found", e)), repo, [])
    case Ok(d) =>
      match statusReply(d)
      case Err(e) => Outcome(Err(Wrap("failed to get status", e)), repo, [StatusCall(d)])
      case Ok(status) =>
        var refreshed := d.(status := status);
        if faults.updateDeployment.Some? then
          Outcome(Err(Wrap("failed to update deployment", faults.updateDeployment.value)), repo, [StatusCall(d)])
        else Outcome(Ok(status), UpdateDeployment(repo, refreshed), [StatusCall(d)])
  }

  /** With the dummy deployer a deploy on a working repository stores a running deployment. */
  lemma DummyDeploySucceeds(repo: Repo, c: Challenge, userId: string)
    ensures var o := DeployChallenge(repo, NoFaults, c, userId, Ok(DummyDeploy(c, userId)));
      && o.result.Ok?
      && GetDeployment(o.repo, "deploy-" + c.id).Ok?
      && GetDeployment(o.repo, "deploy-" + c.id).value.status == DeploymentRunning
  {
  }

  /** With the dummy deployer a status refresh writes back what was there: the repository does not change. */
  lemma DummyStatusRefreshIsNoOp(repo: Repo, id: string)
    requires id in repo.deployments
    requires repo.deployments[id].id == id
    ensures var o := GetDeploymentStatus(repo, NoFaults, id, d => Ok(DummyStatus(d)));
      o.result == Ok(repo.deployments[id].status) && o.repo == repo
  {
    var d := repo.deployments[id];
    assert d.(status := DummyStatus(d)) == d;
    assert repo.deployments[id := d] == repo.deployments;
  }
}
