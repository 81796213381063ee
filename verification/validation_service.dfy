/**
 * The validation workflow (`challenge-orchestrator-service/internal/app/validation_service.go`):
 * look up the deployment and its challenge, run the validator on the
 * challenge's manifest, save the result. The runner is external: its reply
 * is a parameter and the calls made to it are recorded.
 */
module ValidationService {
  import opened Wrappers
  import opened OrchestratorDomain
  import opened InMemoryAdapters
  import opened RepositoryPort

  datatype RunnerCall = RunnerCall(deployment: Deployment, validatorFile: string)

  datatype RunOutcome = RunOutcome(result: Result<ValidationResult, string>, repo: Repo, calls: seq<RunnerCall>)

  /** `RunValidation`: the four steps in order; the first error is returned as it is and stops the rest. */
  function RunValidation(repo: Repo, faults: Faults, deploymentId: string,
                         run: (Deployment, string) -> Result<ValidationResult, string>): (o: RunOutcome)
    ensures deploymentId !in repo.deployments ==> o == RunOutcome(Err(DeploymentNotFound), repo, [])
    ensures deploymentId in repo.deployments && repo.deployments[deploymentId].challengeId !in repo.challenges ==>
      o == RunOutcome(Err(ChallengeNotFound), repo, [])
    ensures o.calls != [] ==>
      var d := repo.deployments[deploymentId];
      o.calls == [RunnerCall(d, repo.challenges[d.challengeId].manifest)]
    ensures o.result.Err? ==> o.repo == repo
    ensures o.result.Ok? <==>
      && deploymentId in repo.deployments
      && repo.deployments[deploymentId].challengeId in repo.challenges
      && run(repo.deployments[deploymentId], repo.challenges[repo.deployments[deploymentId].challengeId].manifest).Ok?
      && faults.saveResult.None?
    ensures o.result.Ok? ==>
      && |o.calls| == 1
      && o.result.value == run(o.calls[0].deployment, o.calls[0].validatorFile).value
      && o.repo == SaveValidationResult(repo, o.result.value)
  {
    match GetDeployment(repo, deploymentId)
    case Err(e) => RunOutcome(Err(e), repo, [])
    case Ok(d) =>
      match GetChallenge(repo, d.challengeId)
      case Err(e) => RunOutcome(Err(e), repo, [])
      case Ok(c) =>
        var calls := [RunnerCall(d, c.manifest)];
        match run(d, c.manifest)
        case Err(e) => RunOutcome(Err(e), repo, calls)
        case Ok(res) =>
          if faults.saveResult.Some? then RunOutcome(Err(faults.saveResult.value), repo, calls)
          else RunOutcome(Ok(res), SaveValidationResult(repo, res), calls)
  }

  /** A successful run leaves its result last in the deployment's list, after everything stored before. */
  lemma RunAppendsResult(repo: Repo, deploymentId: string, run: (Deployment, string) -> Result<ValidationResult, string>)
    requires RunValidation(repo, NoFaults, deploymentId, run).result.Ok?
    ensures var o := RunValidation(repo, NoFaults, deploymentId, run);
      var v := o.result.value;
      GetValidationResults(o.repo, v.deploymentId) == GetValidationResults(repo, v.deploymentId) + [v]
  {
  }

  /** `GetValidationResult`: the repository's lookup, with the given id passed through unchanged. */
  function GetValidationResult(repo: Repo, keyOrder: seq<string>, id: string): (res: Result<ValidationResult, string>)
    requires IsKeyOrder(repo, keyOrder)
    ensures res.Ok? ==> res.value.id == id
    ensures res.Err? <==> forall k | k in repo.results :: forall v | v in repo.results[k] :: v.id != id
  {
    InMemoryAdapters.GetValidationResult(repo, keyOrder, id)
  }
}
