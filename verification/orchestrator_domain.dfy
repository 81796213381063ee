/**
 * The challenge orchestrator's records (`challenge-orchestrator-service/internal/domain`):
 * challenges, deployments and validation results, and the two status
 * enumerations. Go strings are `string`; times are instants as `int`, the
 * zero time being 0.
 */
module OrchestratorDomain {
  datatype Deployment = Deployment(
    id: string,
    challengeId: string,
    userId: string,
    instanceIds: seq<string>,
    status: string,
    createdAt: int,
    updatedAt: int)

  datatype Challenge = Challenge(
    id: string,
    name: string,
    description: string,
    createdAt: int,
    updatedAt: int,
    manifest: string,
    status: string)

  datatype ValidationResult = ValidationResult(
    id: string,
    deploymentId: string,
    step: int,
    name: string,
    ok: bool,
    createdAt: int,
    message: string,
    output: string)

  const DeploymentPending := "pending"
  const DeploymentRunning := "running"
  const DeploymentFailed := "failed"
  const DeploymentFinished := "finished"
  const DeploymentDestroyed := "destroyed"

  /** The declared deployment statuses. */
  const DeploymentStatuses: seq<string> :=
    [DeploymentPending, DeploymentRunning, DeploymentFailed, DeploymentFinished, DeploymentDestroyed]

  /** `IsValidDeploymentStatus`: the switch over the five declared constants. */
  function IsValidDeploymentStatus(s: string): (b: bool)
    ensures b <==> s in DeploymentStatuses
  {
    match s
    case "pending" => true
    case "running" => true
    case "finished" => true
    case "failed" => true
    case "destroyed" => true
    case _ => false
  }

  /** Five distinct valid deployment statuses; the terminal one is among them, the empty string and "deployed" are not. */
  lemma DeploymentStatusesShape()
    ensures forall i, j | 0 <= i < j < |DeploymentStatuses| :: DeploymentStatuses[i] != DeploymentStatuses[j]
    ensures |DeploymentStatuses| == 5
    ensures IsValidDeploymentStatus(DeploymentDestroyed)
    ensures !IsValidDeploymentStatus("") && !IsValidDeploymentStatus("deployed")
  {
  }

  const ChallengeInitializing := "initializing"
  const ChallengeInProgress := "in progress"
  const ChallengeActive := "active"
  const ChallengeSucceeded := "succeeded"

  const ChallengeStatuses: seq<string> :=
    [ChallengeInitializing, ChallengeInProgress, ChallengeActive, ChallengeSucceeded]

  /** `IsValidChallengeStatus`: an exact, case-sensitive match against the four declared constants. */
  function IsValidChallengeStatus(s: string): (b: bool)
    ensures b <==> s in ChallengeStatuses
  {
    match s
    case "in progress" => true
    case "active" => true
    case "succeeded" => true
    case "initializing" => true
    case _ => false
  }

  /** New challenges start valid; near-misses in spelling or case are not valid, nor is "failed". */
  lemma ChallengeStatusesShape()
    ensures IsValidChallengeStatus(ChallengeInitializing)
    ensures !IsValidChallengeStatus("in_progress") && !IsValidChallengeStatus("In Progress")
    ensures !IsValidChallengeStatus("failed")
  {
  }

  /**
   * The statuses the orchestrator actually writes: the declared four and the
   * "failed" status the deploy workflow sets when a deployment fails.
   */
  const KnownChallengeStatuses: seq<string> := ChallengeStatuses + ["failed"]

  /** The challenge status check with the failure status declared. */
  function IsKnownChallengeStatus(s: string): (b: bool)
    ensures b <==> s in KnownChallengeStatuses
    ensures b <==> IsValidChallengeStatus(s) || s == "failed"
  {
    IsValidChallengeStatus(s) || s == "failed"
  }
}
