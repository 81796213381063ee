/**
 * The job endpoints of the orchestrator (`challenge-orchestrator-service/internal/handlers/challenge.go`):
 * deploy, destroy and validate each check the caller, then the request, and
 * only then start a pipeline job, answering 202 with the job's id.
 *
 * The job itself runs asynchronously; the model records which pipeline was
 * started with which parameters, and `jobId` is the generated id.
 */
module ChallengeHandlers {
  import opened Wrappers

  datatype Job = Job(pipeline: string, params: map<string, string>)

  datatype Body = ErrorText(text: string) | Accepted(jobId: string, status: string)

  datatype Reply = Reply(code: int, body: Body)

  datatype Handled = Handled(reply: Reply, jobs: seq<Job>)

  /** The decoded request bodies; nothing when the body does not decode. */
  datatype DeployRequest = DeployRequest(challengeId: string)
  datatype ValidateRequest = ValidateRequest(flag: string)

  const Unauthenticated := Reply(401, ErrorText("user not authenticated"))
  const InvalidBody := Reply(400, ErrorText("invalid request body"))

  /** The user id the authentication middleware put in the context, when it is a non-empty string. */
  predicate Authenticated(userId: Option<string>) {
    userId.Some? && userId.value != ""
  }

  /** 202 with the job's id, status "pending", and exactly the one job started. */
  function Started(jobId: string, job: Job): (h: Handled)
    ensures h.reply.code == 202 && h.reply.body == Accepted(jobId, "pending") && h.jobs == [job]
  {
    Handled(Reply(202, Accepted(jobId, "pending")), [job])
  }

  /** `Deploy`: caller, then body, then challenge id. */
  function Deploy(userId: Option<string>, body: Option<DeployRequest>, jobId: string): (h: Handled)
    ensures !Authenticated(userId) ==> h == Handled(Unauthenticated, [])
    ensures Authenticated(userId) && body.None? ==> h == Handled(InvalidBody, [])
    ensures Authenticated(userId) && body.Some? && body.value.challengeId == "" ==>
      h == Handled(Reply(400, ErrorText("challengeId is required")), [])
    ensures h.jobs != [] <==> h.reply.code == 202
    ensures h.reply.code == 202 <==> Authenticated(userId) && body.Some? && body.value.challengeId != ""
    ensures h.reply.code == 202 ==>
      h.jobs == [Job("deploy_challenge", map["USER_ID" := userId.value, "CHALLENGE_ID" := body.value.challengeId, "JOB_ID" := jobId])]
  {
    if !Authenticated(userId) then Handled(Unauthenticated, [])
    else if body.None? then Handled(InvalidBody, [])
    else if body.value.challengeId == "" then Handled(Reply(400, ErrorText("challengeId is required")), [])
    else Started(jobId, Job("deploy_challenge", map["USER_ID" := userId.value, "CHALLENGE_ID" := body.value.challengeId, "JOB_ID" := jobId]))
  }

  /** `Destroy`: caller, then deployment id. */
  function Destroy(userId: Option<string>, deploymentId: string, jobId: string): (h: Handled)
    ensures !Authenticated(userId) ==> h == Handled(Unauthenticated, [])
    ensures Authenticated(userId) && deploymentId == "" ==> h == Handled(Reply(400, ErrorText("deployment id is required")), [])
    ensures h.jobs != [] <==> h.reply.code == 202
    ensures h.reply.code == 202 <==> Authenticated(userId) && deploymentId != ""
    ensures h.reply.code == 202 ==>
      h.jobs == [Job("destroy_challenge", map["USER_ID" := userId.value, "DEPLOYMENT_ID" := deploymentId, "JOB_ID" := jobId])]
  {
    if !Authenticated(userId) then Handled(Unauthenticated, [])
    else if deploymentId == "" then Handled(Reply(400, ErrorText("deployment id is required")), [])
    else Started(jobId, Job("destroy_challenge", map["USER_ID" := userId.value, "DEPLOYMENT_ID" := deploymentId, "JOB_ID" := jobId]))
  }

  /** `Validate`: caller, then deployment id, then body, then flag. */
  function Validate(userId: Option<string>, deploymentId: string, body: Option<ValidateRequest>, jobId: string): (h: Handled)
    ensures !Authenticated(userId) ==> h == Handled(Unauthenticated, [])
    ensures Authenticated(userId) && deploymentId == "" ==> h == Handled(Reply(400, ErrorText("deployment id is required")), [])
    ensures Authenticated(userId) && deploymentId != "" && body.None? ==> h == Handled(InvalidBody, [])
    ensures Authenticated(userId) && deploymentId != "" && body.Some? && body.value.flag == "" ==>
      h == Handled(Reply(400, ErrorText("flag is required")), [])
    ensures h.jobs != [] <==> h.reply.code == 202
    ensures h.reply.code == 202 <==> Authenticated(userId) && deploymentId != "" && body.Some? && body.value.flag != ""
    ensures h.reply.code == 202 ==>
      h.jobs == [Job("validate_challenge", map["USER_ID" := userId.value, "DEPLOYMENT_ID" := deploymentId,
                                               "FLAG" := body.value.flag, "JOB_ID" := jobId])]
  {
    if !Authenticated(userId) then Handled(Unauthenticated, [])
    else if deploymentId == "" then Handled(Reply(400, ErrorText("deployment id is required")), [])
    else if body.None? then Handled(InvalidBody, [])
    else if body.value.flag == "" then Handled(Reply(400, ErrorText("flag is required")), [])
    else Started(jobId, Job("validate_challenge", map["USER_ID" := userId.value, "DEPLOYMENT_ID" := deploymentId,
                                                      "FLAG" := body.value.flag, "JOB_ID" := jobId]))
  }

  /** An unauthenticated caller is answered 401 whatever else the request holds: authentication is checked first. */
  lemma AuthenticationFirst(userId: Option<string>, deploymentId: string, d: Option<DeployRequest>,
                            v: Option<ValidateRequest>, jobId: string)
    requires !Authenticated(userId)
    ensures Deploy(userId, d, jobId).reply.code == 401
    ensures Destroy(userId, deploymentId, jobId).reply.code == 401
    ensures Validate(userId, deploymentId, v, jobId).reply.code == 401
  {
  }

  /** Every started job carries the caller and its own job id, which is also the id the reply reports. */
  lemma JobsCarryCallerAndId(userId: Option<string>, deploymentId: string, d: Option<DeployRequest>,
                             v: Option<ValidateRequest>, jobId: string)
    ensures forall h | h in [Deploy(userId, d, jobId), Destroy(userId, deploymentId, jobId), Validate(userId, deploymentId, v, jobId)] && h.jobs != [] ::
      && h.jobs[0].params["USER_ID"] == userId.value
      && h.jobs[0].params["JOB_ID"] == jobId == h.reply.body.jobId
  {
  }
}
