/**
 * The adapters the orchestrator's API binary wires in
 * (`challenge-orchestrator-service/cmd/api/main.go`): the in-memory
 * repository, three Go maps held as Dafny maps and updated functionally,
 * and the dummy deployer.
 *
 * Go's `range` over a map visits the keys in an unspecified order; the one
 * lookup that depends on it takes that order as a parameter.
 */
module InMemoryAdapters {
  import opened Wrappers
  import opened OrchestratorDomain

  datatype Repo = Repo(
    challenges: map<string, Challenge>,
    deployments: map<string, Deployment>,
    results: map<string, seq<ValidationResult>>)

  /** `NewInMemoryRepo`. */
  const EmptyRepo := Repo(map[], map[], map[])

  const ChallengeNotFound := "challenge not found"
  const DeploymentNotFound := "deployment not found"
  const ResultNotFound := "validation result not found"

  /** `SaveChallenge`: store under the challenge's id, replacing any earlier one; never fails. */
  function SaveChallenge(r: Repo, c: Challenge): (r': Repo)
    ensures c.id in r'.challenges && r'.challenges[c.id] == c
    ensures r'.challenges.Keys == r.challenges.Keys + {c.id}
    ensures forall k | k in r.challenges && k != c.id :: r'.challenges[k] == r.challenges[k]
    ensures r'.deployments == r.deployments && r'.results == r.results
  {
    r.(challenges := r.challenges[c.id := c])
  }

  function GetChallenge(r: Repo, id: string): (res: Result<Challenge, string>)
    ensures res.Ok? <==> id in r.challenges
    ensures res.Ok? ==> res.value == r.challenges[id] && res.value in r.challenges.Values
    ensures res.Err? ==> res.error == ChallengeNotFound
  {
    if id in r.challenges then Ok(r.challenges[id]) else Err(ChallengeNotFound)
  }

  /** What was saved last is what is read back; other ids read as before. */
  lemma SaveThenGetChallenge(r: Repo, c: Challenge, id: string)
    ensures GetChallenge(SaveChallenge(r, c), c.id) == Ok(c)
    ensures id != c.id ==> GetChallenge(SaveChallenge(r, c), id) == GetChallenge(r, id)
  {
  }

  /** `SaveDeployment`: an upsert by id; never fails. */
  function SaveDeployment(r: Repo, d: Deployment): (r': Repo)
    ensures d.id in r'.deployments && r'.deployments[d.id] == d
    ensures r'.deployments.Keys == r.deployments.Keys + {d.id}
    ensures forall k | k in r.deployments && k != d.id :: r'.deployments[k] == r.deployments[k]
    ensures r'.challenges == r.challenges && r'.results == r.results
  {
    r.(deployments := r.deployments[d.id := d])
  }

  /** `UpdateDeployment`: the same upsert; updating an id never saved creates it. */
  function UpdateDeployment(r: Repo, d: Deployment): (r': Repo)
    ensures d.id in r'.deployments && r'.deployments[d.id] == d
    ensures r'.deployments.Keys == r.deployments.Keys + {d.id}
    ensures forall k | k in r.deployments && k != d.id :: r'.deployments[k] == r.deployments[k]
    ensures r'.challenges == r.challenges && r'.results == r.results
  {
    r.(deployments := r.deployments[d.id := d])
  }

  function GetDeployment(r: Repo, id: string): (res: Result<Deployment, string>)
    ensures res.Ok? <==> id in r.deployments
    ensures res.Ok? ==> res.value == r.deployments[id]
    ensures res.Err? ==> res.error == DeploymentNotFound
  {
    if id in r.deployments then Ok(r.deployments[id]) else Err(DeploymentNotFound)
  }

  /** The last write wins, whichever of the two writes it was. */
  lemma LastDeploymentWriteWins(r: Repo, d1: Deployment, d2: Deployment, id: string)
    requires d1.id == d2.id
    ensures GetDeployment(UpdateDeployment(SaveDeployment(r, d1), d2), d2.id) == Ok(d2)
    ensures GetDeployment(SaveDeployment(UpdateDeployment(r, d1), d2), d2.id) == Ok(d2)
    ensures id != d1.id ==> GetDeployment(SaveDeployment(r, d1), id) == GetDeployment(r, id)
  {
  }

  /** The results stored for a deployment; a missing key reads as Go's nil slice. */
  function StoredResults(r: Repo, deploymentId: string): seq<ValidationResult> {
    if deploymentId in r.results then r.results[deploymentId] else []
  }

  /** `SaveValidationResults`: an empty batch does nothing; otherwise it replaces the list under its first result's deployment. */
  function SaveValidationResults(r: Repo, batch: seq<ValidationResult>): (r': Repo)
    ensures |batch| == 0 ==> r' == r
    ensures |batch| > 0 ==> StoredResults(r', batch[0].deploymentId) == batch
    ensures forall k | |batch| == 0 || k != batch[0].deploymentId :: StoredResults(r', k) == StoredResults(r, k)
    ensures r'.challenges == r.challenges && r'.deployments == r.deployments
  {
    if |batch| == 0 then r else r.(results := r.results[batch[0].deploymentId := batch])
  }

  /** `SaveValidationResult`: append under the result's deployment, keeping what was there. */
  function SaveValidationResult(r: Repo, v: ValidationResult): (r': Repo)
    ensures StoredResults(r', v.deploymentId) == StoredResults(r, v.deploymentId) + [v]
    ensures forall k | k != v.deploymentId :: StoredResults(r', k) == StoredResults(r, k)
    ensures r'.results.Keys == r.results.Keys + {v.deploymentId}
    ensures r'.challenges == r.challenges && r'.deployments == r.deployments
  {
    r.(results := r.results[v.deploymentId := StoredResults(r, v.deploymentId) + [v]])
  }

  /** `GetValidationResults`: the stored list, empty for an unknown deployment; never an error. */
  function GetValidationResults(r: Repo, deploymentId: string): (rs: seq<ValidationResult>)
    ensures deploymentId !in r.results ==> rs == []
    ensures deploymentId in r.results ==> rs == r.results[deploymentId]
  {
    StoredResults(r, deploymentId)
  }

  /** Appending one result at a time keeps earlier results in order in front. */
  lemma SaveResultPreservesEarlier(r: Repo, v: ValidationResult, w: ValidationResult)
    requires v.deploymentId == w.deploymentId
    ensures GetValidationResults(SaveValidationResult(SaveValidationResult(r, v), w), v.deploymentId)
         == GetValidationResults(r, v.deploymentId) + [v, w]
  {
    var r1 := SaveValidationResult(r, v);
    assert StoredResults(r1, v.deploymentId) + [w] == StoredResults(r, v.deploymentId) + [v, w];
  }

  /** The first result in `xs` with this id. */
  function FindResult(xs: seq<ValidationResult>, id: string): (r: Option<ValidationResult>)
    ensures r.Some? ==> r.value in xs && r.value.id == id
    ensures r.None? <==> forall i | 0 <= i < |xs| :: xs[i].id != id
  {
    if |xs| == 0 then None
    else if xs[0].id == id then Some(xs[0])
    else FindResult(xs[1..], id)
  }

  /** The scan of the inner loop over the keys in the order `keys` gives. */
  function FindInKeys(r: Repo, keys: seq<string>, id: string): (res: Option<ValidationResult>)
    requires forall i | 0 <= i < |keys| :: keys[i] in r.results
    ensures res.Some? ==> res.value.id == id && exists i | 0 <= i < |keys| :: res.value in r.results[keys[i]]
    ensures res.None? <==> forall i | 0 <= i < |keys| :: forall v | v in r.results[keys[i]] :: v.id != id
  {
    if |keys| == 0 then None
    else match FindResult(r.results[keys[0]], id)
      case Some(v) => Some(v)
      case None =>
        var rest := FindInKeys(r, keys[1..], id);
        assert forall i | 1 <= i < |keys| :: keys[i] == keys[1..][i - 1];
        rest
  }

  /** A permutation of the result map's keys: what one `range` over it visits. */
  predicate IsKeyOrder(r: Repo, keyOrder: seq<string>) {
    (forall i | 0 <= i < |keyOrder| :: keyOrder[i] in r.results)
    && (forall k | k in r.results :: k in keyOrder)
  }

  /**
   * `GetValidationResult`: the first result, in visiting order, whose own id
   * is `id`, across every deployment's list; an error when none has it.
   */
  function GetValidationResult(r: Repo, keyOrder: seq<string>, id: string): (res: Result<ValidationResult, string>)
    requires IsKeyOrder(r, keyOrder)
    ensures res.Ok? ==> res.value.id == id && exists k | k in r.results :: res.value in r.results[k]
    ensures res.Err? <==> forall k | k in r.results :: forall v | v in r.results[k] :: v.id != id
    ensures res.Err? ==> res.error == ResultNotFound
  {
    match FindInKeys(r, keyOrder, id)
    case Some(v) => Ok(v)
    case None =>
      assert forall k | k in r.results :: exists i | 0 <= i < |keyOrder| :: keyOrder[i] == k;
      Err(ResultNotFound)
  }

  /** Result ids that are unique across the whole repository. */
  predicate UniqueResultIds(r: Repo) {
    forall k1, k2, v1, v2 | k1 in r.results && k2 in r.results && v1 in r.results[k1] && v2 in r.results[k2] ::
      v1.id == v2.id ==> v1 == v2
  }

  /** With unique result ids the map's visiting order does not change the answer. */
  lemma ResultLookupIgnoresOrder(r: Repo, o1: seq<string>, o2: seq<string>, id: string)
    requires IsKeyOrder(r, o1) && IsKeyOrder(r, o2)
    requires UniqueResultIds(r)
    ensures GetValidationResult(r, o1, id) == GetValidationResult(r, o2, id)
  {
  }

  // ---------------------------------------------------------------------------
  // Dummy deployer
  // ---------------------------------------------------------------------------

  /** `DummyDeployer.Deploy`: a running deployment named after the challenge, on one dummy instance. */
  function DummyDeploy(c: Challenge, userId: string): (d: Deployment)
    ensures d.id == "deploy-" + c.id && d.challengeId == c.id && d.userId == userId
    ensures d.instanceIds == ["i-dummy"]
    ensures d.status == DeploymentRunning && IsValidDeploymentStatus(d.status)
  {
    Deployment("deploy-" + c.id, c.id, userId, ["i-dummy"], DeploymentRunning, 0, 0)
  }

  /** `DummyDeployer.Status`: the status the record already carries. */
  function DummyStatus(d: Deployment): (status: string)
    ensures d.(status := status) == d
  {
    d.status
  }

  /** `DummyValidator.Run`: one passing result for the deployment, whose own id is "val-1". */
  function DummyResults(d: Deployment): (rs: seq<ValidationResult>)
    ensures |rs| == 1 && rs[0].deploymentId == d.id && rs[0].ok
    ensures rs[0].id == "val-1"
  {
    [ValidationResult("val-1", d.id, 1, "Dummy Test", true, 0, "Passed", "ok")]
  }
}
