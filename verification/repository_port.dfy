/**
 * The `Repository` port of the orchestrator's services
 * (`challenge-orchestrator-service/internal/app/ports.go`) as the services
 * see it: the in-memory repository's reads, and writes that may fail. A
 * write kind named in `Faults` fails with the given error, changing
 * nothing; the in-memory adapter itself never fails.
 */
module RepositoryPort {
  import opened Wrappers

  datatype Faults = Faults(
    saveChallenge: Option<string>,
    saveDeployment: Option<string>,
    updateDeployment: Option<string>,
    saveResult: Option<string>)

  /** The in-memory adapter: no write fails. */
  const NoFaults := Faults(None, None, None, None)

  /** Go's `fmt.Errorf("<prefix>: %w", err)`. */
  function Wrap(prefix: string, cause: string): (msg: string)
    ensures |msg| == |prefix| + 2 + |cause|
    ensures msg[..|prefix|] == prefix && msg[|prefix| + 2..] == cause
  {
    prefix + ": " + cause
  }
}
