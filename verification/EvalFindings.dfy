/** What an evaluation finds fault with. */
module EvalFindings {
  import opened Prelude

  datatype Kind =
    | FormationMiss | BadConsolidation | BadGrounding | BadSynthesis | Overconfidence
    | GraphProbeError | LatencyCost | TokenCost | JudgeError

  /** Findings of the same kind about the same expectation are the same finding, whatever they say. */
  datatype Finding = Finding(kind: Kind, expectation: Option<nat>)

  /** A finding with its message. */
  datatype Report = Report(finding: Finding, message: nat)
}
