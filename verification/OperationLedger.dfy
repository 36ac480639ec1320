/** The platform's idempotency record of one write operation. */
module OperationLedger {
  import opened Options
  import opened AgentTypes

  datatype Phase = Pending | Completed
  datatype Operation = Operation(order: Order, phase: Phase, http: nat, response: nat)

  datatype Outcome = OutcomePending | OutcomeSucceeded | OutcomeRejected | OutcomeUnknown

  function OutcomeOf(http: nat): Outcome {
    if http == 0 then OutcomePending
    else if http >= 500 then OutcomeUnknown
    else if http >= 400 then OutcomeRejected
    else OutcomeSucceeded
  }

  /** A status a handler can produce. */
  predicate IsHttp(http: nat) { 200 <= http < 600 }

  /** A stored outcome that will never be replaced. */
  predicate Definite(o: Operation) {
    o.phase.Completed? && o.http < 500
  }

  /** The status recorded for a business result found after the fact. */
  function RecoveredHttp(order: Order): nat {
    if order.kind.SubmitPlan? then 202 else 200
  }

  datatype BeginResult = Fresh(op: Operation) | Known(op: Operation) | Conflict

  function Begin(prior: Option<Operation>, order: Order): BeginResult {
    match prior
    case Some(o) => if o.order != order then Conflict else Known(o)
    case None => Fresh(Operation(order, Pending, 0, 0))
  }

  function Finish(prior: Option<Operation>, http: nat, response: nat): Result<Operation> {
    match prior
    case None => Err(Fault(404))
    case Some(o) =>
      if o.phase.Pending? || o.http >= 500
      then Ok(o.(phase := Completed, http := http, response := response))
      else Err(Fault(409))
  }
}
