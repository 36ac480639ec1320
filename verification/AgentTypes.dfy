/** Values shared by the durable run store, the runner and the platform bridge.
    Identifiers, tokens and canonical argument documents are opaque numbers. */
module AgentTypes {
  import opened Options

  type RunId = nat
  type Owner = nat
  type Conv = nat
  type OpId = nat
  type WorkerId = nat
  type FlightId = nat
  type Args = nat
  type Token = nat

  datatype Fault = Fault(code: int)
  datatype Result<+T> = Ok(value: T) | Err(fault: Fault)

  const MAX_ROUNDS := 8
  const MAX_TOOLS := 24
  const MAX_TOKENS := 48000
  const LEASE := 60

  datatype Status =
    | Queued | Running | WaitingConfirmation | WaitingAuth
    | Succeeded | Failed | Cancelled | Unknown
  {
    predicate Active() {
      Queued? || Running? || WaitingConfirmation? || WaitingAuth?
    }
  }

  /** How the registry classifies a tool. `SubmitPlan` is the one write that is validated first. */
  datatype Kind = Read | SubmitPlan | OtherWrite

  /** A model tool call; `valid` is the registry's verdict on its name and arguments. */
  datatype Call = Call(id: nat, kind: Kind, args: Args, valid: bool)

  /** What a confirmed write asks the platform to do: the tool and its exact arguments. */
  datatype Order = Order(kind: Kind, args: Args)

  datatype Proposal = Proposal(call: Call, args: Args, op: OpId, confirmed: bool) {
    function Work(): Order { Order(call.kind, args) }
  }

  /** The persisted execution state of a run. */
  datatype State = State(
    completed: seq<OpId>,
    round: nat,
    toolCount: nat,
    tokens: nat,
    modelPending: bool,
    calls: seq<Call>,
    proposal: Option<Proposal>,
    receipt: Option<Token>,
    writePending: bool)

  const FreshState := State([], 0, 0, 0, false, [], None, None, false)

  datatype Row = Row(
    conv: Conv,
    owner: Owner,
    key: nat,
    input: string,
    created: int,
    status: Status,
    state: State,
    grant: Option<Token>,
    epoch: nat,
    lease: Option<int>,
    cancel: bool)
}
