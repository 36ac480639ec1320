/** The step loop of one worker, cut at its external interactions.
    Every function says where the worker stands after one interaction has answered. */
module RunnerMachine {
  import opened Options
  import opened AgentTypes
  import opened RunRow

  /** What follows a successful checkpoint. */
  datatype Next = Exit | Loop | ThenInvoke | ThenRead | ThenAsk | ThenPropose(call: Call, args: Args)

  datatype Pc =
    | Top                                    // about to heartbeat
    | Saving(status: Status, next: Next)     // about to checkpoint
    | Querying                               // about to ask the platform for a pending operation
    | Invoking                               // about to send the confirmed write
    | AwaitWrite(flight: FlightId)           // the write is on its way
    | Validating                             // about to run training.validate_plan
    | Reading                                // about to run the read batch
    | Cataloging                             // about to recheck the session and role
    | Asking                                 // about to send the model request
    | AwaitModel                             // the model request is on its way
    | Gone

  datatype Worker = Worker(epoch: nat, mem: State, pc: Pc)

  function Fail(w: Worker, st: Status): Worker {
    w.(pc := Saving(st, Exit))
  }

  /** What the environment decides at the top of the loop. */
  datatype Gate = Gate(beatError: bool, ctxDone: bool, parentDone: bool, grantValid: bool)

  function AfterBeat(w: Worker, found: bool, stop: bool, g: Gate, op: OpId): Worker {
    if !found || g.beatError || g.ctxDone || stop then
      if g.parentDone then w.(pc := Gone) else Fail(w, Cancelled)
    else if !g.grantValid then Fail(w, WaitingAuth)
    else Branch(w, op)
  }

  predicate Confirmed(m: State) {
    m.proposal.Some? && m.proposal.value.confirmed
  }

  /** The body of the loop up to its next interaction. */
  function Branch(w: Worker, op: OpId): Worker {
    var m := w.mem;
    if Confirmed(m) then
      if m.writePending then w.(pc := Querying)
      else w.(mem := m.(writePending := true), pc := Saving(Running, ThenInvoke))
    else if |m.calls| > 0 then BranchCalls(w, op)
    else if m.round >= MAX_ROUNDS || m.tokens > MAX_TOKENS then Fail(w, Failed)
    else w.(pc := Cataloging)
  }

  predicate AllValid(calls: seq<Call>) {
    forall c :: c in calls ==> c.valid
  }

  predicate SomeWrite(calls: seq<Call>) {
    exists c :: c in calls && !c.kind.Read?
  }

  function BranchCalls(w: Worker, op: OpId): Worker
    requires |w.mem.calls| > 0
  {
    var m := w.mem;
    if m.toolCount + |m.calls| > MAX_TOOLS then Fail(w, Failed)
    else if !AllValid(m.calls) then Fail(w, Failed)
    else if SomeWrite(m.calls) then
      if |m.calls| != 1 then Fail(w, Failed)
      else if m.calls[0].kind.SubmitPlan? then
        if m.toolCount + 2 > MAX_TOOLS then Fail(w, Failed) else w.(pc := Validating)
      else Propose(w, m.calls[0], m.calls[0].args, op)
    else if |m.calls| > 4 then Fail(w, Failed)
    else w.(pc := Saving(Running, ThenRead))
  }

  function Propose(w: Worker, c: Call, args: Args, op: OpId): Worker {
    w.(mem := w.mem.(proposal := Some(Proposal(c, args, op, false)), toolCount := w.mem.toolCount + 1),
       pc := Saving(WaitingConfirmation, Exit))
  }

  function AfterSave(w: Worker, next: Next, stored: bool, op: OpId): Worker {
    if !stored then w.(pc := Gone)
    else match next
      case Exit => w.(pc := Gone)
      case Loop => w.(pc := Top)
      case ThenInvoke => w.(pc := Invoking)
      case ThenRead => w.(pc := Reading)
      case ThenAsk => w.(pc := Asking)
      case ThenPropose(c, args) => Propose(w, c, args, op)
  }

  /** The write is settled: drop the proposal and remember its operation. */
  function Settle(w: Worker): Worker
    requires w.mem.proposal.Some?
  {
    w.(mem := w.mem.(completed := w.mem.completed + [w.mem.proposal.value.op],
                     proposal := None, receipt := None, writePending := false, calls := []),
       pc := Saving(Running, Loop))
  }

  datatype QueryAnswer = QueryDenied | QueryDefinite | QueryOther

  function AfterQuery(w: Worker, a: QueryAnswer): Worker
    requires w.mem.proposal.Some?
  {
    match a
    case QueryDenied => Fail(w, WaitingAuth)
    case QueryDefinite => Settle(w)
    case QueryOther => Fail(w, Unknown)
  }

  /** How a write invocation ends for its caller. */
  datatype Reply = Accepted | Rejected | Denied | Unclear

  function AfterWrite(w: Worker, r: Reply): Worker
    requires w.mem.proposal.Some?
  {
    match r
    case Unclear => Fail(w, Unknown)
    case Denied =>
      w.(mem := w.mem.(writePending := false, receipt := None,
                       proposal := Some(w.mem.proposal.value.(confirmed := false))),
         pc := Saving(WaitingConfirmation, Exit))
    case Accepted => Settle(w)
    case Rejected => Settle(w)
  }

  datatype ValidateAnswer = ValidateDenied | ValidateError | Validated(args: Option<Args>)

  function AfterValidate(w: Worker, a: ValidateAnswer): Worker
    requires |w.mem.calls| > 0
  {
    var m := w.mem;
    match a
    case ValidateDenied => Fail(w, WaitingAuth)
    case ValidateError =>
      w.(mem := m.(calls := [], toolCount := m.toolCount + 1), pc := Saving(Running, Loop))
    case Validated(None) => Fail(w.(mem := m.(toolCount := m.toolCount + 1)), Failed)
    case Validated(Some(args)) =>
      w.(mem := m.(toolCount := m.toolCount + 1), pc := Saving(Running, ThenPropose(m.calls[0], args)))
  }

  datatype ReadAnswer = BatchError | BatchDenied | BatchDone

  function AfterRead(w: Worker, a: ReadAnswer): Worker {
    match a
    case BatchError => Fail(w, Failed)
    case BatchDenied => Fail(w, WaitingAuth)
    case BatchDone =>
      w.(mem := w.mem.(toolCount := w.mem.toolCount + |w.mem.calls|, calls := []), pc := Saving(Running, Loop))
  }

  datatype CatalogAnswer = CatalogDenied | CatalogError | RoleChanged | ContextTooLarge | CatalogOk

  function AfterCatalog(w: Worker, a: CatalogAnswer): Worker {
    match a
    case CatalogDenied => Fail(w, WaitingAuth)
    case CatalogError => Fail(w, Failed)
    case RoleChanged => Fail(w, WaitingAuth)
    case ContextTooLarge => Fail(w, Failed)
    case CatalogOk => w.(mem := w.mem.(modelPending := true), pc := Saving(Running, ThenAsk))
  }

  /** `wellFormed`: assistant role, call identifiers present, distinct and of type function. */
  datatype ModelAnswer =
    | ModelStopped
    | ModelError
    | ModelReply(calls: seq<Call>, tokens: nat, wellFormed: bool, hasText: bool)

  function AfterModel(w: Worker, a: ModelAnswer): Worker {
    match a
    case ModelStopped => Fail(w, Cancelled)
    case ModelError => Fail(w, Unknown)
    case ModelReply(calls, tokens, wellFormed, hasText) =>
      var m := w.mem.(modelPending := false, round := w.mem.round + 1, tokens := w.mem.tokens + tokens);
      if !wellFormed || |calls| > MAX_TOOLS || (!hasText && calls == []) then Fail(w.(mem := m), Failed)
      else if calls == [] then w.(mem := m.(calls := calls), pc := Saving(Succeeded, Exit))
      else w.(mem := m.(calls := calls), pc := Saving(Running, Loop))
  }

  /*** The machine as a whole, driven by the answers it receives ***/

  /** One exchange with the surroundings: what the worker says, and what it is answered.
      `op` is the identifier a proposal made now would get. */
  datatype Input =
    | InBeat(found: bool, stop: bool, gate: Gate, op: OpId)
    | InSave(state: State, status: Status, stored: bool, op: OpId)
    | InQuery(asked: OpId, query: QueryAnswer)
    | InWrite(proposal: Proposal, reply: Reply)
    | InValidate(plan: Args, validate: ValidateAnswer)
    | InRead(calls: seq<Call>, read: ReadAnswer)
    | InCatalog(catalog: CatalogAnswer)
    | InModel(round: nat, model: ModelAnswer)

  /** The exchange is the one the worker is about to have. */
  predicate Fits(w: Worker, i: Input) {
    match i
    case InBeat(_, _, _, _) => w.pc.Top?
    case InSave(state, status, _, _) => w.pc.Saving? && state == w.mem && status == w.pc.status
    case InQuery(op, _) => w.pc.Querying? && w.mem.proposal.Some? && op == w.mem.proposal.value.op
    case InWrite(p, _) => w.pc.Invoking? && w.mem.proposal == Some(p)
    case InValidate(plan, _) => w.pc.Validating? && |w.mem.calls| > 0 && plan == w.mem.calls[0].args
    case InRead(calls, _) => w.pc.Reading? && calls == w.mem.calls
    case InCatalog(_) => w.pc.Cataloging?
    case InModel(round, _) => w.pc.Asking? && round == w.mem.round
  }

  /** One exchange; one that does not fit changes nothing.
      Sending a request and waiting for it count as one interaction here. */
  function Advance(w: Worker, i: Input): Worker {
    if !Fits(w, i) then w
    else
      match i
      case InBeat(found, stop, g, op) => AfterBeat(w, found, stop, g, op)
      case InSave(_, _, stored, op) => AfterSave(w.(mem := Sealed(w.mem, w.pc.status)), w.pc.next, stored, op)
      case InQuery(_, a) => AfterQuery(w, a)
      case InWrite(_, r) => AfterWrite(w, r)
      case InValidate(_, a) => AfterValidate(w, a)
      case InRead(_, a) => AfterRead(w, a)
      case InCatalog(a) => AfterCatalog(w, a)
      case InModel(_, a) => AfterModel(w, a)
  }

  function Replay(w: Worker, inputs: seq<Input>): Worker {
    if inputs == [] then w
    else Advance(Replay(w, inputs[..|inputs| - 1]), inputs[|inputs| - 1])
  }

  /** Every exchange fits the worker as the earlier ones left it. */
  predicate Fitting(w: Worker, inputs: seq<Input>) {
    inputs == [] || (Fitting(w, inputs[..|inputs| - 1]) && Fits(Replay(w, inputs[..|inputs| - 1]), inputs[|inputs| - 1]))
  }

  lemma ReplayMore(w: Worker, inputs: seq<Input>, i: Input)
    requires Fitting(w, inputs) && Fits(Replay(w, inputs), i)
    ensures Replay(w, inputs + [i]) == Advance(Replay(w, inputs), i)
    ensures Fitting(w, inputs + [i])
  {
    assert (inputs + [i])[..|inputs + [i]| - 1] == inputs;
  }
}
