/** One run, every worker that ever claimed it, its in-flight writes and the platform's
    record of its operations. A step is one atomic store transaction, one platform
    transaction or one message; workers and requests die at any point between two steps. */
module AgentSession {
  import opened Options
  import opened AgentTypes
  import RunRow
  import opened RunnerMachine
  import OperationLedger

  /** A write request on the platform side. */
  datatype Stage = Travelling | Executing | Executed(http: nat) | Replied(reply: Reply) | Lost {
    predicate Live() { Travelling? || Executing? || Executed? }
  }
  datatype Flight = Flight(op: OpId, order: Order, stage: Stage)

  datatype Session = Session(
    row: Row,
    workers: map<WorkerId, Worker>,
    flights: map<FlightId, Flight>,
    ledger: map<OpId, OperationLedger.Operation>,
    issued: map<OpId, Order>,          // operation identifiers drawn so far
    granted: seq<nat>,                 // epochs handed out, in order
    asked: multiset<nat>,              // rounds whose model request was sent
    sent: multiset<OpId>,              // write requests sent
    confirms: multiset<OpId>,          // user confirmations taken
    denied: multiset<OpId>,            // definite 401/403 answers seen by a worker
    effects: multiset<OpId>)           // business executions on the platform

  function Start(row: Row): Session {
    Session(row, map[], map[], map[], map[], [], multiset{}, multiset{}, multiset{}, multiset{}, multiset{})
  }

  datatype Event =
    | Beat(w: WorkerId)
    | WTop(w: WorkerId, gate: Gate, op: OpId)
    | WSave(w: WorkerId, op: OpId)
    | WQuery(w: WorkerId, query: QueryAnswer)
    | WLocal(w: WorkerId, reply: Reply)
    | WSend(w: WorkerId, f: FlightId)
    | WReply(w: WorkerId)
    | WInterrupted(w: WorkerId)
    | WValidate(w: WorkerId, validate: ValidateAnswer)
    | WRead(w: WorkerId, read: ReadAnswer)
    | WCatalog(w: WorkerId, catalog: CatalogAnswer)
    | WAsk(w: WorkerId)
    | WModel(w: WorkerId, model: ModelAnswer)
    | Crash(w: WorkerId)
    | Cancel
    | Confirm(op: OpId, receipt: Token, grant: Token, args: Args)
    | Resume(grant: Token)
    | FReject(f: FlightId, reply: Reply)
    | FBegin(f: FlightId, found: bool)
    | FExecute(f: FlightId, http: nat)
    | FFinish(f: FlightId, stored: bool, response: nat)
    | FLose(f: FlightId)
    | PRecover(op: OpId, http: nat, response: nat)

  predicate At(s: Session, w: WorkerId, pc: Pc) {
    w in s.workers && s.workers[w].pc == pc
  }

  function Put(ws: map<WorkerId, Worker>, id: WorkerId, w: Worker): map<WorkerId, Worker> {
    if w.pc.Gone? then ws - {id} else ws[id := w]
  }

  function Move(s: Session, id: WorkerId, w: Worker): (t: Session)
    ensures t == s.(workers := t.workers)
  {
    s.(workers := Put(s.workers, id, w))
  }

  /** Record the operation identifier of a proposal the worker has just drawn. */
  function Issue(s: Session, before: Worker, after: Worker): Session {
    if before.mem.proposal.None? && after.mem.proposal.Some?
    then s.(issued := s.issued[after.mem.proposal.value.op := after.mem.proposal.value.Work()])
    else s
  }

  predicate Has(s: Session, w: WorkerId) {
    w in s.workers && s.workers[w].mem.proposal.Some?
  }

  /** Identifiers an event draws; a fresh UUID has never been drawn before. */
  function Draws(e: Event): set<OpId> {
    match e
    case WTop(_, _, op) => {op}
    case WSave(_, op) => {op}
    case _ => {}
  }

  function Step(s: Session, now: int, e: Event): Session {
    match e
    case Beat(w) => DoBeat(s, now, w)
    case WTop(w, g, op) => if At(s, w, Top) then DoTop(s, now, w, g, op) else s
    case WSave(w, op) => if w in s.workers && s.workers[w].pc.Saving? then DoSave(s, now, w, op) else s
    case WQuery(w, a) => DoQuery(s, w, a)
    case WLocal(w, r) => if At(s, w, Invoking) && Has(s, w) && !r.Accepted? then DoWrite(s, w, r) else s
    case WSend(w, f) => DoSend(s, w, f)
    case WReply(w) => DoReply(s, w)
    case WInterrupted(w) =>
      if Has(s, w) && s.workers[w].pc.AwaitWrite? then DoWrite(s, w, Unclear) else s
    case WValidate(w, a) =>
      if At(s, w, Validating) && |s.workers[w].mem.calls| > 0
      then Move(s, w, AfterValidate(s.workers[w], a)) else s
    case WRead(w, a) => if At(s, w, Reading) then Move(s, w, AfterRead(s.workers[w], a)) else s
    case WCatalog(w, a) => if At(s, w, Cataloging) then Move(s, w, AfterCatalog(s.workers[w], a)) else s
    case WAsk(w) => if At(s, w, Asking) then DoAsk(s, w) else s
    case WModel(w, a) => if At(s, w, AwaitModel) then Move(s, w, AfterModel(s.workers[w], a)) else s
    case Crash(w) => s.(workers := s.workers - {w})
    case Cancel => s.(row := RunRow.Cancel(s.row))
    case Confirm(op, receipt, grant, args) => DoConfirm(s, op, receipt, grant, args)
    case Resume(grant) =>
      (match RunRow.Resume(s.row, grant) case Ok(r) => s.(row := r) case Err(_) => s)
    case FReject(f, r) =>
      if f in s.flights && s.flights[f].stage.Travelling? && !r.Accepted? then SetStage(s, f, Replied(r)) else s
    case FBegin(f, found) =>
      if f in s.flights && s.flights[f].stage.Travelling? then DoBegin(s, f, found) else s
    case FExecute(f, http) =>
      if f in s.flights && s.flights[f].stage.Executing? && OperationLedger.IsHttp(http)
      then SetStage(s, f, Executed(http)).(effects := s.effects + multiset{s.flights[f].op}) else s
    case FFinish(f, stored, response) =>
      if f in s.flights && s.flights[f].stage.Executed? then DoFinish(s, f, stored, response) else s
    case FLose(f) => if f in s.flights then SetStage(s, f, Lost) else s
    case PRecover(op, http, response) => DoRecover(s, op, http, response)
  }

  function DoBeat(s: Session, now: int, w: WorkerId): (t: Session)
    ensures t == s.(row := t.row)
  {
    if w in s.workers && RunRow.Holds(s.row, s.workers[w].epoch, now)
    then s.(row := RunRow.Heartbeat(s.row, now)) else s
  }

  function DoTop(s: Session, now: int, id: WorkerId, g: Gate, op: OpId): (t: Session)
    requires id in s.workers
    ensures t == s.(row := t.row, workers := t.workers, issued := t.issued)
  {
    var w := s.workers[id];
    var after := AfterBeat(w, RunRow.Holds(s.row, w.epoch, now), s.row.cancel, g, op);
    Issue(Move(DoBeat(s, now, id), id, after), w, after)
  }

  function DoSave(s: Session, now: int, id: WorkerId, op: OpId): (t: Session)
    requires id in s.workers && s.workers[id].pc.Saving?
    ensures t == s.(row := t.row, workers := t.workers, issued := t.issued)
  {
    var w := s.workers[id];
    var st, next := w.pc.status, w.pc.next;
    var stored := RunRow.Holds(s.row, w.epoch, now);
    var after := AfterSave(w.(mem := RunRow.Sealed(w.mem, st)), next, stored, op);
    var row := if stored then RunRow.Save(s.row, w.mem, st) else s.row;
    Issue(Move(s.(row := row), id, after), w, after)
  }

  predicate DefiniteOp(s: Session, op: OpId) {
    op in s.ledger && OperationLedger.Definite(s.ledger[op])
  }

  function DoQuery(s: Session, id: WorkerId, a: QueryAnswer): (t: Session)
    ensures t == s.(workers := t.workers)
  {
    if At(s, id, Querying) && Has(s, id)
       && (a.QueryDefinite? ==> DefiniteOp(s, s.workers[id].mem.proposal.value.op))
    then Move(s, id, AfterQuery(s.workers[id], a)) else s
  }

  function DoSend(s: Session, id: WorkerId, f: FlightId): (t: Session)
    ensures t == s.(workers := t.workers, flights := t.flights, sent := t.sent)
  {
    if At(s, id, Invoking) && Has(s, id) && f !in s.flights then
      var p := s.workers[id].mem.proposal.value;
      s.(workers := s.workers[id := s.workers[id].(pc := AwaitWrite(f))],
         flights := s.flights[f := Flight(p.op, p.Work(), Travelling)],
         sent := s.sent + multiset{p.op})
    else s
  }

  function DoWrite(s: Session, id: WorkerId, r: Reply): (t: Session)
    requires Has(s, id)
    ensures t == s.(workers := t.workers, denied := t.denied)
  {
    var w := s.workers[id];
    var t := Move(s, id, AfterWrite(w, r));
    if r.Denied? then t.(denied := s.denied + multiset{w.mem.proposal.value.op}) else t
  }

  function DoReply(s: Session, id: WorkerId): (t: Session)
    ensures t == s.(workers := t.workers, denied := t.denied)
  {
    if Has(s, id) && s.workers[id].pc.AwaitWrite? && s.workers[id].pc.flight in s.flights
       && s.flights[s.workers[id].pc.flight].stage.Replied?
    then DoWrite(s, id, s.flights[s.workers[id].pc.flight].stage.reply) else s
  }

  function DoAsk(s: Session, id: WorkerId): (t: Session)
    requires id in s.workers
    ensures t == s.(workers := t.workers, asked := t.asked)
  {
    var w := s.workers[id];
    s.(workers := s.workers[id := w.(pc := AwaitModel)], asked := s.asked + multiset{w.mem.round})
  }

  function DoConfirm(s: Session, op: OpId, receipt: Token, grant: Token, args: Args): (t: Session)
    ensures t == s.(row := t.row, confirms := t.confirms)
  {
    match RunRow.Confirm(s.row, op, receipt, grant, args)
    case Ok(Some(r)) => s.(row := r, confirms := s.confirms + multiset{op})
    case _ => s
  }

  function SetStage(s: Session, f: FlightId, stage: Stage): (t: Session)
    requires f in s.flights
    ensures t == s.(flights := t.flights)
  {
    s.(flights := s.flights[f := s.flights[f].(stage := stage)])
  }

  /** What the client reads from a platform status. */
  function ReplyOf(http: nat): Reply {
    if 200 <= http < 300 then Accepted
    else if http >= 500 then Unclear
    else if http == 401 || http == 403 then Denied
    else Rejected
  }

  /** The business resolver may find a result only when the action has run. */
  predicate CanRecover(s: Session, op: OpId) {
    op in s.ledger && !OperationLedger.Definite(s.ledger[op]) && op in s.effects
  }

  function DoRecover(s: Session, op: OpId, http: nat, response: nat): (t: Session)
    ensures t == s.(ledger := t.ledger)
  {
    if CanRecover(s, op) && http == OperationLedger.RecoveredHttp(s.ledger[op].order)
       && OperationLedger.Finish(Some(s.ledger[op]), http, response).Ok?
    then s.(ledger := s.ledger[op := OperationLedger.Finish(Some(s.ledger[op]), http, response).value])
    else s
  }

  function Entry(s: Session, op: OpId): Option<OperationLedger.Operation> {
    if op in s.ledger then Some(s.ledger[op]) else None
  }

  /** Admission of a write request: a fresh operation goes on to execute, a known one is answered
      from the record, after one attempt to recover its business result. */
  function DoBegin(s: Session, f: FlightId, found: bool): (t: Session)
    requires f in s.flights
    ensures t == s.(flights := t.flights, ledger := t.ledger)
  {
    var op := s.flights[f].op;
    match OperationLedger.Begin(Entry(s, op), s.flights[f].order)
    case Conflict => SetStage(s, f, Replied(Rejected))
    case Fresh(o) => SetStage(s, f, Executing).(ledger := s.ledger[op := o])
    case Known(o) =>
      if OperationLedger.Definite(o) then SetStage(s, f, Replied(ReplyOf(o.http)))
      else if found && CanRecover(s, op) then DoRecover(SetStage(s, f, Replied(Accepted)), op, OperationLedger.RecoveredHttp(o.order), 0)
      else SetStage(s, f, Replied(Unclear))
  }

  function DoFinish(s: Session, f: FlightId, stored: bool, response: nat): (t: Session)
    requires f in s.flights && s.flights[f].stage.Executed?
    ensures t == s.(flights := t.flights, ledger := t.ledger)
  {
    var op, http := s.flights[f].op, s.flights[f].stage.http;
    match OperationLedger.Finish(Entry(s, op), http, response)
    case Ok(o) =>
      if stored then SetStage(s, f, Replied(ReplyOf(http))).(ledger := s.ledger[op := o])
      else SetStage(s, f, Replied(Unclear))
    case Err(_) => SetStage(s, f, Replied(Unclear))
  }

  /** The two transactions that belong to the fleet-wide claim. */
  function Recover(s: Session, now: int): Session {
    if RunRow.Expired(s.row, now) then s.(row := RunRow.Recover(s.row)) else s
  }

  function Claim(s: Session, now: int, w: WorkerId): Session {
    if s.row.status.Queued? && !s.row.cancel && w !in s.workers then
      var row := RunRow.Claim(s.row, now);
      s.(row := row, workers := s.workers[w := Worker(row.epoch, s.row.state, Top)],
         granted := s.granted + [row.epoch])
    else s
  }
}
