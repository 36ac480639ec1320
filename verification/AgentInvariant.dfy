/** What every step of a run keeps. */
module AgentInvariant {
  import opened Options
  import opened AgentTypes
  import opened RunnerMachine
  import opened AgentSession
  import opened RunRow
  import OperationLedger

  /*** Fencing ***/

  ghost predicate Fenced(s: Session) {
    && (forall i, j :: 0 <= i < j < |s.granted| ==> s.granted[i] < s.granted[j])
    && (forall i :: 0 <= i < |s.granted| ==> s.granted[i] <= s.row.epoch)
    && (forall w :: w in s.workers ==>
          s.workers[w].epoch in s.granted && s.workers[w].epoch <= s.row.epoch && !s.workers[w].pc.Gone?)
    && (forall w :: w in s.workers && Current(s, w) ==> s.row.status.Running?)
    && (forall v, w :: v in s.workers && w in s.workers && v != w ==> s.workers[v].epoch != s.workers[w].epoch)
  }

  predicate Current(s: Session, w: WorkerId)
    requires w in s.workers
  {
    s.workers[w].epoch == s.row.epoch
  }

  /*** Worker memory against the row ***/

  /** Bounds that worker memory keeps at every checkpoint. */
  predicate MemOk(m: State) {
    && m.round <= MAX_ROUNDS
    && m.toolCount <= MAX_TOOLS
    && !(m.modelPending && m.writePending)
    && (m.writePending ==> Confirmed(m))
    && (m.modelPending ==> m.proposal.None? && m.calls == [] && m.round < MAX_ROUNDS)
    && (m.proposal.Some? ==> SoleWrite(m) && m.proposal.value.op !in m.completed)
  }

  predicate Unconfirmed(m: State) {
    m.proposal.Some? && !m.proposal.value.confirmed
  }

  predicate Marks(d: State, m: State) {
    Confirmed(d) && !d.writePending && m == d.(writePending := true)
  }

  predicate Settles(d: State, m: State) {
    && Confirmed(d) && d.writePending
    && m.completed == d.completed + [d.proposal.value.op]
    && m.proposal.None? && !m.writePending
  }

  predicate Withdraws(d: State, m: State) {
    && Confirmed(d) && d.writePending
    && m == d.(writePending := false, receipt := None, proposal := Some(d.proposal.value.(confirmed := false)))
  }

  predicate Proposes(d: State, m: State) {
    d.proposal.None? && m.proposal.Some? && !m.proposal.value.confirmed && m.completed == d.completed && !m.writePending
  }

  predicate KeepsWrite(d: State, m: State) {
    m.proposal == d.proposal && m.completed == d.completed && m.writePending == d.writePending
  }

  predicate ModelShape(d: State, m: State, next: Next) {
    || (next != ThenAsk && m.modelPending == d.modelPending && m.round == d.round)
    || (next == ThenAsk && !d.modelPending && m.modelPending && m.round == d.round)
    || ((next.Loop? || next.Exit?) && d.modelPending && !m.modelPending && m.round == d.round + 1)
  }

  predicate SaveShape(d: State, m: State, st: Status, next: Next) {
    && MemOk(m)
    && !st.Queued?
    && (next.Exit? <==> !st.Running?)
    && (Unconfirmed(m) <==> st.WaitingConfirmation?)
    && (m.modelPending ==> next == ThenAsk || Ends(st))
    && ModelShape(d, m, next)
    && (match next
        case ThenInvoke => Marks(d, m)
        case ThenRead => m == d && m.proposal.None? && m.toolCount + |m.calls| <= MAX_TOOLS
        case ThenPropose(c, _) =>
          KeepsWrite(d, m) && m.proposal.None? && m.calls == [c] && c.valid && !c.kind.Read? && m.toolCount + 1 <= MAX_TOOLS
        case ThenAsk => KeepsWrite(d, m) && m.proposal.None?
        case Loop => KeepsWrite(d, m) || Settles(d, m)
        case Exit => KeepsWrite(d, m) || Withdraws(d, m) || Proposes(d, m))
  }

  /** A worker whose epoch is current holds the row's state, up to the change it is about to save. */
  predicate Coupled(w: Worker, d: State) {
    match w.pc
    case Top => w.mem == d && !d.modelPending && (d.proposal.Some? ==> d.proposal.value.confirmed)
    case Querying => w.mem == d && Confirmed(d) && d.writePending
    case Invoking => w.mem == d && Confirmed(d) && d.writePending
    case AwaitWrite(_) => w.mem == d && Confirmed(d) && d.writePending
    case Validating =>
      && w.mem == d && !d.modelPending && d.proposal.None?
      && |d.calls| == 1 && d.calls[0].valid && !d.calls[0].kind.Read? && d.toolCount + 2 <= MAX_TOOLS
    case Reading => w.mem == d && !d.modelPending && d.proposal.None? && d.toolCount + |d.calls| <= MAX_TOOLS
    case Cataloging => w.mem == d && !d.modelPending && d.proposal.None? && d.calls == [] && d.round < MAX_ROUNDS
    case Asking => w.mem == d && d.modelPending
    case AwaitModel => w.mem == d && d.modelPending
    case Saving(st, next) => SaveShape(d, w.mem, st, next)
    case Gone => false
  }

  ghost predicate MemoryCoupled(s: Session) {
    && RowOk(s.row)
    && forall w :: w in s.workers && Current(s, w) ==> Coupled(s.workers[w], s.row.state)
  }

  /*** Model requests ***/

  ghost predicate ModelOnce(s: Session) {
    && (forall k :: k in s.asked ==>
          s.asked[k] == 1 && k < MAX_ROUNDS
          && (k < s.row.state.round || (k == s.row.state.round && s.row.state.modelPending)))
    && (forall w :: At(s, w, Asking) ==>
          && s.row.state.modelPending && s.workers[w].mem.round == s.row.state.round
          && s.workers[w].mem.round !in s.asked
          && (s.row.status.Running? ==> Current(s, w)))
    && (forall v, w :: At(s, v, Asking) && At(s, w, Asking) ==> v == w)
  }

  /*** Writes ***/

  predicate Writing(s: Session, w: WorkerId) {
    w in s.workers && (s.workers[w].pc.Invoking? || s.workers[w].pc.AwaitWrite?)
  }

  predicate Dispatched(d: State, op: OpId) {
    (d.proposal.Some? && d.proposal.value.op == op && d.writePending) || op in d.completed
  }

  predicate Mentioned(d: State, op: OpId) {
    (d.proposal.Some? && d.proposal.value.op == op) || op in d.completed
  }

  predicate Known(s: Session, op: OpId, order: Order) {
    op in s.issued && s.issued[op] == order
  }

  /** No execution of `op` is under way on the platform, as far as the record tells. */
  predicate Clean(s: Session, op: OpId) {
    op !in s.ledger || OperationLedger.Definite(s.ledger[op])
  }

  predicate LiveFlight(s: Session, f: FlightId, op: OpId) {
    f in s.flights && s.flights[f].op == op && s.flights[f].stage.Live()
  }

  /** The flight has brought a definite answer. */
  predicate Answered(s: Session, f: FlightId) {
    f in s.flights && s.flights[f].stage.Replied? && !s.flights[f].stage.reply.Unclear?
  }

  /** The record of `op` is final, or the action was refused and nobody can start it any more. */
  ghost predicate Settled(s: Session, op: OpId) {
    || DefiniteOp(s, op)
    || (&& op !in s.ledger
        && (forall f :: !LiveFlight(s, f, op))
        && (forall w :: At(s, w, Invoking) && s.workers[w].mem.proposal.Some? ==> s.workers[w].mem.proposal.value.op != op))
  }

  /** Names: every identifier in use was drawn, and always stands for the same order. */
  ghost predicate Names(s: Session) {
    var d := s.row.state;
    && (d.proposal.Some? ==> Known(s, d.proposal.value.op, d.proposal.value.Work()))
    && (forall o :: o in d.completed ==> o in s.issued)
    && (forall w :: w in s.workers && Current(s, w) && s.workers[w].mem.proposal.Some? ==>
          Known(s, s.workers[w].mem.proposal.value.op, s.workers[w].mem.proposal.value.Work()))
    && (forall f :: f in s.flights ==> Known(s, s.flights[f].op, s.flights[f].order) && s.flights[f].op in s.sent)
    && (forall o :: o in s.ledger ==> Known(s, o, s.ledger[o].order) && o in s.sent)
    && (forall o :: o in s.sent || o in s.confirms || o in s.denied || o in s.effects ==> o in s.issued)
  }

  ghost predicate Writers(s: Session) {
    var d := s.row.state;
    && (forall w :: Writing(s, w) ==>
          && Confirmed(s.workers[w].mem)
          && Known(s, s.workers[w].mem.proposal.value.op, s.workers[w].mem.proposal.value.Work())
          && Dispatched(d, s.workers[w].mem.proposal.value.op))
    && (forall v, w :: Writing(s, v) && Writing(s, w) && v != w ==>
          s.workers[v].mem.proposal.Some? && s.workers[w].mem.proposal.Some?
          && s.workers[v].mem.proposal.value.op != s.workers[w].mem.proposal.value.op)
  }

  ghost predicate Flights(s: Session) {
    && (forall f :: f in s.flights && s.flights[f].stage.Live() ==> Dispatched(s.row.state, s.flights[f].op))
    && (forall f, g :: f in s.flights && g in s.flights && f != g && s.flights[f].stage.Live() && s.flights[g].stage.Live() ==>
          s.flights[f].op != s.flights[g].op)
    && (forall w, f :: At(s, w, Invoking) && s.workers[w].mem.proposal.Some? ==>
          !LiveFlight(s, f, s.workers[w].mem.proposal.value.op))
    && (forall w, f :: Writing(s, w) && s.workers[w].pc.AwaitWrite? && s.workers[w].mem.proposal.Some? ==>
          LiveFlight(s, f, s.workers[w].mem.proposal.value.op) ==> f == s.workers[w].pc.flight)
    && (forall w :: Writing(s, w) && s.workers[w].pc.AwaitWrite? && s.workers[w].mem.proposal.Some? ==>
          s.workers[w].pc.flight in s.flights && s.flights[s.workers[w].pc.flight].op == s.workers[w].mem.proposal.value.op)
  }

  /** The platform's record against the executions that happened. */
  ghost predicate Executions(s: Session) {
    && (forall o :: s.effects[o] <= 1)
    && (forall o :: o in s.effects ==> o in s.ledger)
    && (forall o :: o in s.ledger && s.ledger[o].phase.Completed? ==> o in s.effects)
    && (forall o :: o in s.ledger ==> Mentioned(s.row.state, o))
    && (forall f :: f in s.flights && s.flights[f].stage.Executing? ==>
          s.flights[f].op in s.ledger && s.flights[f].op !in s.effects)
    && (forall f :: f in s.flights && s.flights[f].stage.Executed? ==>
          s.flights[f].op in s.effects && OperationLedger.IsHttp(s.flights[f].stage.http))
  }

  /** Whenever a write may still be started, the record of its operation is absent or final. */
  ghost predicate CleanStarts(s: Session) {
    && (s.row.state.proposal.Some? && !s.row.state.writePending ==> Clean(s, s.row.state.proposal.value.op))
    && (forall w :: At(s, w, Invoking) && s.workers[w].mem.proposal.Some? ==> Clean(s, s.workers[w].mem.proposal.value.op))
    && (forall f :: f in s.flights && s.flights[f].stage.Travelling? ==> Clean(s, s.flights[f].op))
    && (forall w :: Writing(s, w) && s.workers[w].pc.AwaitWrite? && s.workers[w].mem.proposal.Some? ==>
          Answered(s, s.workers[w].pc.flight) ==> Clean(s, s.workers[w].mem.proposal.value.op))
  }

  ghost predicate Records(s: Session) {
    var d := s.row.state;
    && (forall o :: o in d.completed ==> Settled(s, o))
    && (forall w :: w in s.workers && Current(s, w) && s.workers[w].pc.Saving? && Settles(d, s.workers[w].mem) ==>
          Settled(s, d.proposal.value.op))
    && (forall w :: w in s.workers && Current(s, w) && s.workers[w].pc.Saving? && Withdraws(d, s.workers[w].mem) ==>
          Withdrawn(s, d.proposal.value.op))
  }

  /** A refused write: nothing of it is under way, and no worker can still send it. */
  ghost predicate Withdrawn(s: Session, op: OpId) {
    && Clean(s, op)
    && (forall f :: !LiveFlight(s, f, op))
    && (forall w :: Writing(s, w) && s.workers[w].mem.proposal.Some? ==> s.workers[w].mem.proposal.value.op != op)
  }

  /** Sends, confirmations and definite denials of one operation. */
  ghost predicate Tokens(s: Session) {
    var d := s.row.state;
    && (forall o :: s.sent[o] <= s.confirms[o] <= 1 + s.denied[o])
    && (Unconfirmed(d) ==> s.confirms[d.proposal.value.op] <= s.denied[d.proposal.value.op])
    && (Confirmed(d) && !d.writePending ==> s.sent[d.proposal.value.op] + 1 <= s.confirms[d.proposal.value.op])
    && (forall w :: At(s, w, Invoking) && s.workers[w].mem.proposal.Some? ==>
          s.sent[s.workers[w].mem.proposal.value.op] + 1 <= s.confirms[s.workers[w].mem.proposal.value.op])
    && (forall w :: w in s.workers && Current(s, w) && s.workers[w].pc.Saving? && Unconfirmed(s.workers[w].mem) ==>
          s.confirms[s.workers[w].mem.proposal.value.op] <= s.denied[s.workers[w].mem.proposal.value.op])
  }

  ghost predicate Inv(s: Session) {
    Fenced(s) && MemoryCoupled(s) && ModelOnce(s) && Names(s) && Writers(s) && Flights(s) && Executions(s) && CleanStarts(s) && Records(s) && Tokens(s)
  }
}
