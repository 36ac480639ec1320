/** Every event keeps the invariant. */
module AgentSafety {
  import opened Options
  import opened AgentTypes
  import opened RunnerMachine
  import opened AgentSession
  import opened AgentInvariant
  import opened AgentKeeps
  import opened AgentKeepsMore
  import RunRow
  import OperationLedger

  ghost predicate FreshFor(s: Session, e: Event) {
    forall o :: o in Draws(e) ==> o !in s.issued
  }

  lemma BeatAround(s: Session, now: int)
    requires Fenced(s) && RunRow.RowOk(s.row) && s.row.status.Running?
    ensures Around(s, RunRow.Heartbeat(s.row, now))
  {}

  lemma BeatKeeps(s: Session, now: int, w: WorkerId)
    requires Inv(s)
    ensures Inv(DoBeat(s, now, w))
  {
    if w in s.workers && RunRow.Holds(s.row, s.workers[w].epoch, now) {
      BeatAround(s, now);
      AroundKeeps(s, RunRow.Heartbeat(s.row, now));
    }
  }

  /** The branch taken at the top of the loop carries the coupling over. */
  lemma BranchCoupled(w: Worker, d: State, op: OpId)
    requires w.pc.Top? && MemOk(d) && Coupled(w, d) && op !in d.completed
    ensures var after := Branch(w, op);
      && Coupled(after, d)
      && !after.pc.Asking? && !after.pc.Invoking? && !after.pc.AwaitWrite? && !after.pc.Gone?
      && after.epoch == w.epoch
      && (after.mem.proposal != d.proposal ==> after.mem.proposal.Some? && Proposes(d, after.mem) && after.mem.proposal.value.op == op)
      && !Settles(d, after.mem) && !Withdraws(d, after.mem)
  {
    var m := w.mem;
    if !Confirmed(m) && |m.calls| > 0 && AllValid(m.calls) {
      assert m.calls[0] in m.calls;
      if |m.calls| == 1 { assert m.calls == [m.calls[0]]; }
    }
  }

  lemma TopMoves(s: Session, id: WorkerId, found: bool, stop: bool, g: Gate, op: OpId)
    requires Inv(s) && At(s, id, Top) && op !in s.issued
    requires found ==> Current(s, id)
    ensures var after := AfterBeat(s.workers[id], found, stop, g, op);
      Inv(Issue(Move(s, id, after), s.workers[id], after))
  {
    var w := s.workers[id];
    var after := AfterBeat(w, found, stop, g, op);
    if Current(s, id) {
      assert Coupled(w, s.row.state);
      assert MemOk(s.row.state);
      BranchCoupled(w, s.row.state, op);
    }
    TopQuiet(s, id, found, stop, g, op);
    var s1 := Issue(s, w, after);
    if s1 != s { DrawKeeps(s, op, after.mem.proposal.value.Work()); }
    MoveKeeps(s1, id, after);
  }

  lemma TopQuiet(s: Session, id: WorkerId, found: bool, stop: bool, g: Gate, op: OpId)
    requires MemoryCoupled(s) && Names(s) && At(s, id, Top) && op !in s.issued
    requires found ==> Current(s, id)
    ensures var w := s.workers[id];
      var after := AfterBeat(w, found, stop, g, op);
      Quiet(Issue(s, w, after), id, after)
  {
    var w := s.workers[id];
    var after := AfterBeat(w, found, stop, g, op);
    if Current(s, id) {
      assert Coupled(w, s.row.state);
      BranchCoupled(w, s.row.state, op);
    }
  }

  lemma SaveKeeps(s: Session, now: int, id: WorkerId, op: OpId)
    requires Inv(s) && id in s.workers && s.workers[id].pc.Saving? && op !in s.issued
    ensures Inv(DoSave(s, now, id, op))
  {
    hide Inv;
    var w := s.workers[id];
    if RunRow.Holds(s.row, w.epoch, now) {
      SaveStores(s, id, op);
    } else {
      MoveKeeps(s, id, w.(mem := RunRow.Sealed(w.mem, w.pc.status), pc := Gone));
    }
  }

  lemma SaveStores(s: Session, id: WorkerId, op: OpId)
    requires Inv(s) && id in s.workers && s.workers[id].pc.Saving? && op !in s.issued
    requires Current(s, id) && s.row.status.Running?
    ensures var w := s.workers[id];
      var after := AfterSave(w.(mem := RunRow.Sealed(w.mem, w.pc.status)), w.pc.next, true, op);
      Inv(Issue(Stored(s, id, op), w, after))
  {
    var w := s.workers[id];
    var after := AfterSave(w.(mem := RunRow.Sealed(w.mem, w.pc.status)), w.pc.next, true, op);
    SaveDraws(s, id, op);
    var s1 := Issue(s, w, after);
    if s1 != s { DrawKeeps(s, op, after.mem.proposal.value.Work()); }
    StoreKeeps(s1, id, op);
    assert Issue(Stored(s, id, op), w, after) == Stored(s1, id, op);
  }

  lemma SaveDraws(s: Session, id: WorkerId, op: OpId)
    requires MemoryCoupled(s) && Names(s) && id in s.workers && s.workers[id].pc.Saving? && op !in s.issued
    requires Current(s, id) && s.row.status.Running?
    ensures var w := s.workers[id];
      var after := AfterSave(w.(mem := RunRow.Sealed(w.mem, w.pc.status)), w.pc.next, true, op);
      Stores(Issue(s, w, after), id, op)
      && (Issue(s, w, after) != s ==> after.mem.proposal.Some? && after.mem.proposal.value.op == op)
  {
    var w := s.workers[id];
    if w.pc.next.ThenPropose? {
      assert Coupled(w, s.row.state);
    }
  }

  /*** Steps of a worker that only change its own position ***/

  lemma QueryKeeps(s: Session, id: WorkerId, a: QueryAnswer)
    requires Inv(s)
    ensures Inv(DoQuery(s, id, a))
  {
    if DoQuery(s, id, a) != s {
      QueryQuiet(s, id, a);
      MoveKeeps(s, id, AfterQuery(s.workers[id], a));
    }
  }

  lemma QueryQuiet(s: Session, id: WorkerId, a: QueryAnswer)
    requires MemoryCoupled(s) && Names(s) && Tokens(s) && At(s, id, Querying) && Has(s, id)
    requires a.QueryDefinite? ==> DefiniteOp(s, s.workers[id].mem.proposal.value.op)
    ensures Quiet(s, id, AfterQuery(s.workers[id], a))
  {
    var w := s.workers[id];
    if Current(s, id) {
      assert Coupled(w, s.row.state);
    }
    match a
    case QueryDenied => FailQuietIfCoupled(s, id, WaitingAuth);
    case QueryOther => FailQuietIfCoupled(s, id, Unknown);
    case QueryDefinite =>
      if Current(s, id) { SettleCoupled(w, s.row.state); }
  }

  lemma SettleCoupled(w: Worker, d: State)
    requires w.mem == d && MemOk(d) && Confirmed(d) && d.writePending
    ensures Coupled(Settle(w), d) && Settles(d, Settle(w).mem) && !Withdraws(d, Settle(w).mem)
  {}

  lemma FailQuietIfCoupled(s: Session, id: WorkerId, st: Status)
    requires MemoryCoupled(s) && Names(s) && Tokens(s) && id in s.workers
    requires !s.workers[id].pc.Saving? && !s.workers[id].pc.Gone?
    requires RunRow.Ends(st) || (st.WaitingAuth? && !s.workers[id].pc.Asking? && !s.workers[id].pc.AwaitModel?)
    ensures Quiet(s, id, Fail(s.workers[id], st))
  {
    var w := s.workers[id];
    if Current(s, id) {
      assert Coupled(w, s.row.state);
    }
  }

  /** Where a definite answer to a write can come from. */
  ghost predicate Definitely(s: Session, id: WorkerId) {
    && Has(s, id)
    && (s.workers[id].pc.Invoking? || (s.workers[id].pc.AwaitWrite? && Answered(s, s.workers[id].pc.flight)))
  }

  /** After a definite answer nothing of the operation is under way. */
  lemma AnswerSettles(s: Session, id: WorkerId, w: Worker)
    requires Writers(s) && Flights(s) && CleanStarts(s) && Definitely(s, id)
    requires !w.pc.Invoking? && !w.pc.AwaitWrite?
    ensures Withdrawn(Move(s, id, w), s.workers[id].mem.proposal.value.op)
    ensures Settled(Move(s, id, w), s.workers[id].mem.proposal.value.op)
  {
    var t := Move(s, id, w);
    var op := s.workers[id].mem.proposal.value.op;
    assert Writing(s, id);
    assert forall v :: Writing(t, v) ==> v != id && Writing(s, v) && t.workers[v] == s.workers[v];
    assert forall v :: At(t, v, Invoking) ==> Writing(t, v);
    assert forall f, o :: LiveFlight(t, f, o) <==> LiveFlight(s, f, o);
    assert Clean(s, op) by { if s.workers[id].pc.Invoking? { assert At(s, id, Invoking); } }
    forall f ensures !LiveFlight(s, f, op) {
      if s.workers[id].pc.Invoking? { assert At(s, id, Invoking); }
    }
  }

  lemma WriteQuiet(s: Session, id: WorkerId, r: Reply)
    requires MemoryCoupled(s) && Names(s) && Writers(s) && Flights(s) && CleanStarts(s) && Tokens(s)
    requires Definitely(s, id) && !r.Unclear?
    requires r.Denied? ==> s.confirms[s.workers[id].mem.proposal.value.op] <= s.denied[s.workers[id].mem.proposal.value.op]
    ensures Quiet(s, id, AfterWrite(s.workers[id], r))
  {
    var w := s.workers[id];
    var after := AfterWrite(w, r);
    AnswerSettles(s, id, after);
    if Current(s, id) {
      assert Coupled(w, s.row.state);
      if r.Denied? {
        WithdrawCoupled(w, s.row.state);
      } else {
        SettleCoupled(w, s.row.state);
      }
    }
  }

  lemma WithdrawCoupled(w: Worker, d: State)
    requires w.mem == d && MemOk(d) && Confirmed(d) && d.writePending
    ensures Coupled(AfterWrite(w, Denied), d)
    ensures Withdraws(d, AfterWrite(w, Denied).mem) && !Settles(d, AfterWrite(w, Denied).mem)
  {}

  lemma WriteKeeps(s: Session, id: WorkerId, r: Reply)
    requires Inv(s) && Writing(s, id) && Has(s, id)
    requires !r.Unclear? ==> Definitely(s, id)
    ensures Inv(DoWrite(s, id, r))
  {
    var w := s.workers[id];
    if r.Unclear? {
      FailQuietIfCoupled(s, id, Unknown);
      MoveKeeps(s, id, AfterWrite(w, r));
    } else if r.Denied? {
      var op := w.mem.proposal.value.op;
      var s1 := s.(denied := s.denied + multiset{op});
      DenyKeeps(s, op);
      WriteQuiet(s1, id, r);
      MoveKeeps(s1, id, AfterWrite(w, r));
      assert DoWrite(s, id, r) == Move(s1, id, AfterWrite(w, r));
    } else {
      WriteQuiet(s, id, r);
      MoveKeeps(s, id, AfterWrite(w, r));
    }
  }

  lemma ValidateQuiet(s: Session, id: WorkerId, a: ValidateAnswer)
    requires MemoryCoupled(s) && Names(s) && Tokens(s) && At(s, id, Validating) && |s.workers[id].mem.calls| > 0
    ensures Quiet(s, id, AfterValidate(s.workers[id], a))
  {
    hide Settled, Withdrawn;
    if Current(s, id) {
      assert Coupled(s.workers[id], s.row.state) && MemOk(s.row.state);
      ValidateCoupled(s.workers[id], s.row.state, a);
    }
    ValidateMoves(s.workers[id], a);
    hide Coupled, AfterValidate, MemoryCoupled, Names, Tokens;
  }

  lemma ValidateMoves(w: Worker, a: ValidateAnswer)
    requires |w.mem.calls| > 0
    ensures var after := AfterValidate(w, a);
      after.epoch == w.epoch && !after.pc.Asking? && !after.pc.Invoking? && !after.pc.AwaitWrite?
  {}

  /** A worker that validates has no proposal yet, and does not make one before its checkpoint. */
  lemma ValidateCoupled(w: Worker, d: State, a: ValidateAnswer)
    requires w.pc.Validating? && Coupled(w, d) && MemOk(d) && |w.mem.calls| > 0
    ensures var after := AfterValidate(w, a);
      Coupled(after, d) && after.mem.proposal.None? && !Settles(d, after.mem) && !Withdraws(d, after.mem)
  {
    assert d.calls == [d.calls[0]];
  }

  lemma ReadQuiet(s: Session, id: WorkerId, a: ReadAnswer)
    requires MemoryCoupled(s) && Names(s) && Tokens(s) && At(s, id, Reading)
    ensures Quiet(s, id, AfterRead(s.workers[id], a))
  {
    hide Settled, Withdrawn;
    if Current(s, id) { assert Coupled(s.workers[id], s.row.state); }
  }

  lemma CatalogQuiet(s: Session, id: WorkerId, a: CatalogAnswer)
    requires MemoryCoupled(s) && Names(s) && Tokens(s) && At(s, id, Cataloging)
    ensures Quiet(s, id, AfterCatalog(s.workers[id], a))
  {
    hide Settled, Withdrawn;
    if Current(s, id) { assert Coupled(s.workers[id], s.row.state); }
  }

  lemma ModelQuiet(s: Session, id: WorkerId, a: ModelAnswer)
    requires MemoryCoupled(s) && Names(s) && Tokens(s) && At(s, id, AwaitModel)
    ensures Quiet(s, id, AfterModel(s.workers[id], a))
  {
    hide Settled, Withdrawn;
    if Current(s, id) {
      assert Coupled(s.workers[id], s.row.state) && MemOk(s.row.state);
      ModelCoupled(s.workers[id], s.row.state, a);
    }
    ModelMoves(s.workers[id], a);
    hide Coupled, AfterModel, MemoryCoupled, Names, Tokens;
  }

  lemma ModelMoves(w: Worker, a: ModelAnswer)
    ensures var after := AfterModel(w, a);
      after.epoch == w.epoch && !after.pc.Asking? && !after.pc.Invoking? && !after.pc.AwaitWrite?
  {}

  /** A model answer leaves no proposal behind, so nothing of a write is at stake. */
  lemma ModelCoupled(w: Worker, d: State, a: ModelAnswer)
    requires w.pc.AwaitModel? && Coupled(w, d) && MemOk(d)
    ensures var after := AfterModel(w, a);
      Coupled(after, d) && after.mem.proposal.None? && !Settles(d, after.mem) && !Withdraws(d, after.mem)
  {}

  lemma CrashKeeps(s: Session, id: WorkerId)
    requires Inv(s)
    ensures Inv(s.(workers := s.workers - {id}))
  {
    hide Inv;
    if id in s.workers {
      MoveKeeps(s, id, s.workers[id].(pc := Gone));
    } else {
      assert s.workers - {id} == s.workers;
    }
  }

  lemma CancelAround(s: Session)
    requires Fenced(s) && RunRow.RowOk(s.row)
    ensures Around(s, RunRow.Cancel(s.row))
  {}

  lemma ResumeAround(s: Session, grant: Token)
    requires Fenced(s) && RunRow.RowOk(s.row) && RunRow.Resume(s.row, grant).Ok?
    ensures Around(s, RunRow.Resume(s.row, grant).value)
  {}

  /*** The platform side ***/

  lemma BeginFreshKeeps(s: Session, f: FlightId, o: OperationLedger.Operation)
    requires Inv(s) && f in s.flights && s.flights[f].stage.Travelling? && s.flights[f].op !in s.ledger
    requires o == OperationLedger.Operation(s.flights[f].order, OperationLedger.Pending, 0, 0)
    ensures Inv(SetStage(s, f, Executing).(ledger := s.ledger[s.flights[f].op := o]))
  {
    hide Fenced, MemoryCoupled, ModelOnce, Names, Writers, Flights, Executions, CleanStarts, Records, Tokens;
    var t := SetStage(s, f, Executing).(ledger := s.ledger[s.flights[f].op := o]);
    FrameFenced(s, t);
    FrameCoupled(s, t);
    FrameModel(s, t);
    FrameWriters(s, t);
    FrameTokens(s, t);
    BeginNames(s, t, f, o);
    BeginFlights(s, t, f, o);
    BeginDispatched(s, f);
    BeginExecutions(s, t, f, o);
    BeginRecords(s, t, f, o);
  }

  ghost predicate Begins(s: Session, t: Session, f: FlightId, o: OperationLedger.Operation) {
    && f in s.flights && s.flights[f].stage.Travelling? && s.flights[f].op !in s.ledger
    && o == OperationLedger.Operation(s.flights[f].order, OperationLedger.Pending, 0, 0)
    && t == SetStage(s, f, Executing).(ledger := s.ledger[s.flights[f].op := o])
  }

  lemma BeginNames(s: Session, t: Session, f: FlightId, o: OperationLedger.Operation)
    requires Names(s) && Begins(s, t, f, o)
    ensures Names(t)
  {}

  lemma BeginFlights(s: Session, t: Session, f: FlightId, o: OperationLedger.Operation)
    requires Flights(s) && Begins(s, t, f, o)
    ensures Flights(t)
  {
    assert forall v :: At(t, v, Invoking) <==> At(s, v, Invoking);
    assert forall v :: Writing(t, v) <==> Writing(s, v);
    assert forall g, x :: LiveFlight(t, g, x) <==> LiveFlight(s, g, x);
  }

  lemma BeginDispatched(s: Session, f: FlightId)
    requires Flights(s) && f in s.flights && s.flights[f].stage.Travelling?
    ensures Dispatched(s.row.state, s.flights[f].op)
  {}

  lemma BeginExecutions(s: Session, t: Session, f: FlightId, o: OperationLedger.Operation)
    requires Executions(s) && Begins(s, t, f, o) && Dispatched(s.row.state, s.flights[f].op)
    ensures Executions(t)
  {
    hide Dispatched, Mentioned;
    DispatchedIsMentioned(s.row.state, s.flights[f].op);
  }

  lemma DispatchedIsMentioned(d: State, op: OpId)
    requires Dispatched(d, op)
    ensures Mentioned(d, op)
  {}

  lemma BeginRecords(s: Session, t: Session, f: FlightId, o: OperationLedger.Operation)
    requires MemoryCoupled(s) && Writers(s) && Flights(s) && CleanStarts(s) && Records(s) && Begins(s, t, f, o)
    ensures CleanStarts(t) && Records(t)
  {
    hide MemoryCoupled, Writers, Flights, CleanStarts, Records;
    BeginStarts(s, t, f, o);
    BeginSettled(s, t, f, o);
  }

  lemma BeginStarts(s: Session, t: Session, f: FlightId, o: OperationLedger.Operation)
    requires MemoryCoupled(s) && Writers(s) && Flights(s) && CleanStarts(s) && Begins(s, t, f, o)
    ensures CleanStarts(t)
  {
    var op := s.flights[f].op;
    assert LiveFlight(s, f, op);
    assert forall v :: At(t, v, Invoking) <==> At(s, v, Invoking);
    assert forall v :: Writing(t, v) <==> Writing(s, v);
    assert forall x :: x != op ==> (Clean(s, x) <==> Clean(t, x));
    assert forall g :: Answered(t, g) <==> Answered(s, g);
  }

  lemma BeginSettled(s: Session, t: Session, f: FlightId, o: OperationLedger.Operation)
    requires Records(s) && Begins(s, t, f, o)
    ensures Records(t)
  {
    var op := s.flights[f].op;
    assert LiveFlight(s, f, op);
    assert forall v :: At(t, v, Invoking) <==> At(s, v, Invoking);
    assert forall v :: Writing(t, v) <==> Writing(s, v);
    assert forall g, x :: LiveFlight(t, g, x) <==> LiveFlight(s, g, x);
    assert forall x :: x != op ==> (Clean(s, x) <==> Clean(t, x));
    assert forall x :: x != op && Settled(s, x) ==> Settled(t, x);
    assert !Settled(s, op);
    assert !Withdrawn(s, op);
    assert forall x :: x != op && Withdrawn(s, x) ==> Withdrawn(t, x);
  }

  /** A request that has not begun meets either no record or a final one. */
  lemma BeginKeeps(s: Session, f: FlightId, found: bool)
    requires Inv(s) && f in s.flights && s.flights[f].stage.Travelling?
    ensures Inv(DoBegin(s, f, found))
  {
    var op := s.flights[f].op;
    assert Clean(s, op) && Known(s, op, s.flights[f].order);
    if op in s.ledger {
      assert s.ledger[op].order == s.flights[f].order;
      GroundKeeps(s, f, Replied(ReplyOf(s.ledger[op].http)));
    } else {
      BeginFreshKeeps(s, f, OperationLedger.Operation(s.flights[f].order, OperationLedger.Pending, 0, 0));
    }
  }

  ghost predicate Executes(s: Session, t: Session, f: FlightId, http: nat) {
    && f in s.flights && s.flights[f].stage.Executing? && OperationLedger.IsHttp(http)
    && t == SetStage(s, f, Executed(http)).(effects := s.effects + multiset{s.flights[f].op})
  }

  lemma ExecuteNames(s: Session, t: Session, f: FlightId, http: nat)
    requires Names(s) && Executes(s, t, f, http)
    ensures Names(t)
  {}

  lemma ExecuteFlights(s: Session, t: Session, f: FlightId, http: nat)
    requires Flights(s) && Executes(s, t, f, http)
    ensures Flights(t)
  {
    assert forall v :: At(t, v, Invoking) <==> At(s, v, Invoking);
    assert forall v :: Writing(t, v) <==> Writing(s, v);
    assert forall g, x :: LiveFlight(t, g, x) <==> LiveFlight(s, g, x);
  }

  lemma ExecuteExecutions(s: Session, t: Session, f: FlightId, http: nat)
    requires Flights(s) && Executions(s) && Executes(s, t, f, http)
    ensures Executions(t)
  {
    assert forall o :: o in t.effects <==> o in s.effects || o == s.flights[f].op;
    assert s.effects[s.flights[f].op] == 0;
  }

  lemma ExecuteRecords(s: Session, t: Session, f: FlightId, http: nat)
    requires CleanStarts(s) && Records(s) && Executes(s, t, f, http)
    ensures CleanStarts(t) && Records(t)
  {
    assert forall v :: At(t, v, Invoking) <==> At(s, v, Invoking);
    assert forall v :: Writing(t, v) <==> Writing(s, v);
    assert forall g, x :: LiveFlight(t, g, x) <==> LiveFlight(s, g, x);
    assert forall g :: Answered(t, g) <==> Answered(s, g);
    assert forall x :: Clean(s, x) <==> Clean(t, x);
    assert forall x :: Settled(s, x) ==> Settled(t, x);
    assert forall x :: Withdrawn(s, x) ==> Withdrawn(t, x);
  }

  lemma ExecuteKeeps(s: Session, t: Session, f: FlightId, http: nat)
    requires Inv(s) && Executes(s, t, f, http)
    ensures Inv(t)
  {
    hide Fenced, MemoryCoupled, ModelOnce, Names, Writers, Flights, Executions, CleanStarts, Records, Tokens;
    FrameFenced(s, t);
    FrameCoupled(s, t);
    FrameModel(s, t);
    ExecuteNames(s, t, f, http);
    FrameWriters(s, t);
    ExecuteFlights(s, t, f, http);
    ExecuteExecutions(s, t, f, http);
    ExecuteRecords(s, t, f, http);
    FrameTokens(s, t);
  }

  lemma FinishKeeps(s: Session, f: FlightId, stored: bool, response: nat)
    requires Inv(s) && f in s.flights && s.flights[f].stage.Executed?
    ensures Inv(DoFinish(s, f, stored, response))
  {
    hide DoFinish;
    assert s.flights[f].op in s.ledger && s.flights[f].op in s.effects;
    FinishRecords(s, f, stored, response);
  }

  lemma FinishRecords(s: Session, f: FlightId, stored: bool, response: nat)
    requires Inv(s) && f in s.flights && s.flights[f].stage.Executed?
    requires s.flights[f].op in s.ledger && s.flights[f].op in s.effects
    ensures Inv(DoFinish(s, f, stored, response))
  {
    hide Inv;
    var op, http := s.flights[f].op, s.flights[f].stage.http;
    var o := OperationLedger.Finish(Some(s.ledger[op]), http, response);
    if o.Ok? && stored {
      var s1 := s.(ledger := s.ledger[op := o.value]);
      RecordKeeps(s, op, o.value);
      GroundKeeps(s1, f, Replied(ReplyOf(http)));
      assert DoFinish(s, f, stored, response) == SetStage(s1, f, Replied(ReplyOf(http)));
    } else {
      GroundKeeps(s, f, Replied(Unclear));
    }
  }

  lemma PlatformRecoverKeeps(s: Session, op: OpId, http: nat, response: nat)
    requires Inv(s)
    ensures Inv(DoRecover(s, op, http, response))
  {
    if DoRecover(s, op, http, response) != s {
      RecordKeeps(s, op, OperationLedger.Finish(Some(s.ledger[op]), http, response).value);
    }
  }

  /*** Any event ***/

  lemma TopKeeps(s: Session, now: int, w: WorkerId, g: Gate, op: OpId)
    requires Inv(s) && At(s, w, Top) && op !in s.issued
    ensures Inv(DoTop(s, now, w, g, op))
  {
    hide Inv;
    BeatKeeps(s, now, w);
    TopMoves(DoBeat(s, now, w), w, RunRow.Holds(s.row, s.workers[w].epoch, now), s.row.cancel, g, op);
  }

  lemma ValidateKeeps(s: Session, w: WorkerId, a: ValidateAnswer)
    requires Inv(s) && At(s, w, Validating) && |s.workers[w].mem.calls| > 0
    ensures Inv(Move(s, w, AfterValidate(s.workers[w], a)))
  {
    ValidateQuiet(s, w, a);
    MoveKeeps(s, w, AfterValidate(s.workers[w], a));
  }

  lemma ReadKeeps(s: Session, w: WorkerId, a: ReadAnswer)
    requires Inv(s) && At(s, w, Reading)
    ensures Inv(Move(s, w, AfterRead(s.workers[w], a)))
  {
    ReadQuiet(s, w, a);
    MoveKeeps(s, w, AfterRead(s.workers[w], a));
  }

  lemma CatalogKeeps(s: Session, w: WorkerId, a: CatalogAnswer)
    requires Inv(s) && At(s, w, Cataloging)
    ensures Inv(Move(s, w, AfterCatalog(s.workers[w], a)))
  {
    CatalogQuiet(s, w, a);
    MoveKeeps(s, w, AfterCatalog(s.workers[w], a));
  }

  lemma ModelKeeps(s: Session, w: WorkerId, a: ModelAnswer)
    requires Inv(s) && At(s, w, AwaitModel)
    ensures Inv(Move(s, w, AfterModel(s.workers[w], a)))
  {
    ModelQuiet(s, w, a);
    MoveKeeps(s, w, AfterModel(s.workers[w], a));
  }

  lemma ReplyKeeps(s: Session, w: WorkerId)
    requires Inv(s)
    ensures Inv(DoReply(s, w))
  {
    hide Inv;
    if Has(s, w) && s.workers[w].pc.AwaitWrite? && s.workers[w].pc.flight in s.flights
       && s.flights[s.workers[w].pc.flight].stage.Replied? {
      WriteKeeps(s, w, s.flights[s.workers[w].pc.flight].stage.reply);
    }
  }

  lemma CancelKeeps(s: Session)
    requires Inv(s)
    ensures Inv(s.(row := RunRow.Cancel(s.row)))
  {
    CancelAround(s);
    AroundKeeps(s, RunRow.Cancel(s.row));
  }

  lemma ResumeKeeps(s: Session, grant: Token)
    requires Inv(s) && RunRow.Resume(s.row, grant).Ok?
    ensures Inv(s.(row := RunRow.Resume(s.row, grant).value))
  {
    ResumeAround(s, grant);
    AroundKeeps(s, RunRow.Resume(s.row, grant).value);
  }

  lemma RejectKeeps(s: Session, f: FlightId, r: Reply)
    requires Inv(s) && f in s.flights && s.flights[f].stage.Travelling?
    ensures Inv(SetStage(s, f, Replied(r)))
  {
    GroundKeeps(s, f, Replied(r));
  }

  lemma ExecuteEventKeeps(s: Session, f: FlightId, http: nat)
    requires Inv(s) && f in s.flights && s.flights[f].stage.Executing? && OperationLedger.IsHttp(http)
    ensures Inv(SetStage(s, f, Executed(http)).(effects := s.effects + multiset{s.flights[f].op}))
  {
    hide Inv;
    ExecuteKeeps(s, SetStage(s, f, Executed(http)).(effects := s.effects + multiset{s.flights[f].op}), f, http);
  }

  lemma CheckpointStepKeeps(s: Session, now: int, e: Event)
    requires Inv(s) && FreshFor(s, e) && Step(s, now, e) != s
    requires e.Beat? || e.WTop? || e.WSave? || e.WQuery? || e.Crash?
    ensures Inv(Step(s, now, e))
  {
    hide Inv;
    match e
    case Beat(w) => BeatKeeps(s, now, w);
    case WTop(w, g, op) => TopKeeps(s, now, w, g, op);
    case WSave(w, op) => SaveKeeps(s, now, w, op);
    case WQuery(w, a) => QueryKeeps(s, w, a);
    case Crash(w) => CrashKeeps(s, w);
  }

  lemma RemoteStepKeeps(s: Session, now: int, e: Event)
    requires Inv(s) && Step(s, now, e) != s
    requires e.WValidate? || e.WRead? || e.WCatalog? || e.WAsk? || e.WModel?
    ensures Inv(Step(s, now, e))
  {
    hide Inv;
    match e
    case WValidate(w, a) => ValidateKeeps(s, w, a);
    case WRead(w, a) => ReadKeeps(s, w, a);
    case WCatalog(w, a) => CatalogKeeps(s, w, a);
    case WAsk(w) => AskKeeps(s, w);
    case WModel(w, a) => ModelKeeps(s, w, a);
  }

  lemma WriteStepKeeps(s: Session, now: int, e: Event)
    requires Inv(s) && Step(s, now, e) != s
    requires e.WLocal? || e.WSend? || e.WReply? || e.WInterrupted?
    ensures Inv(Step(s, now, e))
  {
    hide Inv;
    match e
    case WLocal(w, r) => WriteKeeps(s, w, r);
    case WSend(w, f) => SendKeeps(s, w, f);
    case WReply(w) => ReplyKeeps(s, w);
    case WInterrupted(w) => WriteKeeps(s, w, Unclear);
  }

  lemma UserStepKeeps(s: Session, now: int, e: Event)
    requires Inv(s) && Step(s, now, e) != s
    requires e.Cancel? || e.Confirm? || e.Resume?
    ensures Inv(Step(s, now, e))
  {
    hide Inv;
    match e
    case Cancel => CancelKeeps(s);
    case Confirm(op, receipt, grant, args) => ConfirmKeeps(s, op, receipt, grant, args);
    case Resume(grant) => ResumeKeeps(s, grant);
  }

  lemma RequestStepKeeps(s: Session, now: int, e: Event)
    requires Inv(s) && Step(s, now, e) != s
    requires e.FReject? || e.FBegin? || e.FExecute?
    ensures Inv(Step(s, now, e))
  {
    hide Inv;
    match e
    case FReject(f, r) => RejectKeeps(s, f, r);
    case FBegin(f, found) => BeginKeeps(s, f, found);
    case FExecute(f, http) => ExecuteEventKeeps(s, f, http);
  }

  lemma OutcomeStepKeeps(s: Session, now: int, e: Event)
    requires Inv(s) && Step(s, now, e) != s
    requires e.FFinish? || e.FLose?
    ensures Inv(Step(s, now, e))
  {
    hide Inv;
    match e
    case FFinish(f, stored, response) => FinishKeeps(s, f, stored, response);
    case FLose(f) => GroundKeeps(s, f, Lost);
  }

  lemma StepKeeps(s: Session, now: int, e: Event)
    requires Inv(s) && FreshFor(s, e)
    ensures Inv(Step(s, now, e))
  {
    hide Inv;
    if Step(s, now, e) != s {
      if e.Beat? || e.WTop? || e.WSave? || e.WQuery? || e.Crash? {
        CheckpointStepKeeps(s, now, e);
      } else if e.WValidate? || e.WRead? || e.WCatalog? || e.WAsk? || e.WModel? {
        RemoteStepKeeps(s, now, e);
      } else if e.WLocal? || e.WSend? || e.WReply? || e.WInterrupted? {
        WriteStepKeeps(s, now, e);
      } else if e.Cancel? || e.Confirm? || e.Resume? {
        UserStepKeeps(s, now, e);
      } else if e.FReject? || e.FBegin? || e.FExecute? {
        RequestStepKeeps(s, now, e);
      } else if e.FFinish? || e.FLose? {
        OutcomeStepKeeps(s, now, e);
      } else {
        PlatformRecoverKeeps(s, e.op, e.http, e.response);
      }
    }
  }
}
