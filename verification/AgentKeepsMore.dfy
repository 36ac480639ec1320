/** The remaining transactions: user actions, claims, sends and the platform side. */
module AgentKeepsMore {
  import opened Options
  import opened AgentTypes
  import opened RunnerMachine
  import opened AgentSession
  import opened AgentInvariant
  import opened AgentKeeps
  import opened RunRow
  import OperationLedger

  /*** Confirmation ***/

  ghost predicate Confirms(s: Session, t: Session, op: OpId) {
    && s.row.status.WaitingConfirmation? && !s.row.cancel
    && Unconfirmed(s.row.state) && s.row.state.proposal.value.op == op
    && t.row.status.Queued? && t.row.grant.Some? && !t.row.cancel && t.row.epoch == s.row.epoch && t.row.lease == s.row.lease
    && t.row.state.(receipt := None)
       == s.row.state.(receipt := None, proposal := Some(s.row.state.proposal.value.(confirmed := true)))
    && t.confirms == s.confirms + multiset{op}
    && t == s.(row := t.row, confirms := t.confirms)
  }

  lemma ConfirmWorkers(s: Session, t: Session, op: OpId)
    requires Fenced(s) && MemoryCoupled(s) && Confirms(s, t, op)
    ensures Fenced(t) && MemoryCoupled(t)
  {
    assert forall w :: w in t.workers ==> !Current(s, w);
  }

  lemma ConfirmModel(s: Session, t: Session, op: OpId)
    requires ModelOnce(s) && Confirms(s, t, op)
    ensures ModelOnce(t)
  {
    assert forall v :: At(t, v, Asking) <==> At(s, v, Asking);
  }

  lemma ConfirmNames(s: Session, t: Session, op: OpId)
    requires Names(s) && Confirms(s, t, op)
    ensures Names(t)
  {}

  lemma ConfirmWriters(s: Session, t: Session, op: OpId)
    requires Writers(s) && Executions(s) && Confirms(s, t, op)
    ensures Writers(t) && Executions(t)
  {
    assert forall v :: Writing(t, v) <==> Writing(s, v);
    assert forall o :: Dispatched(t.row.state, o) <==> Dispatched(s.row.state, o);
    assert forall o :: Mentioned(t.row.state, o) <==> Mentioned(s.row.state, o);
  }

  lemma ConfirmFlights(s: Session, t: Session, op: OpId)
    requires Flights(s) && Confirms(s, t, op)
    ensures Flights(t)
  {
    assert forall v :: At(t, v, Invoking) <==> At(s, v, Invoking);
    assert forall v :: Writing(t, v) <==> Writing(s, v);
    assert forall f, o :: LiveFlight(t, f, o) <==> LiveFlight(s, f, o);
    assert forall o :: Dispatched(t.row.state, o) <==> Dispatched(s.row.state, o);
  }

  lemma ConfirmRecords(s: Session, t: Session, op: OpId)
    requires Fenced(s) && CleanStarts(s) && Records(s) && Confirms(s, t, op)
    ensures CleanStarts(t) && Records(t)
  {
    assert forall w :: w in t.workers ==> !Current(s, w);
    assert forall v :: At(t, v, Invoking) <==> At(s, v, Invoking);
    assert forall v :: Writing(t, v) <==> Writing(s, v);
    assert forall f, o :: LiveFlight(t, f, o) <==> LiveFlight(s, f, o);
    assert forall f :: Answered(t, f) <==> Answered(s, f);
    assert forall o :: Clean(t, o) <==> Clean(s, o);
    assert forall o :: Settled(s, o) ==> Settled(t, o);
  }

  lemma ConfirmTokens(s: Session, t: Session, op: OpId)
    requires Fenced(s) && MemoryCoupled(s) && Tokens(s) && Confirms(s, t, op)
    ensures Tokens(t)
  {
    assert forall w :: w in t.workers ==> !Current(s, w);
    assert forall v :: At(t, v, Invoking) <==> At(s, v, Invoking);
    assert forall o :: s.confirms[o] <= t.confirms[o];
  }

  lemma ConfirmKeeps(s: Session, op: OpId, receipt: Token, grant: Token, args: Args)
    requires Inv(s)
    ensures Inv(DoConfirm(s, op, receipt, grant, args))
  {
    hide Fenced, MemoryCoupled, ModelOnce, Names, Writers, Flights, Executions, CleanStarts, Records, Tokens;
    var t := DoConfirm(s, op, receipt, grant, args);
    if t != s {
      assert Confirms(s, t, op);
      ConfirmWorkers(s, t, op);
      ConfirmModel(s, t, op);
      ConfirmNames(s, t, op);
      ConfirmWriters(s, t, op);
      ConfirmFlights(s, t, op);
      ConfirmRecords(s, t, op);
      ConfirmTokens(s, t, op);
    }
  }

  /*** Claims ***/

  ghost predicate Claims(s: Session, t: Session, id: WorkerId) {
    && s.row.status.Queued? && id !in s.workers
    && t.row == s.row.(status := Running, epoch := s.row.epoch + 1, lease := t.row.lease) && t.row.lease.Some?
    && t == s.(row := t.row, workers := s.workers[id := Worker(t.row.epoch, s.row.state, Top)],
               granted := s.granted + [t.row.epoch])
  }

  lemma ClaimFenced(s: Session, t: Session, id: WorkerId)
    requires Fenced(s) && Claims(s, t, id)
    ensures Fenced(t)
  {
    assert forall i :: 0 <= i < |s.granted| ==> t.granted[i] == s.granted[i];
    assert t.granted[|s.granted|] == t.row.epoch;
  }

  /** A new claim is the only current worker. */
  lemma ClaimOthers(s: Session, t: Session, id: WorkerId)
    requires Fenced(s) && Claims(s, t, id)
    ensures forall v :: v in t.workers && v != id ==> v in s.workers && t.workers[v] == s.workers[v] && !Current(t, v)
    ensures forall v :: At(t, v, Invoking) <==> At(s, v, Invoking)
    ensures forall v :: At(t, v, Asking) <==> At(s, v, Asking)
    ensures forall v :: Writing(t, v) <==> Writing(s, v)
    ensures forall f, o :: LiveFlight(t, f, o) <==> LiveFlight(s, f, o)
  {}

  lemma ClaimWorkers(s: Session, t: Session, id: WorkerId)
    requires Fenced(s) && MemoryCoupled(s) && ModelOnce(s) && Claims(s, t, id)
    ensures MemoryCoupled(t) && ModelOnce(t)
  {
    ClaimOthers(s, t, id);
  }

  lemma ClaimNames(s: Session, t: Session, id: WorkerId)
    requires Fenced(s) && Names(s) && Claims(s, t, id)
    ensures Names(t)
  {
    ClaimOthers(s, t, id);
  }

  lemma ClaimWriters(s: Session, t: Session, id: WorkerId)
    requires Fenced(s) && Writers(s) && Claims(s, t, id)
    ensures Writers(t)
  {
    ClaimOthers(s, t, id);
  }

  lemma ClaimFlights(s: Session, t: Session, id: WorkerId)
    requires Fenced(s) && Flights(s) && Claims(s, t, id)
    ensures Flights(t)
  {
    ClaimOthers(s, t, id);
  }

  lemma ClaimStarts(s: Session, t: Session, id: WorkerId)
    requires Fenced(s) && CleanStarts(s) && Claims(s, t, id)
    ensures CleanStarts(t)
  {
    ClaimOthers(s, t, id);
    assert forall f :: Answered(t, f) <==> Answered(s, f);
    assert forall o :: Clean(t, o) <==> Clean(s, o);
  }

  lemma ClaimRecords(s: Session, t: Session, id: WorkerId)
    requires Fenced(s) && Records(s) && Claims(s, t, id)
    ensures Records(t)
  {
    ClaimOthers(s, t, id);
    assert forall f :: Answered(t, f) <==> Answered(s, f);
    assert forall o :: Clean(t, o) <==> Clean(s, o);
    assert forall o :: Settled(s, o) ==> Settled(t, o);
  }

  lemma ClaimTokens(s: Session, t: Session, id: WorkerId)
    requires Fenced(s) && MemoryCoupled(s) && Tokens(s) && Claims(s, t, id)
    ensures Tokens(t)
  {
    ClaimOthers(s, t, id);
  }

  lemma ClaimsKeep(s: Session, t: Session, id: WorkerId)
    requires Inv(s) && Claims(s, t, id)
    ensures Inv(t)
  {
    hide Fenced, MemoryCoupled, ModelOnce, Names, Writers, Flights, Executions, CleanStarts, Records, Tokens;
    ClaimFenced(s, t, id);
    ClaimWorkers(s, t, id);
    ClaimNames(s, t, id);
    ClaimWriters(s, t, id);
    ClaimFlights(s, t, id);
    ClaimStarts(s, t, id);
    ClaimRecords(s, t, id);
    FrameExecutions(s, t);
    ClaimTokens(s, t, id);
  }

  lemma ClaimIsClaim(s: Session, now: int, id: WorkerId)
    requires s.row.status.Queued? && !s.row.cancel && id !in s.workers
    ensures Claims(s, AgentSession.Claim(s, now, id), id)
  {}

  lemma ClaimKeeps(s: Session, now: int, id: WorkerId)
    requires Inv(s)
    ensures Inv(AgentSession.Claim(s, now, id))
  {
    hide Inv;
    if s.row.status.Queued? && !s.row.cancel && id !in s.workers {
      ClaimIsClaim(s, now, id);
      ClaimsKeep(s, AgentSession.Claim(s, now, id), id);
    }
  }

  lemma RecoverAround(s: Session)
    requires Fenced(s) && RowOk(s.row) && s.row.status.Running?
    ensures Around(s, RunRow.Recover(s.row))
  {}

  lemma RecoverKeeps(s: Session, now: int)
    requires Inv(s)
    ensures Inv(AgentSession.Recover(s, now))
  {
    if Expired(s.row, now) {
      RecoverAround(s);
      AroundKeeps(s, RunRow.Recover(s.row));
    }
  }

  /*** Sending the model request ***/

  lemma AskFenced(s: Session, id: WorkerId)
    requires Fenced(s) && At(s, id, Asking)
    ensures Fenced(DoAsk(s, id))
  {
    var t := DoAsk(s, id);
    assert forall v :: v in t.workers <==> v in s.workers;
    assert forall v :: v in t.workers ==> t.workers[v].epoch == s.workers[v].epoch;
  }

  lemma AskCoupled(s: Session, id: WorkerId)
    requires MemoryCoupled(s) && At(s, id, Asking)
    ensures MemoryCoupled(DoAsk(s, id))
  {}

  lemma AskModel(s: Session, id: WorkerId)
    requires MemoryCoupled(s) && ModelOnce(s) && At(s, id, Asking)
    ensures ModelOnce(DoAsk(s, id))
  {
    var t := DoAsk(s, id);
    assert forall v :: At(t, v, Asking) ==> At(s, v, Asking) && v != id;
  }

  lemma AskNames(s: Session, id: WorkerId)
    requires Names(s) && At(s, id, Asking)
    ensures Names(DoAsk(s, id))
  {}

  lemma AskWriters(s: Session, id: WorkerId)
    requires Writers(s) && At(s, id, Asking)
    ensures Writers(DoAsk(s, id))
  {
    var t := DoAsk(s, id);
    assert forall v :: Writing(t, v) <==> Writing(s, v) && v != id;
  }

  lemma AskFlights(s: Session, id: WorkerId)
    requires Flights(s) && At(s, id, Asking)
    ensures Flights(DoAsk(s, id))
  {
    var t := DoAsk(s, id);
    assert forall v :: At(t, v, Invoking) <==> At(s, v, Invoking) && v != id;
    assert forall v :: Writing(t, v) <==> Writing(s, v) && v != id;
    assert forall f, o :: LiveFlight(t, f, o) <==> LiveFlight(s, f, o);
  }

  lemma AskRecords(s: Session, id: WorkerId)
    requires CleanStarts(s) && Records(s) && Tokens(s) && At(s, id, Asking)
    ensures CleanStarts(DoAsk(s, id)) && Records(DoAsk(s, id)) && Tokens(DoAsk(s, id))
  {
    var t := DoAsk(s, id);
    assert forall v :: At(t, v, Invoking) <==> At(s, v, Invoking);
    assert forall v :: Writing(t, v) <==> Writing(s, v);
    assert forall f, o :: LiveFlight(t, f, o) <==> LiveFlight(s, f, o);
    assert forall f :: Answered(t, f) <==> Answered(s, f);
    assert forall o :: Clean(t, o) <==> Clean(s, o);
    assert forall o :: Settled(s, o) ==> Settled(t, o);
    assert forall o :: Withdrawn(s, o) ==> Withdrawn(t, o);
  }

  lemma AskKeeps(s: Session, id: WorkerId)
    requires Inv(s) && At(s, id, Asking)
    ensures Inv(DoAsk(s, id))
  {
    hide Fenced, MemoryCoupled, ModelOnce, Names, Writers, Flights, Executions, CleanStarts, Records, Tokens;
    AskFenced(s, id);
    AskCoupled(s, id);
    AskModel(s, id);
    AskNames(s, id);
    AskWriters(s, id);
    AskFlights(s, id);
    FrameExecutions(s, DoAsk(s, id));
    AskRecords(s, id);
  }

  /*** Sending a write ***/

  ghost predicate Sends(s: Session, id: WorkerId, f: FlightId) {
    At(s, id, Invoking) && Has(s, id) && f !in s.flights
  }

  lemma SendFenced(s: Session, id: WorkerId, f: FlightId)
    requires Fenced(s) && Sends(s, id, f)
    ensures Fenced(DoSend(s, id, f))
  {
    var t := DoSend(s, id, f);
    assert forall v :: v in t.workers <==> v in s.workers;
    assert forall v :: v in t.workers ==> t.workers[v].epoch == s.workers[v].epoch;
  }

  lemma SendCoupled(s: Session, id: WorkerId, f: FlightId)
    requires MemoryCoupled(s) && Sends(s, id, f)
    ensures MemoryCoupled(DoSend(s, id, f))
  {}

  lemma SendModel(s: Session, id: WorkerId, f: FlightId)
    requires ModelOnce(s) && Sends(s, id, f)
    ensures ModelOnce(DoSend(s, id, f))
  {
    var t := DoSend(s, id, f);
    assert forall v :: At(t, v, Asking) <==> At(s, v, Asking) && v != id;
  }

  lemma SendNames(s: Session, id: WorkerId, f: FlightId)
    requires Names(s) && Sends(s, id, f)
    requires Known(s, s.workers[id].mem.proposal.value.op, s.workers[id].mem.proposal.value.Work())
    ensures Names(DoSend(s, id, f))
  {}

  lemma SendWriters(s: Session, id: WorkerId, f: FlightId)
    requires Writers(s) && Sends(s, id, f)
    ensures Writers(DoSend(s, id, f))
  {
    var t := DoSend(s, id, f);
    assert forall v :: Writing(t, v) <==> Writing(s, v);
  }

  lemma SendIsKnown(s: Session, id: WorkerId, f: FlightId)
    requires Writers(s) && Sends(s, id, f)
    ensures Known(s, s.workers[id].mem.proposal.value.op, s.workers[id].mem.proposal.value.Work())
  {
    assert Writing(s, id);
  }

  lemma SendOthers(s: Session, id: WorkerId, f: FlightId)
    requires Sends(s, id, f)
    ensures var t := DoSend(s, id, f);
      && (forall v :: At(t, v, Invoking) <==> At(s, v, Invoking) && v != id)
      && (forall v :: Writing(t, v) <==> Writing(s, v))
      && (forall v :: v in t.workers ==> v in s.workers && t.workers[v].mem == s.workers[v].mem)
      && (forall v :: v in t.workers && v != id ==> t.workers[v] == s.workers[v])
      && (forall g :: g in t.flights && g != f ==> g in s.flights && t.flights[g] == s.flights[g])
      && (forall g, o :: LiveFlight(t, g, o) <==> LiveFlight(s, g, o) || (g == f && o == s.workers[id].mem.proposal.value.op))
      && (forall g :: Answered(t, g) <==> Answered(s, g))
  {}

  lemma SendFlights(s: Session, id: WorkerId, f: FlightId)
    requires Writers(s) && Flights(s) && Sends(s, id, f)
    ensures Flights(DoSend(s, id, f))
  {
    var t := DoSend(s, id, f);
    SendOthers(s, id, f);
    assert Writing(s, id);
    forall g | g in s.flights && s.flights[g].stage.Live()
      ensures s.flights[g].op != s.workers[id].mem.proposal.value.op
    {
      assert !LiveFlight(s, g, s.workers[id].mem.proposal.value.op);
    }
  }

  lemma SendStarts(s: Session, id: WorkerId, f: FlightId)
    requires CleanStarts(s) && Sends(s, id, f)
    ensures CleanStarts(DoSend(s, id, f))
  {
    var t := DoSend(s, id, f);
    SendOthers(s, id, f);
    assert forall o :: Clean(t, o) <==> Clean(s, o);
  }

  lemma SendRecords(s: Session, id: WorkerId, f: FlightId)
    requires Records(s) && Sends(s, id, f)
    ensures Records(DoSend(s, id, f))
  {
    var t := DoSend(s, id, f);
    SendOthers(s, id, f);
    assert Writing(s, id);
    forall o | Settled(s, o)
      ensures Settled(t, o)
    {
      assert DefiniteOp(s, o) <==> DefiniteOp(t, o);
      assert !DefiniteOp(s, o) ==> o != s.workers[id].mem.proposal.value.op;
    }
    assert forall o :: Withdrawn(s, o) ==> Withdrawn(t, o);
  }

  lemma SendTokens(s: Session, id: WorkerId, f: FlightId)
    requires Writers(s) && MemoryCoupled(s) && Tokens(s) && Sends(s, id, f)
    ensures Tokens(DoSend(s, id, f))
  {
    var t := DoSend(s, id, f);
    SendOthers(s, id, f);
    assert Writing(s, id);
    assert forall v :: At(t, v, Invoking) ==> Writing(s, v);
  }

  lemma SendKeeps(s: Session, id: WorkerId, f: FlightId)
    requires Inv(s) && Sends(s, id, f)
    ensures Inv(DoSend(s, id, f))
  {
    hide Fenced, MemoryCoupled, ModelOnce, Names, Writers, Flights, Executions, CleanStarts, Records, Tokens;
    SendFenced(s, id, f);
    SendCoupled(s, id, f);
    SendModel(s, id, f);
    assert Writing(s, id);
    SendIsKnown(s, id, f);
    SendNames(s, id, f);
    SendWriters(s, id, f);
    SendFlights(s, id, f);
    FrameSendExecutions(s, id, f);
    SendStarts(s, id, f);
    SendRecords(s, id, f);
    SendTokens(s, id, f);
  }

  lemma FrameSendExecutions(s: Session, id: WorkerId, f: FlightId)
    requires Executions(s) && Sends(s, id, f)
    ensures Executions(DoSend(s, id, f))
  {
    SendOthers(s, id, f);
  }

  /*** A write request comes to rest ***/

  ghost predicate Grounds(s: Session, f: FlightId, stage: Stage) {
    && f in s.flights && !stage.Live()
    && (stage.Replied? && !stage.reply.Unclear? ==> Clean(s, s.flights[f].op))
  }

  lemma GroundOthers(s: Session, f: FlightId, stage: Stage)
    requires Grounds(s, f, stage)
    ensures var t := SetStage(s, f, stage);
      && (forall v :: At(t, v, Invoking) <==> At(s, v, Invoking))
      && (forall v :: At(t, v, Asking) <==> At(s, v, Asking))
      && (forall v :: Writing(t, v) <==> Writing(s, v))
      && (forall g, o :: LiveFlight(t, g, o) ==> LiveFlight(s, g, o))
      && (forall g :: g != f ==> (Answered(t, g) <==> Answered(s, g)))
      && (forall o :: Clean(t, o) <==> Clean(s, o))
  {}

  lemma GroundFlights(s: Session, f: FlightId, stage: Stage)
    requires Flights(s) && Grounds(s, f, stage)
    ensures Flights(SetStage(s, f, stage))
  {
    GroundOthers(s, f, stage);
  }

  lemma GroundStarts(s: Session, f: FlightId, stage: Stage)
    requires Flights(s) && CleanStarts(s) && Grounds(s, f, stage)
    ensures CleanStarts(SetStage(s, f, stage))
  {
    GroundOthers(s, f, stage);
  }

  lemma GroundExecutions(s: Session, f: FlightId, stage: Stage)
    requires Executions(s) && Grounds(s, f, stage)
    ensures Executions(SetStage(s, f, stage))
  {}

  lemma GroundRecords(s: Session, f: FlightId, stage: Stage)
    requires Records(s) && Grounds(s, f, stage)
    ensures Records(SetStage(s, f, stage))
  {
    var t := SetStage(s, f, stage);
    GroundOthers(s, f, stage);
    assert forall o :: Settled(s, o) ==> Settled(t, o);
    assert forall o :: Withdrawn(s, o) ==> Withdrawn(t, o);
  }

  lemma GroundKeeps(s: Session, f: FlightId, stage: Stage)
    requires Inv(s) && Grounds(s, f, stage)
    ensures Inv(SetStage(s, f, stage))
  {
    hide Fenced, MemoryCoupled, ModelOnce, Names, Writers, Flights, Executions, CleanStarts, Records, Tokens;
    var t := SetStage(s, f, stage);
    FrameFenced(s, t);
    FrameCoupled(s, t);
    FrameModel(s, t);
    GroundNames(s, f, stage);
    FrameWriters(s, t);
    GroundFlights(s, f, stage);
    GroundStarts(s, f, stage);
    GroundExecutions(s, f, stage);
    GroundRecords(s, f, stage);
    FrameTokens(s, t);
  }

  lemma GroundNames(s: Session, f: FlightId, stage: Stage)
    requires Names(s) && f in s.flights
    ensures Names(SetStage(s, f, stage))
  {}

  /*** The platform's record changes ***/

  /** An executed operation gets a result that a final one never loses. */
  ghost predicate GivesResult(s: Session, op: OpId, o: OperationLedger.Operation) {
    && op in s.ledger && op in s.effects && !OperationLedger.Definite(s.ledger[op])
    && o.order == s.ledger[op].order && o.phase.Completed?
  }

  lemma RecordKeeps(s: Session, op: OpId, o: OperationLedger.Operation)
    requires Inv(s) && GivesResult(s, op, o)
    ensures Inv(s.(ledger := s.ledger[op := o]))
  {
    hide Fenced, MemoryCoupled, ModelOnce, Names, Writers, Flights, Executions, CleanStarts, Records, Tokens;
    var t := s.(ledger := s.ledger[op := o]);
    FrameFenced(s, t);
    FrameCoupled(s, t);
    FrameModel(s, t);
    RecordNames(s, op, o);
    FrameWriters(s, t);
    FrameFlights(s, t);
    RecordStarts(s, op, o);
    RecordRecords(s, op, o);
    FrameTokens(s, t);
  }

  lemma RecordNames(s: Session, op: OpId, o: OperationLedger.Operation)
    requires Names(s) && Executions(s) && GivesResult(s, op, o)
    ensures Names(s.(ledger := s.ledger[op := o])) && Executions(s.(ledger := s.ledger[op := o]))
  {}

  lemma RecordStarts(s: Session, op: OpId, o: OperationLedger.Operation)
    requires CleanStarts(s) && GivesResult(s, op, o)
    ensures CleanStarts(s.(ledger := s.ledger[op := o]))
  {
    var t := s.(ledger := s.ledger[op := o]);
    assert forall v :: At(t, v, Invoking) <==> At(s, v, Invoking);
    assert forall v :: Writing(t, v) <==> Writing(s, v);
    assert forall f :: Answered(t, f) <==> Answered(s, f);
    assert forall x :: Clean(s, x) ==> Clean(t, x);
  }

  lemma RecordRecords(s: Session, op: OpId, o: OperationLedger.Operation)
    requires Records(s) && GivesResult(s, op, o)
    ensures Records(s.(ledger := s.ledger[op := o]))
  {
    var t := s.(ledger := s.ledger[op := o]);
    assert forall v :: At(t, v, Invoking) <==> At(s, v, Invoking);
    assert forall v :: Writing(t, v) <==> Writing(s, v);
    assert forall f, x :: LiveFlight(t, f, x) <==> LiveFlight(s, f, x);
    assert forall x :: Clean(s, x) ==> Clean(t, x);
    assert forall x :: DefiniteOp(s, x) ==> DefiniteOp(t, x);
    assert forall x :: Settled(s, x) ==> Settled(t, x);
    assert forall x :: Withdrawn(s, x) ==> Withdrawn(t, x);
  }
}
