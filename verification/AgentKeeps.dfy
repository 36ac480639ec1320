/** The invariant part by part: what each part depends on, and why a worker's moves and checkpoints keep it. */
module AgentKeeps {
  import opened Options
  import opened AgentTypes
  import opened RunnerMachine
  import opened AgentSession
  import opened AgentInvariant
  import opened RunRow
  import OperationLedger

  /*** Each part of the invariant depends on a few fields only ***/

  lemma FrameFenced(s: Session, t: Session)
    requires Fenced(s) && t.row == s.row && t.workers == s.workers && t.granted == s.granted
    ensures Fenced(t)
  {}

  lemma FrameCoupled(s: Session, t: Session)
    requires MemoryCoupled(s) && t.row == s.row && t.workers == s.workers
    ensures MemoryCoupled(t)
  {}

  lemma FrameModel(s: Session, t: Session)
    requires ModelOnce(s) && t.row == s.row && t.workers == s.workers && t.asked == s.asked
    ensures ModelOnce(t)
  {
    assert forall v :: At(t, v, Asking) <==> At(s, v, Asking);
  }

  lemma FrameWriters(s: Session, t: Session)
    requires Writers(s) && t.row == s.row && t.workers == s.workers && t.issued == s.issued
    ensures Writers(t)
  {
    assert forall v :: Writing(t, v) <==> Writing(s, v);
  }

  lemma FrameFlights(s: Session, t: Session)
    requires Flights(s) && t.row.state.(receipt := None) == s.row.state.(receipt := None)
    requires t.workers == s.workers && t.flights == s.flights
    ensures Flights(t)
  {
    assert forall v :: At(t, v, Invoking) <==> At(s, v, Invoking);
    assert forall v :: Writing(t, v) <==> Writing(s, v);
    assert forall f, o :: LiveFlight(t, f, o) <==> LiveFlight(s, f, o);
    assert forall o :: Dispatched(t.row.state, o) <==> Dispatched(s.row.state, o);
  }

  lemma FrameExecutions(s: Session, t: Session)
    requires Executions(s) && t.row.state.(receipt := None) == s.row.state.(receipt := None)
    requires t.flights == s.flights && t.ledger == s.ledger && t.effects == s.effects
    ensures Executions(t)
  {
    assert forall o :: Mentioned(t.row.state, o) <==> Mentioned(s.row.state, o);
  }

  lemma FrameStarts(s: Session, t: Session)
    requires CleanStarts(s) && t.row.state.(receipt := None) == s.row.state.(receipt := None)
    requires t.workers == s.workers && t.flights == s.flights && t.ledger == s.ledger
    ensures CleanStarts(t)
  {
    assert forall v :: At(t, v, Invoking) <==> At(s, v, Invoking);
    assert forall v :: Writing(t, v) <==> Writing(s, v);
    assert forall f :: Answered(t, f) <==> Answered(s, f);
    assert forall o :: Clean(t, o) <==> Clean(s, o);
  }

  lemma FrameRecords(s: Session, t: Session)
    requires Records(s) && t.row == s.row && t.workers == s.workers && t.flights == s.flights && t.ledger == s.ledger
    ensures Records(t)
  {
    assert forall v :: At(t, v, Invoking) <==> At(s, v, Invoking);
    assert forall v :: Writing(t, v) <==> Writing(s, v);
    assert forall f, o :: LiveFlight(t, f, o) <==> LiveFlight(s, f, o);
    assert forall o :: Settled(s, o) ==> Settled(t, o);
    assert forall o :: Withdrawn(s, o) ==> Withdrawn(t, o);
    assert forall f :: Answered(t, f) <==> Answered(s, f);
  }

  lemma FrameTokens(s: Session, t: Session)
    requires Tokens(s) && t.row == s.row && t.workers == s.workers
    requires t.sent == s.sent && t.confirms == s.confirms && t.denied == s.denied
    ensures Tokens(t)
  {
    assert forall v :: At(t, v, Invoking) <==> At(s, v, Invoking);
  }

  /*** A worker moves on without touching the row ***/

  /** What a worker's next position must bring along. */
  ghost predicate Quiet(s: Session, id: WorkerId, w: Worker) {
    && id in s.workers && w.epoch == s.workers[id].epoch
    && !w.pc.Asking? && !w.pc.Invoking? && !w.pc.AwaitWrite?
    && (Current(s, id) && !w.pc.Gone? ==> Carries(s, id, w))
  }

  ghost predicate Carries(s: Session, id: WorkerId, w: Worker) {
    var d := s.row.state;
    && Coupled(w, d)
    && (w.mem.proposal.Some? ==> Known(s, w.mem.proposal.value.op, w.mem.proposal.value.Work()))
    && (w.pc.Saving? ==>
          && (Settles(d, w.mem) ==> Settled(Move(s, id, w), d.proposal.value.op))
          && (Withdraws(d, w.mem) ==> Withdrawn(Move(s, id, w), d.proposal.value.op))
          && (Unconfirmed(w.mem) ==> s.confirms[w.mem.proposal.value.op] <= s.denied[w.mem.proposal.value.op]))
  }

  lemma MoveFenced(s: Session, id: WorkerId, w: Worker)
    requires Fenced(s) && Quiet(s, id, w)
    ensures Fenced(Move(s, id, w))
  {
    var t := Move(s, id, w);
    assert forall v :: v in t.workers ==> v in s.workers && t.workers[v].epoch == s.workers[v].epoch;
  }

  lemma MoveCoupled(s: Session, id: WorkerId, w: Worker)
    requires MemoryCoupled(s) && Quiet(s, id, w)
    ensures MemoryCoupled(Move(s, id, w))
  {}

  lemma MoveModel(s: Session, id: WorkerId, w: Worker)
    requires ModelOnce(s) && Quiet(s, id, w)
    ensures ModelOnce(Move(s, id, w))
  {
    var t := Move(s, id, w);
    assert forall v :: At(t, v, Asking) ==> At(s, v, Asking) && t.workers[v] == s.workers[v];
  }

  lemma MoveNames(s: Session, id: WorkerId, w: Worker)
    requires Names(s) && Quiet(s, id, w)
    ensures Names(Move(s, id, w))
  {}

  lemma MoveWriters(s: Session, id: WorkerId, w: Worker)
    requires Writers(s) && Quiet(s, id, w)
    ensures Writers(Move(s, id, w))
  {
    var t := Move(s, id, w);
    assert forall v :: Writing(t, v) ==> Writing(s, v) && t.workers[v] == s.workers[v];
  }

  lemma MoveFlights(s: Session, id: WorkerId, w: Worker)
    requires Flights(s) && Quiet(s, id, w)
    ensures Flights(Move(s, id, w))
  {
    var t := Move(s, id, w);
    assert forall v :: At(t, v, Invoking) ==> At(s, v, Invoking) && t.workers[v] == s.workers[v];
    assert forall v :: Writing(t, v) ==> Writing(s, v) && t.workers[v] == s.workers[v];
    assert forall f, o :: LiveFlight(t, f, o) <==> LiveFlight(s, f, o);
  }

  lemma MoveTokens(s: Session, id: WorkerId, w: Worker)
    requires Tokens(s) && Quiet(s, id, w)
    ensures Tokens(Move(s, id, w))
  {
    var t := Move(s, id, w);
    assert forall v :: At(t, v, Invoking) ==> At(s, v, Invoking) && t.workers[v] == s.workers[v];
  }

  lemma MoveStarts(s: Session, id: WorkerId, w: Worker)
    requires CleanStarts(s) && Quiet(s, id, w)
    ensures CleanStarts(Move(s, id, w))
  {
    var t := Move(s, id, w);
    assert forall v :: At(t, v, Invoking) ==> At(s, v, Invoking) && t.workers[v] == s.workers[v];
    assert forall v :: Writing(t, v) ==> Writing(s, v) && t.workers[v] == s.workers[v];
    assert forall f :: Answered(t, f) <==> Answered(s, f);
    assert forall o :: Clean(t, o) <==> Clean(s, o);
  }

  lemma MoveRecords(s: Session, id: WorkerId, w: Worker)
    requires Records(s) && Quiet(s, id, w)
    ensures Records(Move(s, id, w))
  {
    var t := Move(s, id, w);
    assert forall v :: At(t, v, Invoking) ==> At(s, v, Invoking) && t.workers[v] == s.workers[v];
    assert forall v :: Writing(t, v) ==> Writing(s, v) && t.workers[v] == s.workers[v];
    assert forall f, o :: LiveFlight(t, f, o) <==> LiveFlight(s, f, o);
    assert forall o :: Settled(s, o) ==> Settled(t, o);
    assert forall o :: Withdrawn(s, o) ==> Withdrawn(t, o);
  }

  lemma MoveKeeps(s: Session, id: WorkerId, w: Worker)
    requires Inv(s) && Quiet(s, id, w)
    ensures Inv(Move(s, id, w))
  {
    hide Fenced, MemoryCoupled, ModelOnce, Names, Writers, Flights, Executions, CleanStarts, Records, Tokens;
    MoveFenced(s, id, w);
    MoveCoupled(s, id, w);
    MoveModel(s, id, w);
    MoveNames(s, id, w);
    MoveWriters(s, id, w);
    MoveFlights(s, id, w);
    FrameExecutions(s, Move(s, id, w));
    MoveTokens(s, id, w);
    MoveStarts(s, id, w);
    MoveRecords(s, id, w);
  }

  /*** Counters and names grow ***/

  lemma DrawKeeps(s: Session, op: OpId, order: Order)
    requires Inv(s) && op !in s.issued
    ensures Inv(s.(issued := s.issued[op := order]))
  {
    hide Fenced, MemoryCoupled, ModelOnce, Names, Writers, Flights, Executions, CleanStarts, Records, Tokens;
    var t := s.(issued := s.issued[op := order]);
    FrameFenced(s, t);
    FrameCoupled(s, t);
    FrameModel(s, t);
    DrawNames(s, op, order);
    DrawWriters(s, op, order);
    FrameFlights(s, t);
    FrameExecutions(s, t);
    FrameStarts(s, t);
    FrameRecords(s, t);
    FrameTokens(s, t);
  }

  lemma DrawNames(s: Session, op: OpId, order: Order)
    requires Names(s) && op !in s.issued
    ensures Names(s.(issued := s.issued[op := order]))
  {}

  lemma DenyNames(s: Session, op: OpId)
    requires Names(s) && op in s.issued
    ensures Names(s.(denied := s.denied + multiset{op}))
  {}

  lemma DrawWriters(s: Session, op: OpId, order: Order)
    requires Writers(s) && op !in s.issued
    ensures Writers(s.(issued := s.issued[op := order]))
  {
    var t := s.(issued := s.issued[op := order]);
    assert forall v :: Writing(t, v) <==> Writing(s, v);
  }

  lemma DenyKeeps(s: Session, op: OpId)
    requires Inv(s) && op in s.issued
    ensures Inv(s.(denied := s.denied + multiset{op}))
  {
    hide Fenced, MemoryCoupled, ModelOnce, Names, Writers, Flights, Executions, CleanStarts, Records, Tokens;
    var t := s.(denied := s.denied + multiset{op});
    FrameFenced(s, t);
    FrameCoupled(s, t);
    FrameModel(s, t);
    DenyNames(s, op);
    FrameWriters(s, t);
    FrameFlights(s, t);
    FrameExecutions(s, t);
    FrameStarts(s, t);
    FrameRecords(s, t);
    DenyTokens(s, op);
  }

  lemma DenyTokens(s: Session, op: OpId)
    requires Tokens(s)
    ensures Tokens(s.(denied := s.denied + multiset{op}))
  {
    var t := s.(denied := s.denied + multiset{op});
    assert forall v :: At(t, v, Invoking) <==> At(s, v, Invoking);
    assert forall o :: t.denied[o] >= s.denied[o];
  }

  /*** The row changes around the state ***/

  ghost predicate Around(s: Session, r: Row) {
    && RowOk(r)
    && r.state.(receipt := None) == s.row.state.(receipt := None)
    && r.epoch >= s.row.epoch
    && (r.status.Running? ==> s.row.status.Running? && r.epoch == s.row.epoch)
    && (r.epoch == s.row.epoch ==>
          (forall w :: w in s.workers && Current(s, w) ==> r.state == s.row.state && r.status.Running?))
  }

  lemma AroundKeeps(s: Session, r: Row)
    requires Inv(s) && Around(s, r)
    ensures Inv(s.(row := r))
  {
    hide Fenced, MemoryCoupled, ModelOnce, Names, Writers, Flights, Executions, CleanStarts, Records, Tokens;
    var t := s.(row := r);
    AroundWorkers(s, r);
    FrameStarts(s, t);
    AroundRecords(s, r);
    AroundNames(s, r);
    AroundTokens(s, r);
    FrameFlights(s, t);
    FrameExecutions(s, t);
  }

  lemma AroundWorkers(s: Session, r: Row)
    requires Fenced(s) && MemoryCoupled(s) && ModelOnce(s) && Writers(s) && Around(s, r)
    ensures Fenced(s.(row := r)) && MemoryCoupled(s.(row := r)) && ModelOnce(s.(row := r)) && Writers(s.(row := r))
  {
    var t := s.(row := r);
    assert forall w :: w in t.workers && Current(t, w) ==> Current(s, w) && r.state == s.row.state;
    assert forall v :: At(t, v, Asking) <==> At(s, v, Asking);
    assert forall v :: Writing(t, v) <==> Writing(s, v);
    assert forall o :: Dispatched(t.row.state, o) <==> Dispatched(s.row.state, o);
  }

  lemma AroundNames(s: Session, r: Row)
    requires Fenced(s) && Names(s) && Around(s, r)
    ensures Names(s.(row := r))
  {
    var t := s.(row := r);
    assert forall w :: w in t.workers && Current(t, w) ==> Current(s, w) && r.state == s.row.state;
  }

  lemma AroundTokens(s: Session, r: Row)
    requires Fenced(s) && Tokens(s) && Around(s, r)
    ensures Tokens(s.(row := r))
  {
    var t := s.(row := r);
    assert forall w :: w in t.workers && Current(t, w) ==> Current(s, w) && r.state == s.row.state;
    assert forall v :: At(t, v, Invoking) <==> At(s, v, Invoking);
  }

  lemma AroundRecords(s: Session, r: Row)
    requires Fenced(s) && Records(s) && Around(s, r)
    ensures Records(s.(row := r))
  {
    var t := s.(row := r);
    assert forall v :: At(t, v, Invoking) <==> At(s, v, Invoking);
    assert forall v :: Writing(t, v) <==> Writing(s, v);
    assert forall f, o :: LiveFlight(t, f, o) <==> LiveFlight(s, f, o);
    assert forall o :: Settled(s, o) ==> Settled(t, o);
    assert forall o :: Withdrawn(s, o) ==> Withdrawn(t, o);
    assert forall f :: Answered(t, f) <==> Answered(s, f);
    assert forall w :: w in t.workers && Current(t, w) ==> Current(s, w) && r.state == s.row.state;
  }

  /*** An accepted checkpoint ***/

  ghost predicate Stores(s: Session, id: WorkerId, op: OpId) {
    && id in s.workers && Current(s, id) && s.row.status.Running? && s.workers[id].pc.Saving?
    && (s.workers[id].pc.next.ThenPropose? ==>
          && Known(s, op, Order(s.workers[id].pc.next.call.kind, s.workers[id].pc.next.args))
          && op !in s.row.state.completed && s.confirms[op] == 0)
  }

  function Stored(s: Session, id: WorkerId, op: OpId): Session
    requires id in s.workers && s.workers[id].pc.Saving?
  {
    var w := s.workers[id];
    var st := w.pc.status;
    Move(s.(row := RunRow.Save(s.row, w.mem, st)), id, AfterSave(w.(mem := Sealed(w.mem, st)), w.pc.next, true, op))
  }

  /** A checkpoint forgets a dispatched write only by withdrawing it. */
  lemma ShapeDispatch(d: State, m: State, st: Status, next: Next)
    requires SaveShape(d, m, st, next)
    ensures forall o :: Dispatched(d, o) ==> Dispatched(m, o) || (Withdraws(d, m) && o == d.proposal.value.op)
    ensures forall o :: Mentioned(d, o) ==> Mentioned(m, o)
    ensures forall o :: o in d.completed ==> o in m.completed
    ensures forall o :: o in m.completed ==> o in d.completed || (Settles(d, m) && o == d.proposal.value.op)
  {}

  /** Only the worker that saved is current afterwards; the others are as before. */
  lemma StoreOthers(s: Session, id: WorkerId, op: OpId)
    requires Fenced(s) && Stores(s, id, op)
    ensures var t := Stored(s, id, op);
      && (forall v :: v in t.workers && v != id ==> v in s.workers && t.workers[v] == s.workers[v] && !Current(t, v))
      && (forall v :: At(t, v, Invoking) && v != id ==> At(s, v, Invoking))
      && (forall v :: At(t, v, Asking) && v != id ==> At(s, v, Asking))
      && (forall v :: Writing(t, v) && v != id ==> Writing(s, v))
      && (forall f, o :: LiveFlight(t, f, o) <==> LiveFlight(s, f, o))
      && (forall f :: Answered(t, f) <==> Answered(s, f))
      && (id in t.workers ==> t.workers[id] == AfterSave(s.workers[id].(mem := Sealed(s.workers[id].mem, s.workers[id].pc.status)),
                                                      s.workers[id].pc.next, true, op))
      && t.row.state == Sealed(s.workers[id].mem, s.workers[id].pc.status)
      && t == s.(row := t.row, workers := t.workers)
  {}

  /** What is saved keeps the memory's write, and a worker that goes on to write holds exactly what was saved. */
  lemma StoreWriting(s: Session, id: WorkerId, op: OpId)
    requires MemoryCoupled(s) && Stores(s, id, op)
    ensures var t, d, w := Stored(s, id, op), s.row.state, s.workers[id];
      && SaveShape(d, w.mem, w.pc.status, w.pc.next)
      && t.row.state.(receipt := None) == w.mem.(receipt := None)
      && (Writing(t, id) ==> Marks(d, w.mem) && t.workers[id].mem == t.row.state && t.workers[id].pc.Invoking?)
  {
    assert Coupled(s.workers[id], s.row.state);
    hide MemoryCoupled;
  }

  lemma StoreFenced(s: Session, id: WorkerId, op: OpId)
    requires Fenced(s) && MemoryCoupled(s) && Stores(s, id, op)
    ensures Fenced(Stored(s, id, op))
  {}

  lemma StoreCoupled(s: Session, id: WorkerId, op: OpId)
    requires Fenced(s) && MemoryCoupled(s) && Stores(s, id, op)
    ensures MemoryCoupled(Stored(s, id, op))
  {
    var t := Stored(s, id, op);
    assert forall v :: v in t.workers && Current(t, v) ==> v == id;
    assert RowOk(t.row);
  }

  lemma StoreModel(s: Session, id: WorkerId, op: OpId)
    requires Fenced(s) && MemoryCoupled(s) && ModelOnce(s) && Stores(s, id, op)
    ensures ModelOnce(Stored(s, id, op))
  {
    var t := Stored(s, id, op);
    var d, w := s.row.state, s.workers[id];
    assert Coupled(w, d);
    StoreOthers(s, id, op);
    assert At(t, id, Asking) ==> w.pc.next == ThenAsk && !d.modelPending && t.workers[id].mem == w.mem;
    assert forall v :: At(t, v, Asking) && v != id ==> At(s, v, Asking) && Current(s, v);
  }

  lemma StoreNames(s: Session, id: WorkerId, op: OpId)
    requires Fenced(s) && MemoryCoupled(s) && Names(s) && Stores(s, id, op)
    ensures Names(Stored(s, id, op))
  {
    var t := Stored(s, id, op);
    var d, w := s.row.state, s.workers[id];
    StoreOthers(s, id, op);
    StoreWriting(s, id, op);
    ShapeDispatch(d, w.mem, w.pc.status, w.pc.next);
    StoreNamesHere(s, id, op);
    hide Stored, MemoryCoupled, Coupled, SaveShape, Fenced;
  }

  /** The worker that saved still uses known names, the one it has just drawn among them. */
  lemma StoreNamesHere(s: Session, id: WorkerId, op: OpId)
    requires MemoryCoupled(s) && Names(s) && Stores(s, id, op)
    ensures var t := Stored(s, id, op);
      id in t.workers && t.workers[id].mem.proposal.Some? ==>
        Known(s, t.workers[id].mem.proposal.value.op, t.workers[id].mem.proposal.value.Work())
  {
    assert Coupled(s.workers[id], s.row.state);
    hide MemoryCoupled;
  }

  /** Whoever was writing still finds its operation dispatched. */
  lemma StoreDispatched(s: Session, id: WorkerId, v: WorkerId)
    requires MemoryCoupled(s) && Writers(s) && Records(s)
    requires id in s.workers && Current(s, id) && s.workers[id].pc.Saving? && Writing(s, v)
    ensures Dispatched(s.workers[id].mem, s.workers[v].mem.proposal.value.op)
  {
    var d, w := s.row.state, s.workers[id];
    assert Coupled(w, d);
    ShapeDispatch(d, w.mem, w.pc.status, w.pc.next);
    if Withdraws(d, w.mem) { assert Withdrawn(s, d.proposal.value.op); }
  }

  /** A worker about to write is the only one with its operation: everybody else's is already dispatched. */
  lemma StoreWriterAlone(s: Session, m: State, v: WorkerId)
    requires Writers(s) && Marks(s.row.state, m) && MemOk(m) && Writing(s, v)
    ensures m.proposal.Some? && s.workers[v].mem.proposal.Some?
    ensures s.workers[v].mem.proposal.value.op != m.proposal.value.op
  {
    assert Dispatched(s.row.state, s.workers[v].mem.proposal.value.op);
  }

  /** The writers of `t` are those of `s`, and perhaps one more that holds the row's own write. */
  ghost predicate OneMoreWriter(s: Session, t: Session, id: WorkerId)
    requires Writers(s)
  {
    && t.issued == s.issued
    && (forall v :: Writing(t, v) && v != id ==> Writing(s, v) && t.workers[v] == s.workers[v])
    && (forall v :: Writing(s, v) ==> Dispatched(t.row.state, s.workers[v].mem.proposal.value.op))
    && (Writing(t, id) ==>
          && Confirmed(t.workers[id].mem) && Dispatched(t.row.state, t.workers[id].mem.proposal.value.op)
          && Known(s, t.workers[id].mem.proposal.value.op, t.workers[id].mem.proposal.value.Work())
          && forall v :: Writing(s, v) ==> s.workers[v].mem.proposal.value.op != t.workers[id].mem.proposal.value.op)
  }

  lemma OneMoreWriterKeeps(s: Session, t: Session, id: WorkerId)
    requires Writers(s) && OneMoreWriter(s, t, id)
    ensures Writers(t)
  {
    hide Dispatched;
  }

  lemma StoreWriters(s: Session, id: WorkerId, op: OpId)
    requires Fenced(s) && MemoryCoupled(s) && Names(s) && Writers(s) && Records(s) && Stores(s, id, op)
    ensures Writers(Stored(s, id, op))
  {
    var t := Stored(s, id, op);
    StoreOthers(s, id, op);
    StoreWriting(s, id, op);
    StoreNamesHere(s, id, op);
    forall v | Writing(s, v)
      ensures Dispatched(t.row.state, s.workers[v].mem.proposal.value.op)
      ensures Writing(t, id) ==> s.workers[v].mem.proposal.value.op != t.workers[id].mem.proposal.value.op
    {
      StoreDispatched(s, id, v);
      if Writing(t, id) { StoreWriterAlone(s, s.workers[id].mem, v); }
    }
    hide Coupled, MemoryCoupled, Fenced, Stored, SaveShape, Records, Names;
    OneMoreWriterKeeps(s, t, id);
  }

  /** The flights of `t` are those of `s`; one more worker may be about to send, for an operation without live flights. */
  ghost predicate OneMoreSender(s: Session, t: Session, id: WorkerId) {
    && t.flights == s.flights
    && (forall v :: Writing(t, v) && v != id ==> Writing(s, v) && t.workers[v] == s.workers[v])
    && (forall f :: f in s.flights && s.flights[f].stage.Live() ==> Dispatched(t.row.state, s.flights[f].op))
    && (Writing(t, id) ==>
          && t.workers[id].pc.Invoking? && t.workers[id].mem.proposal.Some?
          && forall f :: !LiveFlight(s, f, t.workers[id].mem.proposal.value.op))
  }

  lemma OneMoreSenderKeeps(s: Session, t: Session, id: WorkerId)
    requires Flights(s) && OneMoreSender(s, t, id)
    ensures Flights(t)
  {
    hide Dispatched;
    assert forall f, o :: LiveFlight(t, f, o) <==> LiveFlight(s, f, o);
  }

  lemma StoreFlights(s: Session, id: WorkerId, op: OpId)
    requires Fenced(s) && MemoryCoupled(s) && Flights(s) && Records(s) && Stores(s, id, op)
    ensures Flights(Stored(s, id, op))
  {
    var t := Stored(s, id, op);
    var d, w := s.row.state, s.workers[id];
    StoreOthers(s, id, op);
    StoreWriting(s, id, op);
    ShapeDispatch(d, w.mem, w.pc.status, w.pc.next);
    if Writing(t, id) { StoreWriterGrounded(s, w.mem); }
    hide Coupled, MemoryCoupled, Fenced, Stored, SaveShape, Flights;
    forall f | f in t.flights && t.flights[f].stage.Live()
      ensures Dispatched(t.row.state, t.flights[f].op)
    {
      assert LiveFlight(s, f, s.flights[f].op);
    }
    hide Dispatched, Records, Marks;
    OneMoreSenderKeeps(s, t, id);
  }

  /** Before a write is marked, none of its flights is live. */
  lemma StoreWriterGrounded(s: Session, m: State)
    requires Flights(s) && Marks(s.row.state, m) && MemOk(m)
    ensures m.proposal.Some? && forall f :: !LiveFlight(s, f, m.proposal.value.op)
  {
  }

  lemma StoreExecutions(s: Session, id: WorkerId, op: OpId)
    requires MemoryCoupled(s) && Executions(s) && Stores(s, id, op)
    ensures Executions(Stored(s, id, op))
  {
    var d, w := s.row.state, s.workers[id];
    assert Coupled(w, d);
    ShapeDispatch(d, w.mem, w.pc.status, w.pc.next);
  }

  lemma StoreCompleted(s: Session, id: WorkerId, op: OpId)
    requires Fenced(s) && MemoryCoupled(s) && Records(s) && Stores(s, id, op)
    ensures forall o :: o in Stored(s, id, op).row.state.completed ==> Settled(Stored(s, id, op), o)
  {
    var t := Stored(s, id, op);
    var d, w := s.row.state, s.workers[id];
    assert Coupled(w, d);
    ShapeDispatch(d, w.mem, w.pc.status, w.pc.next);
    StoreOthers(s, id, op);
    assert At(t, id, Invoking) ==> Marks(d, w.mem) && t.workers[id].mem == t.row.state;
    forall o | o in t.row.state.completed
      ensures Settled(t, o)
    {
      assert Settled(s, o);
    }
  }

  lemma StoreRecords(s: Session, id: WorkerId, op: OpId)
    requires Fenced(s) && MemoryCoupled(s) && Records(s) && Stores(s, id, op)
    ensures Records(Stored(s, id, op))
  {
    var t := Stored(s, id, op);
    assert Coupled(s.workers[id], s.row.state);
    StoreOthers(s, id, op);
    StoreCompleted(s, id, op);
    assert id in t.workers && t.workers[id].pc.Saving? ==> t.row.state.proposal.None?;
  }

  lemma StoreRowClean(s: Session, id: WorkerId, op: OpId)
    requires Fenced(s) && MemoryCoupled(s) && Executions(s) && CleanStarts(s) && Records(s) && Stores(s, id, op)
    ensures var m := s.workers[id].mem;
      m.proposal.Some? && !m.writePending ==> Clean(s, m.proposal.value.op)
  {
    var d, w := s.row.state, s.workers[id];
    assert Coupled(w, d);
    if w.mem.proposal.Some? && !w.mem.writePending {
      if Proposes(d, w.mem) {
        assert !Mentioned(d, w.mem.proposal.value.op);
      } else if Withdraws(d, w.mem) {
        assert Withdrawn(s, w.mem.proposal.value.op);
      }
    }
  }

  lemma StoreStarts(s: Session, id: WorkerId, op: OpId)
    requires Fenced(s) && MemoryCoupled(s) && CleanStarts(s) && Stores(s, id, op)
    requires s.workers[id].mem.proposal.Some? && !s.workers[id].mem.writePending ==> Clean(s, s.workers[id].mem.proposal.value.op)
    ensures CleanStarts(Stored(s, id, op))
  {
    var t := Stored(s, id, op);
    assert Coupled(s.workers[id], s.row.state);
    StoreOthers(s, id, op);
    assert forall o :: Clean(s, o) <==> Clean(t, o);
    StoreWriting(s, id, op);
    hide Coupled, MemoryCoupled, Fenced, Stored, SaveShape, Clean, Answered;
    assert forall v :: Writing(t, v) && t.workers[v].pc.AwaitWrite? ==> v != id && Writing(s, v);
  }

  lemma StoreTokens(s: Session, id: WorkerId, op: OpId)
    requires Fenced(s) && MemoryCoupled(s) && Tokens(s) && Stores(s, id, op)
    ensures Tokens(Stored(s, id, op))
  {
    var t := Stored(s, id, op);
    var d, w := s.row.state, s.workers[id];
    StoreOthers(s, id, op);
    StoreWriting(s, id, op);
    hide MemoryCoupled, Fenced;
    assert Coupled(w, d);
  }

  lemma StoreKeeps(s: Session, id: WorkerId, op: OpId)
    requires Inv(s) && Stores(s, id, op)
    ensures Inv(Stored(s, id, op))
  {
    hide Fenced, MemoryCoupled, ModelOnce, Names, Writers, Flights, Executions, CleanStarts, Records, Tokens;
    StoreFenced(s, id, op);
    StoreCoupled(s, id, op);
    StoreModel(s, id, op);
    StoreNames(s, id, op);
    StoreWriters(s, id, op);
    StoreFlights(s, id, op);
    StoreExecutions(s, id, op);
    StoreRowClean(s, id, op);
    StoreStarts(s, id, op);
    StoreRecords(s, id, op);
    StoreTokens(s, id, op);
  }
}
