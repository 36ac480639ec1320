/** What a run achieves when nothing fails: a model round, a batch of reads, a proposal, a confirmed write. */
module AgentProgress {
  import opened Options
  import opened AgentTypes
  import opened RunnerMachine
  import opened AgentSession
  import RunRow
  import OperationLedger

  /** The events of a history with the clock standing still. */
  function Happen(s: Session, now: int, events: seq<Event>): Session
    decreases |events|
  {
    if events == [] then s else Happen(Step(s, now, events[0]), now, events[1..])
  }

  /** A worker at the head of its loop, with the lease and the row's state, that nobody wants to stop. */
  predicate Ready(s: Session, now: int, w: WorkerId, m: State) {
    && w in s.workers && s.workers[w] == Worker(s.row.epoch, m, Top) && s.row.state == m
    && s.row.status == Running && s.row.lease.Some? && now < s.row.lease.value && !s.row.cancel
  }

  const Fine := Gate(false, false, false, true)

  /** The row and its worker, where the worker stands at `pc`. */
  predicate Stands(s: Session, now: int, w: WorkerId, d: State, m: State, pc: Pc) {
    && w in s.workers && s.workers[w] == Worker(s.row.epoch, m, pc) && s.row.state == d
    && s.row.status == Running && s.row.lease.Some? && now < s.row.lease.value && !s.row.cancel
  }

  predicate Others(s: Session, t: Session, w: WorkerId) {
    t.workers - {w} == s.workers - {w} && t.row.epoch == s.row.epoch && t.row.grant == s.row.grant
  }

  lemma TopStep(s: Session, now: int, w: WorkerId, m: State, op: OpId)
    requires Ready(s, now, w, m)
    ensures var t, after := Step(s, now, WTop(w, Fine, op)), Branch(Worker(s.row.epoch, m, Top), op);
      && !after.pc.Gone? && Stands(t, now, w, m, after.mem, after.pc) && Others(s, t, w)
      && t == s.(row := t.row, workers := t.workers, issued := t.issued)
  {
  }

  lemma SaveStep(s: Session, now: int, w: WorkerId, d: State, m: State, next: Next, op: OpId)
    requires Stands(s, now, w, d, m, Saving(Running, next)) && next != Exit
    ensures var t, after := Step(s, now, WSave(w, op)), AfterSave(Worker(s.row.epoch, m, Saving(Running, next)), next, true, op);
      && !after.pc.Gone? && Stands(t, now, w, m, after.mem, after.pc) && Others(s, t, w)
      && t == s.(row := t.row, workers := t.workers, issued := t.issued)
  {
  }

  /** A last checkpoint: the worker leaves, and the row says how. */
  lemma LastSave(s: Session, now: int, w: WorkerId, d: State, m: State, st: Status, op: OpId)
    requires Stands(s, now, w, d, m, Saving(st, Exit)) && st != Running
    ensures var t := Step(s, now, WSave(w, op));
      && t.row.status == st && w !in t.workers && t.row.state == (if st == WaitingConfirmation || st == WaitingAuth || st == Queued then m else m.(receipt := None))
      && t == s.(row := t.row, workers := t.workers, issued := t.issued) && t.row.cancel == s.row.cancel
  {
  }

  // ---- A round of the model

  /** The model is asked once, and its answer becomes the state: more calls, or the end of the run. */
  lemma ModelRound(s: Session, now: int, w: WorkerId, m: State, calls: seq<Call>, tokens: nat, op: OpId)
    requires Ready(s, now, w, m) && m.proposal.None? && m.calls == [] && !m.modelPending && m.round < 8 && m.tokens <= 48000
    requires |calls| <= 24
    ensures var reply := ModelReply(calls, tokens, true, true);
      var t := Happen(s, now, [WTop(w, Fine, op), WCatalog(w, CatalogOk), WSave(w, op), WAsk(w), WModel(w, reply), WSave(w, op)]);
      var n := m.(round := m.round + 1, tokens := m.tokens + tokens, calls := calls);
      && t.asked == s.asked + multiset{m.round}
      && t.effects == s.effects && t.sent == s.sent
      && if calls != [] then Ready(t, now, w, n) else t.row.status == Succeeded && t.row.state == n.(receipt := None) && w !in t.workers
  {
    var reply := ModelReply(calls, tokens, true, true);
    var a := Step(s, now, WTop(w, Fine, op));
    var b := Step(a, now, WCatalog(w, CatalogOk));
    var c := Step(b, now, WSave(w, op));
    var d := Step(c, now, WAsk(w));
    var e := Step(d, now, WModel(w, reply));
    Unfold6(s, now, WTop(w, Fine, op), WCatalog(w, CatalogOk), WSave(w, op), WAsk(w), WModel(w, reply), WSave(w, op));
    hide Step, Happen, Advance;
    var pending := m.(modelPending := true);
    var n := m.(round := m.round + 1, tokens := m.tokens + tokens, calls := calls);
    TopStep(s, now, w, m, op);
    CatalogStep(a, now, w, m);
    SaveStep(b, now, w, m, pending, ThenAsk, op);
    AskStep(c, now, w, pending);
    ReplyStep(d, now, w, pending, calls, tokens);
    if calls != [] {
      SaveStep(e, now, w, pending, n, Loop, op);
    } else {
      LastSave(e, now, w, pending, n, Succeeded, op);
    }
  }

  lemma CatalogStep(s: Session, now: int, w: WorkerId, m: State)
    requires Stands(s, now, w, m, m, Cataloging)
    ensures var t := Step(s, now, WCatalog(w, CatalogOk));
      Stands(t, now, w, m, m.(modelPending := true), Saving(Running, ThenAsk)) && Others(s, t, w) && t == s.(workers := t.workers)
  {
  }

  lemma AskStep(s: Session, now: int, w: WorkerId, m: State)
    requires Stands(s, now, w, m, m, Asking)
    ensures var t := Step(s, now, WAsk(w));
      && Stands(t, now, w, m, m, AwaitModel) && Others(s, t, w)
      && t == s.(workers := t.workers, asked := s.asked + multiset{m.round})
  {
  }

  lemma ReplyStep(s: Session, now: int, w: WorkerId, m: State, calls: seq<Call>, tokens: nat)
    requires Stands(s, now, w, m, m, AwaitModel) && |calls| <= 24
    ensures var t := Step(s, now, WModel(w, ModelReply(calls, tokens, true, true)));
      && Stands(t, now, w, m, m.(modelPending := false, round := m.round + 1, tokens := m.tokens + tokens, calls := calls),
                if calls != [] then Saving(Running, Loop) else Saving(Succeeded, Exit))
      && Others(s, t, w) && t == s.(workers := t.workers)
  {
  }

  lemma Head(s: Session, now: int, e: Event, rest: seq<Event>)
    ensures Happen(s, now, [e] + rest) == Happen(Step(s, now, e), now, rest)
    ensures rest == [] ==> Happen(s, now, [e] + rest) == Step(s, now, e)
  {
    hide Step;
    assert ([e] + rest)[1..] == rest;
  }

  lemma Unfold6(s: Session, now: int, a: Event, b: Event, c: Event, d: Event, e: Event, f: Event)
    ensures Happen(s, now, [a, b, c, d, e, f]) ==
      Step(Step(Step(Step(Step(Step(s, now, a), now, b), now, c), now, d), now, e), now, f)
  {
    hide Step, Happen;
    assert [a, b, c, d, e, f] == [a] + ([b] + ([c] + ([d] + [e, f])));
    Head(s, now, a, [b] + ([c] + ([d] + [e, f])));
    Head(Step(s, now, a), now, b, [c] + ([d] + [e, f]));
    Head(Step(Step(s, now, a), now, b), now, c, [d] + [e, f]);
    Head(Step(Step(Step(s, now, a), now, b), now, c), now, d, [e, f]);
    Unfold2(Step(Step(Step(Step(s, now, a), now, b), now, c), now, d), now, e, f);
  }

  // ---- A confirmed write

  /** The write goes out once, runs once, its answer is stored, and the run goes on without the proposal. */
  lemma ConfirmedWrite(s: Session, now: int, w: WorkerId, m: State, f: FlightId, http: nat, response: nat, op: OpId)
    requires Ready(s, now, w, m) && m.proposal.Some? && m.proposal.value.confirmed && !m.writePending
    requires m.proposal.value.op !in s.ledger && f !in s.flights && 200 <= http < 300
    ensures var p := m.proposal.value;
      var t := Happen(Happen(s, now, [WTop(w, Fine, op), WSave(w, op), WSend(w, f), FBegin(f, false), FExecute(f, http), FFinish(f, true, response)]),
                      now, [WReply(w), WSave(w, op)]);
      && t.sent == s.sent + multiset{p.op} && t.effects == s.effects + multiset{p.op}
      && t.ledger == s.ledger[p.op := OperationLedger.Operation(Order(p.call.kind, p.args), OperationLedger.Completed, http, response)]
      && Ready(t, now, w, m.(completed := m.completed + [p.op], proposal := None, receipt := None, writePending := false, calls := []))
  {
    var p := m.proposal.value;
    var n := m.(writePending := true);
    var done := m.(completed := m.completed + [p.op], proposal := None, receipt := None, writePending := false, calls := []);
    var a := Step(s, now, WTop(w, Fine, op));
    var b := Step(a, now, WSave(w, op));
    var c := Step(b, now, WSend(w, f));
    var d := Step(c, now, FBegin(f, false));
    var e := Step(d, now, FExecute(f, http));
    var g := Step(e, now, FFinish(f, true, response));
    var h := Step(g, now, WReply(w));
    Unfold6(s, now, WTop(w, Fine, op), WSave(w, op), WSend(w, f), FBegin(f, false), FExecute(f, http), FFinish(f, true, response));
    Unfold2(g, now, WReply(w), WSave(w, op));
    TopStep(s, now, w, m, op);
    SaveStep(a, now, w, m, n, ThenInvoke, op);
    SendStep(b, now, w, n, f);
    PlatformSteps(c, now, p.op, p.Work(), f, http, response);
    hide Happen;
    AnswerStep(g, now, w, n, f);
    hide Step;
    SaveStep(h, now, w, n, done, Loop, op);
  }

  lemma Unfold2(s: Session, now: int, a: Event, b: Event)
    ensures Happen(s, now, [a, b]) == Step(Step(s, now, a), now, b)
  {
    hide Step, Happen;
    assert [a, b] == [a] + ([b] + []);
    Head(s, now, a, [b] + []);
    Head(Step(s, now, a), now, b, []);
  }

  lemma SendStep(s: Session, now: int, w: WorkerId, m: State, f: FlightId)
    requires Stands(s, now, w, m, m, Invoking) && m.proposal.Some? && f !in s.flights
    ensures var p, t := m.proposal.value, Step(s, now, WSend(w, f));
      && Stands(t, now, w, m, m, AwaitWrite(f)) && Others(s, t, w)
      && t == s.(workers := t.workers, flights := s.flights[f := Flight(p.op, p.Work(), Travelling)], sent := s.sent + multiset{p.op})
  {
  }

  /** The platform's part: register, run, record. */
  lemma PlatformSteps(s: Session, now: int, op: OpId, order: Order, f: FlightId, http: nat, response: nat)
    requires f in s.flights && s.flights[f] == Flight(op, order, Travelling) && op !in s.ledger && 200 <= http < 300
    ensures var t := Step(Step(Step(s, now, FBegin(f, false)), now, FExecute(f, http)), now, FFinish(f, true, response));
      && t.flights == s.flights[f := Flight(op, order, Replied(Accepted))]
      && t == s.(flights := t.flights, effects := s.effects + multiset{op},
                 ledger := s.ledger[op := OperationLedger.Operation(order, OperationLedger.Completed, http, response)])
  {
    hide DoRecover, CanRecover;
    var a := Step(s, now, FBegin(f, false));
    assert a == s.(flights := s.flights[f := Flight(op, order, Executing)],
                   ledger := s.ledger[op := OperationLedger.Operation(order, OperationLedger.Pending, 0, 0)]);
    var b := Step(a, now, FExecute(f, http));
    assert b == a.(flights := s.flights[f := Flight(op, order, Executed(http))], effects := s.effects + multiset{op});
    RecordStep(b, now, op, order, f, http, response);
    hide Step;
  }

  lemma RecordStep(s: Session, now: int, op: OpId, order: Order, f: FlightId, http: nat, response: nat)
    requires f in s.flights && s.flights[f] == Flight(op, order, Executed(http)) && 200 <= http < 300
    requires op in s.ledger && s.ledger[op] == OperationLedger.Operation(order, OperationLedger.Pending, 0, 0)
    ensures var t := Step(s, now, FFinish(f, true, response));
      && t.flights == s.flights[f := Flight(op, order, Replied(Accepted))]
      && t == s.(flights := t.flights, ledger := s.ledger[op := OperationLedger.Operation(order, OperationLedger.Completed, http, response)])
  {
  }

  lemma AnswerStep(s: Session, now: int, w: WorkerId, m: State, f: FlightId)
    requires Stands(s, now, w, m, m, AwaitWrite(f)) && m.proposal.Some?
    requires f in s.flights && s.flights[f].stage == Replied(Accepted)
    ensures var t := Step(s, now, WReply(w));
      && Stands(t, now, w, m, m.(completed := m.completed + [m.proposal.value.op], proposal := None, receipt := None,
                                 writePending := false, calls := []), Saving(Running, Loop))
      && Others(s, t, w) && t == s.(workers := t.workers)
  {
  }

  // ---- Reads, and a write that must be confirmed

  /** A few reads are run, counted and dropped. */
  lemma ReadBatch(s: Session, now: int, w: WorkerId, m: State, op: OpId)
    requires Ready(s, now, w, m) && m.proposal.None? && 1 <= |m.calls| <= 4 && m.toolCount + |m.calls| <= 24
    requires forall c :: c in m.calls ==> c.valid && c.kind == Read
    ensures var t := Happen(Happen(s, now, [WTop(w, Fine, op), WSave(w, op)]), now, [WRead(w, BatchDone), WSave(w, op)]);
      && Ready(t, now, w, m.(calls := [], toolCount := m.toolCount + |m.calls|))
      && t.sent == s.sent && t.asked == s.asked && t.effects == s.effects
  {
    var a := Step(s, now, WTop(w, Fine, op));
    var b := Step(a, now, WSave(w, op));
    var c := Step(b, now, WRead(w, BatchDone));
    Unfold2(s, now, WTop(w, Fine, op), WSave(w, op));
    Unfold2(b, now, WRead(w, BatchDone), WSave(w, op));
    hide Happen, Step;
    TopStep(s, now, w, m, op);
    SaveStep(a, now, w, m, m, ThenRead, op);
    ReadStep(b, now, w, m);
    SaveStep(c, now, w, m, m.(calls := [], toolCount := m.toolCount + |m.calls|), Loop, op);
  }

  lemma ReadStep(s: Session, now: int, w: WorkerId, m: State)
    requires Stands(s, now, w, m, m, Reading)
    ensures var t := Step(s, now, WRead(w, BatchDone));
      && Stands(t, now, w, m, m.(calls := [], toolCount := m.toolCount + |m.calls|), Saving(Running, Loop))
      && Others(s, t, w) && t == s.(workers := t.workers)
  {
  }

  /** A write stops the run until its user has seen and confirmed it, with these arguments; then it is queued again. */
  lemma WriteWaits(s: Session, now: int, w: WorkerId, m: State, c: Call, op: OpId, receipt: Token, grant: Token)
    requires Ready(s, now, w, m) && m.proposal.None? && m.calls == [c] && c.valid && c.kind == OtherWrite && m.toolCount < 24
    requires op !in m.completed
    ensures var t := Happen(s, now, [WTop(w, Fine, op), WSave(w, op)]);
      var u := Step(t, now, Confirm(op, receipt, grant, c.args));
      && t.row.status == WaitingConfirmation && w !in t.workers && t.sent == s.sent
      && t.row.state == m.(toolCount := m.toolCount + 1, proposal := Some(Proposal(c, c.args, op, false)))
      && u.row.status == Queued && u.row.state == t.row.state.(proposal := Some(Proposal(c, c.args, op, true)), receipt := Some(receipt))
      && u.confirms == t.confirms + multiset{op}
  {
    var a := Step(s, now, WTop(w, Fine, op));
    Unfold2(s, now, WTop(w, Fine, op), WSave(w, op));
    TopStep(s, now, w, m, op);
    assert c in m.calls;
    var n := m.(toolCount := m.toolCount + 1, proposal := Some(Proposal(c, c.args, op, false)));
    assert Stands(a, now, w, m, n, Saving(WaitingConfirmation, Exit));
    hide Happen, Branch;
    LastSave(a, now, w, m, n, WaitingConfirmation, op);
    hide Step;
    ConfirmStep(Step(a, now, WSave(w, op)), now, n, op, receipt, grant, c.args);
  }

  lemma ConfirmStep(s: Session, now: int, m: State, op: OpId, receipt: Token, grant: Token, args: Args)
    requires s.row.status == WaitingConfirmation && !s.row.cancel && s.row.state == m && op !in m.completed
    requires m.proposal.Some? && m.proposal.value.op == op && m.proposal.value.args == args && !m.proposal.value.confirmed
    ensures var t := Step(s, now, Confirm(op, receipt, grant, args));
      && t.row.status == Queued && t.confirms == s.confirms + multiset{op}
      && t.row.state == m.(proposal := Some(m.proposal.value.(confirmed := true)), receipt := Some(receipt))
  {
  }
}
