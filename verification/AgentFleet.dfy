/** All runs together: submissions, the fleet-wide claim, a shared clock and any interleaving of
    the sessions' events. The theorems hold after every finite history. */
module AgentFleet {
  import opened Options
  import opened AgentTypes
  import opened AgentSession
  import opened AgentInvariant
  import opened AgentSafety
  import AgentKeepsMore
  import opened Admission
  import RunRow
  import RunnerMachine
  import RunStore

  datatype World = World(now: int, convs: map<Conv, Owner>, runs: map<RunId, Session>)

  const Empty := World(0, map[], map[])

  datatype Action =
    | Tick(d: nat)
    | Open(conv: Conv, owner: Owner)
    | SubmitRun(id: RunId, owner: Owner, conv: Conv, request: Request, grant: Token)
    | ClaimNext(pick: Option<RunId>, w: WorkerId)
    | Act(id: RunId, e: Event)

  function RowsOf(runs: map<RunId, Session>): Rows {
    map id | id in runs :: runs[id].row
  }

  /** A fresh UUID was never drawn by any run. */
  ghost predicate FreshEverywhere(w: World, e: Event) {
    forall r, o :: r in w.runs && o in Draws(e) ==> o !in w.runs[r].issued
  }

  function Recovered(runs: map<RunId, Session>, now: int): map<RunId, Session> {
    map id | id in runs :: AgentSession.Recover(runs[id], now)
  }

  ghost function Next(w: World, a: Action): World {
    match a
    case Tick(d) => w.(now := w.now + d)
    case Open(conv, owner) => if conv in w.convs then w else w.(convs := w.convs[conv := owner])
    case SubmitRun(id, owner, conv, request, grant) =>
      if id in w.runs then w
      else
        var rows := Submit(RowsOf(w.runs), w.convs, w.now, id, owner, conv, request, grant).0;
        if id in rows then w.(runs := w.runs[id := Start(rows[id])]) else w
    case ClaimNext(pick, worker) =>
      var runs := Recovered(w.runs, w.now);
      if pick.Some? && Eligible(RowsOf(runs), pick.value)
      then w.(runs := runs[pick.value := AgentSession.Claim(runs[pick.value], w.now, worker)])
      else w.(runs := runs)
    case Act(id, e) =>
      if id in w.runs && FreshEverywhere(w, e) then w.(runs := w.runs[id := Step(w.runs[id], w.now, e)]) else w
  }

  ghost function After(w: World, history: seq<Action>): World {
    if history == [] then w else Next(After(w, history[..|history| - 1]), history[|history| - 1])
  }

  /*** What one event does to a row ***/

  /** The only ways an event touches the row. */
  lemma RowChanges(s: Session, now: int, e: Event)
    ensures var r := Step(s, now, e).row;
      || r == s.row
      || ((e.Beat? || e.WTop?) && e.w in s.workers && RunRow.Holds(s.row, s.workers[e.w].epoch, now) && r == RunRow.Heartbeat(s.row, now))
      || (e.WSave? && e.w in s.workers && s.workers[e.w].pc.Saving? && RunRow.Holds(s.row, s.workers[e.w].epoch, now)
          && r == RunRow.Save(s.row, s.workers[e.w].mem, s.workers[e.w].pc.status))
      || (e.Cancel? && r == RunRow.Cancel(s.row))
      || (e.Confirm? && RunRow.Confirm(s.row, e.op, e.receipt, e.grant, e.args) == Ok(Some(r)))
      || (e.Resume? && RunRow.Resume(s.row, e.grant) == Ok(r))
  {}

  lemma StepEvolves(s: Session, now: int, e: Event)
    ensures Evolves(s.row, Step(s, now, e).row)
  {
    RowChanges(s, now, e);
  }

  /** A finished run stays finished; only an unknown one may still be cancelled. */
  lemma TerminalStep(s: Session, now: int, e: Event)
    requires RunRow.Ends(s.row.status)
    ensures var r := Step(s, now, e).row;
      && (r.status == s.row.status || (s.row.status.Unknown? && r.status.Cancelled?))
      && r.state == s.row.state && r.epoch == s.row.epoch
  {
    RowChanges(s, now, e);
  }

  /** The events in which a worker acts. */
  predicate OfWorker(e: Event) {
    e.Beat? || e.WTop? || e.WSave? || e.WQuery? || e.WLocal? || e.WSend? || e.WReply? || e.WInterrupted?
    || e.WValidate? || e.WRead? || e.WCatalog? || e.WAsk? || e.WModel? || e.Crash?
  }

  /** A worker whose epoch was overtaken, whose lease ended or whose run left `running`
      cannot change the row now; `AgentTheorems.StaleWorkerNeverWrites` says the same of all its later steps. */
  lemma StaleWorkerIsFenced(s: Session, now: int, e: Event)
    requires OfWorker(e)
    requires e.w in s.workers ==> !RunRow.Holds(s.row, s.workers[e.w].epoch, now)
    ensures Step(s, now, e).row == s.row
  {}

  /** The persisted state has one linear history: it changes only when the current worker, whose
      memory grew out of that very state, checkpoints under its lease, or when the user confirms. */
  lemma LinearHistory(s: Session, now: int, e: Event)
    requires Fenced(s) && MemoryCoupled(s) && Step(s, now, e).row.state != s.row.state
    ensures
      || (&& e.WSave? && e.w in s.workers && RunRow.Holds(s.row, s.workers[e.w].epoch, now)
          && Coupled(s.workers[e.w], s.row.state)
          && Step(s, now, e).row.state == RunRow.Sealed(s.workers[e.w].mem, s.workers[e.w].pc.status))
      || (&& e.Confirm? && Unconfirmed(s.row.state)
          && Step(s, now, e).row.state
             == s.row.state.(proposal := Some(s.row.state.proposal.value.(confirmed := true)), receipt := Some(e.receipt)))
  {
    RowChanges(s, now, e);
    if e.WSave? {
      assert Current(s, e.w);
    }
  }

  /** A claim starts a worker from the persisted state under an epoch nobody had before. */
  lemma ClaimStartsFromRow(s: Session, now: int, w: WorkerId)
    requires Inv(s) && AgentSession.Claim(s, now, w) != s
    ensures var t := AgentSession.Claim(s, now, w);
      && t.workers[w].mem == s.row.state == t.row.state
      && t.row.epoch !in s.granted && t.granted == s.granted + [t.row.epoch]
      && forall v :: v in s.workers ==> !RunRow.Holds(t.row, s.workers[v].epoch, now)
  {
    assert forall v :: v in s.workers ==> s.workers[v].epoch <= s.row.epoch;
  }

  /*** The world invariant ***/

  ghost predicate Apart(runs: map<RunId, Session>) {
    forall r, q, o :: r in runs && q in runs && o in runs[r].issued && o in runs[q].issued ==> r == q
  }

  ghost predicate AllInv(runs: map<RunId, Session>) {
    forall r :: r in runs ==> Inv(runs[r])
  }

  ghost predicate Safe(w: World) {
    Limits(RowsOf(w.runs)) && AllInv(w.runs) && Apart(w.runs)
  }

  lemma StartInv(row: Row)
    requires row.status.Queued? && row.state == FreshState && row.grant.Some? && row.lease.None? && !row.cancel
    ensures Inv(Start(row))
  {
    StartWorkers(row);
    StartWrites(row);
  }

  lemma StartWorkers(row: Row)
    requires row.status.Queued? && row.state == FreshState && row.grant.Some? && row.lease.None? && !row.cancel
    ensures Fenced(Start(row)) && MemoryCoupled(Start(row)) && ModelOnce(Start(row)) && Writers(Start(row)) && Tokens(Start(row))
  {}

  lemma StartWrites(row: Row)
    requires row.state == FreshState
    ensures Names(Start(row)) && Flights(Start(row)) && Executions(Start(row)) && CleanStarts(Start(row)) && Records(Start(row))
  {}

  /** An event names only the identifiers it draws. */
  lemma IssuedGrows(s: Session, now: int, e: Event)
    ensures Step(s, now, e).issued.Keys <= s.issued.Keys + Draws(e)
  {
    if e.WTop? {
      TopIssues(s, now, e.w, e.gate, e.op);
    } else {
      hide DoTop;
      SaveIssues(s, now, e);
    }
  }

  lemma TopIssues(s: Session, now: int, w: WorkerId, g: RunnerMachine.Gate, op: OpId)
    ensures At(s, w, RunnerMachine.Top) ==> DoTop(s, now, w, g, op).issued.Keys <= s.issued.Keys + {op}
  {}

  lemma SaveIssues(s: Session, now: int, e: Event)
    requires !e.WTop?
    ensures Step(s, now, e).issued == s.issued || (e.WSave? && Step(s, now, e).issued.Keys <= s.issued.Keys + {e.op})
  {
    hide Move, DoBeat, DoTop, DoQuery, DoSend, DoWrite, DoReply, DoAsk, DoConfirm, SetStage, DoRecover, DoBegin, DoFinish;
  }

  lemma ReplaceInv(runs: map<RunId, Session>, id: RunId, t: Session)
    requires AllInv(runs) && Inv(t)
    ensures AllInv(runs[id := t])
  {
    hide Inv;
    var next := runs[id := t];
    forall r | r in next ensures Inv(next[r]) {
      if r != id { assert next[r] == runs[r]; }
    }
  }

  lemma ActLimits(w: World, id: RunId, t: Session)
    requires Limits(RowsOf(w.runs)) && id in w.runs && Evolves(w.runs[id].row, t.row)
    ensures Limits(RowsOf(w.runs[id := t]))
  {
    EvolutionKeepsLimits(RowsOf(w.runs), RowsOf(w.runs[id := t]));
  }

  lemma ActApart(w: World, id: RunId, e: Event)
    requires Apart(w.runs) && id in w.runs && FreshEverywhere(w, e)
    ensures Apart(w.runs[id := Step(w.runs[id], w.now, e)])
  {
    IssuedGrows(w.runs[id], w.now, e);
    var t := Step(w.runs[id], w.now, e);
    ApartReplace(w.runs, id, t, Draws(e));
  }

  lemma ApartReplace(runs: map<RunId, Session>, id: RunId, t: Session, drawn: set<OpId>)
    requires Apart(runs) && id in runs
    requires t.issued.Keys <= runs[id].issued.Keys + drawn
    requires forall r, o :: r in runs && o in drawn ==> o !in runs[r].issued
    ensures Apart(runs[id := t])
  {}

  lemma ActKeeps(w: World, id: RunId, e: Event)
    requires Safe(w) && id in w.runs && FreshEverywhere(w, e)
    ensures Safe(w.(runs := w.runs[id := Step(w.runs[id], w.now, e)]))
  {
    hide Inv;
    var t := Step(w.runs[id], w.now, e);
    ActInv(w, id, e);
    StepEvolves(w.runs[id], w.now, e);
    ActLimits(w, id, t);
    ActApart(w, id, e);
  }

  lemma ActInv(w: World, id: RunId, e: Event)
    requires AllInv(w.runs) && id in w.runs && FreshEverywhere(w, e)
    ensures AllInv(w.runs[id := Step(w.runs[id], w.now, e)])
  {
    hide Inv;
    assert FreshFor(w.runs[id], e);
    StepKeeps(w.runs[id], w.now, e);
    ReplaceInv(w.runs, id, Step(w.runs[id], w.now, e));
  }

  lemma RecoverAllInv(runs: map<RunId, Session>, now: int)
    requires AllInv(runs)
    ensures AllInv(Recovered(runs, now))
  {
    hide Inv;
    forall r | r in runs ensures Inv(Recovered(runs, now)[r]) {
      AgentKeepsMore.RecoverKeeps(runs[r], now);
    }
  }

  lemma RecoverAllLimits(runs: map<RunId, Session>, now: int)
    requires Limits(RowsOf(runs))
    ensures Limits(RowsOf(Recovered(runs, now)))
  {
    assert RowsOf(Recovered(runs, now)) == RecoverAll(RowsOf(runs), now);
    RecoveryEvolves(RowsOf(runs), now);
    EvolutionKeepsLimits(RowsOf(runs), RecoverAll(RowsOf(runs), now));
  }

  lemma RecoverAllApart(runs: map<RunId, Session>, now: int)
    requires Apart(runs)
    ensures Apart(Recovered(runs, now))
  {
    assert forall r :: r in runs ==> Recovered(runs, now)[r].issued == runs[r].issued;
  }

  lemma ClaimInv(runs: map<RunId, Session>, now: int, id: RunId, worker: WorkerId)
    requires AllInv(runs) && id in runs
    ensures AllInv(runs[id := AgentSession.Claim(runs[id], now, worker)])
  {
    hide Inv;
    AgentKeepsMore.ClaimKeeps(runs[id], now, worker);
    ReplaceInv(runs, id, AgentSession.Claim(runs[id], now, worker));
  }

  lemma ClaimLimits(runs: map<RunId, Session>, now: int, id: RunId, worker: WorkerId)
    requires Limits(RowsOf(runs)) && Apart(runs) && Eligible(RowsOf(runs), id)
    ensures Limits(RowsOf(runs[id := AgentSession.Claim(runs[id], now, worker)]))
    ensures Apart(runs[id := AgentSession.Claim(runs[id], now, worker)])
  {
    var t := AgentSession.Claim(runs[id], now, worker);
    ClaimKeepsLimits(RowsOf(runs), id, now);
    if worker in runs[id].workers {
      assert runs[id := t] == runs;
    } else {
      assert RowsOf(runs[id := t]) == RowsOf(runs)[id := RunRow.Claim(runs[id].row, now)];
    }
    ApartReplace(runs, id, t, {});
  }

  lemma AddRunKeeps(w: World, id: RunId, row: Row)
    requires Safe(w) && id !in w.runs && row.status.Queued? && row.state == FreshState && row.grant.Some? && row.lease.None? && !row.cancel
    requires Limits(RowsOf(w.runs)[id := row])
    ensures Safe(w.(runs := w.runs[id := Start(row)]))
  {
    hide Inv;
    StartInv(row);
    ReplaceInv(w.runs, id, Start(row));
    AddRunApart(w.runs, id, row);
  }

  lemma AddRunApart(runs: map<RunId, Session>, id: RunId, row: Row)
    requires Apart(runs) && id !in runs
    ensures Apart(runs[id := Start(row)])
    ensures RowsOf(runs[id := Start(row)]) == RowsOf(runs)[id := row]
  {}

  lemma SubmitRunKeeps(w: World, id: RunId, owner: Owner, conv: Conv, request: Request, grant: Token)
    requires Safe(w)
    ensures Safe(Next(w, SubmitRun(id, owner, conv, request, grant)))
  {
    hide Inv;
    if id !in w.runs {
      SubmitKeepsLimits(RowsOf(w.runs), w.convs, w.now, id, owner, conv, request, grant);
      SubmitAdds(RowsOf(w.runs), w.convs, w.now, id, owner, conv, request, grant);
      var rows := Submit(RowsOf(w.runs), w.convs, w.now, id, owner, conv, request, grant).0;
      if id in rows { AddRunKeeps(w, id, rows[id]); }
    }
  }

  lemma SubmitAdds(rows: Rows, convs: map<Conv, Owner>, now: int, id: RunId, owner: Owner, conv: Conv, request: Request, grant: Token)
    requires id !in rows
    ensures var next := Submit(rows, convs, now, id, owner, conv, request, grant).0;
      id in next ==>
        && next == rows[id := next[id]] && next[id].status.Queued? && next[id].state == FreshState
        && next[id].grant.Some? && next[id].lease.None? && !next[id].cancel
  {}

  lemma ClaimNextKeeps(w: World, pick: Option<RunId>, worker: WorkerId)
    requires Safe(w)
    ensures Safe(Next(w, ClaimNext(pick, worker)))
  {
    hide Inv;
    RecoverAllInv(w.runs, w.now);
    RecoverAllLimits(w.runs, w.now);
    RecoverAllApart(w.runs, w.now);
    var mid := Recovered(w.runs, w.now);
    if pick.Some? && Eligible(RowsOf(mid), pick.value) {
      ClaimInv(mid, w.now, pick.value, worker);
      ClaimLimits(mid, w.now, pick.value, worker);
    }
  }

  lemma NextKeeps(w: World, a: Action)
    requires Safe(w)
    ensures Safe(Next(w, a))
  {
    hide Inv;
    match a
    case Tick(_) =>
    case Open(_, _) =>
    case SubmitRun(id, owner, conv, request, grant) => SubmitRunKeeps(w, id, owner, conv, request, grant);
    case ClaimNext(pick, worker) => ClaimNextKeeps(w, pick, worker);
    case Act(id, e) => if id in w.runs && FreshEverywhere(w, e) { ActKeeps(w, id, e); }
  }

  lemma {:induction false} EveryHistoryIsSafe(history: seq<Action>)
    ensures Safe(After(Empty, history))
  {
    hide Inv;
    if history == [] {
      RunStore.EmptyLimits();
      assert RowsOf(Empty.runs) == map[];
    } else {
      EveryHistoryIsSafe(history[..|history| - 1]);
      NextKeeps(After(Empty, history[..|history| - 1]), history[|history| - 1]);
    }
  }
}
