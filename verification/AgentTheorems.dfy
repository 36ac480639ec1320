/** What the agent promises, for every run after every finite history of the fleet. */
module AgentTheorems {
  import opened Options
  import opened AgentTypes
  import opened AgentSession
  import opened AgentInvariant
  import opened AgentFleet
  import Admission
  import RunRow
  import OperationLedger

  /** The session of run `id` after `history`. */
  ghost predicate Reached(history: seq<Action>, id: RunId, s: Session) {
    id in After(Empty, history).runs && s == After(Empty, history).runs[id]
  }

  lemma ReachedInv(history: seq<Action>, id: RunId, s: Session)
    requires Reached(history, id, s)
    ensures Inv(s)
  {
    EveryHistoryIsSafe(history);
  }

  /** At most one business execution per operation of a run. */
  lemma AtMostOneEffect(history: seq<Action>, id: RunId, s: Session, op: OpId)
    requires Reached(history, id, s)
    ensures s.effects[op] <= 1
  {
    ReachedInv(history, id, s);
  }

  /** No two runs ever share an operation identifier, so the bound above is fleet-wide. */
  lemma EffectsDoNotCross(history: seq<Action>, r: RunId, q: RunId, s: Session, t: Session, op: OpId)
    requires Reached(history, r, s) && Reached(history, q, t) && r != q && op in s.effects
    ensures op !in t.effects && op !in t.issued
  {
    EveryHistoryIsSafe(history);
    ReachedInv(history, r, s);
    ReachedInv(history, q, t);
    assert op in s.issued;
  }

  /** Every send of a write spends a confirmation, and every further confirmation answers a definite
      401 or 403: without a denial the write is sent at most once. */
  lemma RetryOnlyAfterDenial(history: seq<Action>, id: RunId, s: Session, op: OpId)
    requires Reached(history, id, s)
    ensures s.sent[op] <= s.confirms[op] <= 1 + s.denied[op]
  {
    ReachedInv(history, id, s);
  }

  /** An operation the run records as completed is decided: either it ran exactly once and its stored
      outcome is final, or it never ran and the platform never registered it. */
  lemma CompletedMeansDecided(history: seq<Action>, id: RunId, s: Session, op: OpId)
    requires Reached(history, id, s) && op in s.row.state.completed
    ensures (DefiniteOp(s, op) && s.effects[op] == 1) || (op !in s.ledger && s.effects[op] == 0)
  {
    ReachedInv(history, id, s);
    assert Settled(s, op);
  }

  /** An execution is never forgotten: the persisted row still carries it as its dispatched write or as completed. */
  lemma EffectsAreRemembered(history: seq<Action>, id: RunId, s: Session, op: OpId)
    requires Reached(history, id, s) && op in s.effects
    ensures op in s.row.state.completed
         || (s.row.state.proposal.Some? && s.row.state.proposal.value.op == op)
  {
    ReachedInv(history, id, s);
    assert op in s.ledger;
  }

  /** Nothing runs on the platform that the user did not confirm, and it runs under the very
      tool and arguments that were proposed. */
  lemma NoEffectWithoutConfirmation(history: seq<Action>, id: RunId, s: Session, op: OpId)
    requires Reached(history, id, s) && op in s.effects
    ensures op in s.confirms
    ensures op in s.ledger && op in s.issued && s.ledger[op].order == s.issued[op]
  {
    ReachedInv(history, id, s);
    assert op in s.ledger && op in s.sent;
    assert s.sent[op] <= s.confirms[op];
  }

  /** Each round's model request is sent at most once, and at most eight in all, crashes included. */
  lemma ModelRequestsAreBounded(history: seq<Action>, id: RunId, s: Session)
    requires Reached(history, id, s)
    ensures forall k :: s.asked[k] <= 1 && (k in s.asked ==> k < 8)
    ensures |s.asked| <= 8
  {
    ReachedInv(history, id, s);
    assert forall k :: k in s.asked ==> s.asked[k] == 1;
    Bounded(s.asked, MAX_ROUNDS);
  }

  lemma {:induction false} Bounded(m: multiset<nat>, n: nat)
    requires forall k :: m[k] <= 1 && (k in m ==> k < n)
    ensures |m| <= n
  {
    if n == 0 {
      assert m == multiset{};
    } else {
      var rest := m[n - 1 := 0];
      Bounded(rest, n - 1);
      assert m == rest + (if n - 1 in m then multiset{n - 1} else multiset{});
    }
  }

  /** Budgets and shapes of every persisted row, across any number of crashes and confirmations. */
  lemma BudgetsHold(history: seq<Action>, id: RunId, s: Session)
    requires Reached(history, id, s)
    ensures var d := s.row.state;
      && d.round <= 8 && d.toolCount <= 24
      && !(d.modelPending && d.writePending)
      && (s.row.status.Queued? ==> !d.modelPending && !s.row.cancel)
      && ((s.row.status.Queued? || s.row.status.Running?) && d.proposal.Some? ==> d.proposal.value.confirmed)
      && (d.proposal.Some? ==> d.calls == [d.proposal.value.call] && !d.proposal.value.call.kind.Read?)
      && (s.row.status in {Succeeded, Failed, Cancelled, Unknown} <==> s.row.grant.None?)
  {
    ReachedInv(history, id, s);
  }

  /** Epochs are handed out in strictly increasing order, and no two live workers share one. */
  lemma EpochsAreUnique(history: seq<Action>, id: RunId, s: Session)
    requires Reached(history, id, s)
    ensures forall i, j :: 0 <= i < j < |s.granted| ==> s.granted[i] < s.granted[j]
    ensures forall v, w :: v in s.workers && w in s.workers && v != w ==> s.workers[v].epoch != s.workers[w].epoch
    ensures forall w :: w in s.workers ==> s.workers[w].epoch in s.granted
  {
    ReachedInv(history, id, s);
  }

  /** In every reachable fleet: eight runs under way, two of an owner, eight unfinished ones of an owner, and no two
      unfinished ones in a conversation. */
  lemma FleetLimits(history: seq<Action>, o: Owner, r: RunId, q: RunId)
    ensures var rows := RowsOf(After(Empty, history).runs);
      && |set k | k in rows && rows[k].status == Running| <= 8
      && |set k | k in rows && rows[k].status == Running && rows[k].owner == o| <= 2
      && |set k | k in rows && Admission.Unfinished(rows[k]) && rows[k].owner == o| <= 8
      && (r in rows && q in rows && Admission.Unfinished(rows[r]) && Admission.Unfinished(rows[q]) && rows[r].conv == rows[q].conv ==> r == q)
  {
    EveryHistoryIsSafe(history);
    hide Inv;
    Admission.LimitsSpelledOut(RowsOf(After(Empty, history).runs), o, r, q);
    hide Admission.Limits, Apart, AllInv, RowsOf, After;
  }

  /*** Things that never change again ***/

  lemma TerminalNext(w: World, a: Action, id: RunId)
    requires id in w.runs && RunRow.Ends(w.runs[id].row.status)
    ensures id in Next(w, a).runs
    ensures var r, q := w.runs[id].row, Next(w, a).runs[id].row;
      (q.status == r.status || (r.status.Unknown? && q.status.Cancelled?)) && q.state == r.state
  {
    hide Step;
    match a
    case Act(run, e) => if run == id { TerminalStep(w.runs[id], w.now, e); }
    case _ =>
  }

  /** Succeeded, failed, cancelled and unknown runs never become active again. */
  lemma {:induction false} TerminalForever(w: World, history: seq<Action>, id: RunId)
    requires id in w.runs && RunRow.Ends(w.runs[id].row.status)
    ensures id in After(w, history).runs
    ensures var r, q := w.runs[id].row, After(w, history).runs[id].row;
      (q.status == r.status || (r.status.Unknown? && q.status.Cancelled?)) && q.state == r.state
  {
    if history != [] {
      TerminalForever(w, history[..|history| - 1], id);
      TerminalNext(After(w, history[..|history| - 1]), history[|history| - 1], id);
    }
  }

  /*** The fence stays up ***/

  /** A worker that claimed under epoch `e` no longer holds the row. */
  predicate Overtaken(r: Row, e: nat, now: int) {
    e <= r.epoch && !RunRow.Holds(r, e, now)
  }

  lemma EventKeepsFence(s: Session, now: int, event: Event, e: nat)
    requires Overtaken(s.row, e, now)
    ensures Overtaken(Step(s, now, event).row, e, now)
  {
    RowChanges(s, now, event);
    hide Step;
  }

  lemma ClaimKeepsFence(w: World, pick: Option<RunId>, worker: WorkerId, id: RunId, e: nat)
    requires id in w.runs && Overtaken(w.runs[id].row, e, w.now)
    ensures id in Next(w, ClaimNext(pick, worker)).runs
    ensures Overtaken(Next(w, ClaimNext(pick, worker)).runs[id].row, e, w.now)
  {
    hide Step, Admission.Eligible, FreshEverywhere;
    var mid := Recovered(w.runs, w.now);
    assert Overtaken(mid[id].row, e, w.now);
  }

  lemma SubmitKeepsFence(w: World, a: Action, id: RunId)
    requires id in w.runs && (a.SubmitRun? || a.Tick? || a.Open?)
    ensures id in Next(w, a).runs && Next(w, a).runs[id] == w.runs[id] && Next(w, a).now >= w.now
  {
    hide Step, Admission.Submit, Start, RowsOf;
  }

  lemma FenceNext(w: World, a: Action, id: RunId, e: nat)
    requires id in w.runs && Overtaken(w.runs[id].row, e, w.now)
    ensures id in Next(w, a).runs && Overtaken(Next(w, a).runs[id].row, e, Next(w, a).now)
  {
    match a
    case Act(run, event) =>
      if run == id { EventKeepsFence(w.runs[id], w.now, event, e); }
      hide Step, Overtaken, FreshEverywhere;
    case ClaimNext(pick, worker) =>
      ClaimKeepsFence(w, pick, worker, id, e);
      hide Overtaken, Recovered, Admission.Eligible;
    case _ =>
      SubmitKeepsFence(w, a, id);
      hide Next;
  }

  /** Whoever has lost the fence never gets it back, whatever the fleet does. */
  lemma {:induction false} FenceIsForever(w: World, history: seq<Action>, id: RunId, e: nat)
    requires id in w.runs && e <= w.runs[id].row.epoch && !RunRow.Holds(w.runs[id].row, e, w.now)
    ensures id in After(w, history).runs
    ensures var v := After(w, history);
      e <= v.runs[id].row.epoch && !RunRow.Holds(v.runs[id].row, e, v.now)
  {
    if history != [] {
      FenceIsForever(w, history[..|history| - 1], id, e);
      FenceNext(After(w, history[..|history| - 1]), history[|history| - 1], id, e);
    }
  }

  /** A worker whose epoch was overtaken, whose lease ended or whose run left `running` never changes the row again. */
  lemma StaleWorkerNeverWrites(w: World, history: seq<Action>, id: RunId, e: nat, event: Event)
    requires id in w.runs && e <= w.runs[id].row.epoch && !RunRow.Holds(w.runs[id].row, e, w.now)
    requires OfWorker(event)
    requires id in After(w, history).runs ==>
      event.w in After(w, history).runs[id].workers ==> After(w, history).runs[id].workers[event.w].epoch == e
    ensures id in After(w, history).runs && id in Next(After(w, history), Act(id, event)).runs
    ensures Next(After(w, history), Act(id, event)).runs[id].row == After(w, history).runs[id].row
  {
    FenceIsForever(w, history, id, e);
    var v := After(w, history);
    StaleWorkerIsFenced(v.runs[id], v.now, event);
    hide Step;
  }

  lemma LedgerChanges(s: Session, now: int, e: Event)
    ensures e.FBegin? || e.FFinish? || e.PRecover? || Step(s, now, e).ledger == s.ledger
  {
    hide Move, DoBeat, DoTop, DoSave, DoQuery, DoSend, DoWrite, DoReply, DoAsk, DoConfirm, SetStage;
  }

  lemma OutcomeStep(s: Session, now: int, e: Event, op: OpId)
    requires DefiniteOp(s, op)
    ensures op in Step(s, now, e).ledger && Step(s, now, e).ledger[op] == s.ledger[op]
  {
    LedgerChanges(s, now, e);
    match e
    case FBegin(f, found) =>
    case FFinish(f, stored, response) =>
    case PRecover(_, _, _) =>
    case _ => hide Step;
  }

  lemma LedgerNext(w: World, a: Action, id: RunId)
    requires id in w.runs
    ensures id in Next(w, a).runs
    ensures (a.Act? && a.id == id && Next(w, a).runs[id] == Step(w.runs[id], w.now, a.e)) || Next(w, a).runs[id].ledger == w.runs[id].ledger
  {
    hide Step, FreshEverywhere;
    match a
    case ClaimNext(pick, worker) =>
      hide Admission.Eligible, RowsOf, RunRow.RecoveredStatus;
      assert Recovered(w.runs, w.now)[id] == AgentSession.Recover(w.runs[id], w.now);
    case SubmitRun(_, _, _, _, _) => hide Admission.Submit, RowsOf, Start;
    case _ =>
  }

  lemma OutcomeNext(w: World, a: Action, id: RunId, op: OpId)
    requires id in w.runs && DefiniteOp(w.runs[id], op)
    ensures id in Next(w, a).runs && op in Next(w, a).runs[id].ledger
    ensures Next(w, a).runs[id].ledger[op] == w.runs[id].ledger[op]
  {
    LedgerNext(w, a, id);
    if a.Act? && a.id == id { OutcomeStep(w.runs[id], w.now, a.e, op); }
  }

  /** A stored outcome below 500 is never replaced. */
  lemma {:induction false} OutcomeForever(w: World, history: seq<Action>, id: RunId, op: OpId)
    requires id in w.runs && DefiniteOp(w.runs[id], op)
    ensures id in After(w, history).runs && op in After(w, history).runs[id].ledger
    ensures After(w, history).runs[id].ledger[op] == w.runs[id].ledger[op]
  {
    if history != [] {
      OutcomeForever(w, history[..|history| - 1], id, op);
      OutcomeNext(After(w, history[..|history| - 1]), history[|history| - 1], id, op);
    }
  }
}
