/** What a requested stop brings about: no worker that reads its orders after it reaches for the platform or the model. */
module AgentStops {
  import opened Options
  import opened AgentTypes
  import RunnerMachine
  import opened AgentSession
  import opened AgentFleet
  import Admission
  import RunRow

  /** The worker is at the head of its loop, or about to leave. */
  predicate Halted(s: Session, v: WorkerId) {
    v in s.workers ==> s.workers[v].pc.Top? || (s.workers[v].pc.Saving? && s.workers[v].pc.next.Exit?)
  }

  lemma CancelStays(s: Session, now: int, e: Event)
    requires s.row.cancel
    ensures Step(s, now, e).row.cancel
  {
    RowChanges(s, now, e);
    hide Step;
  }

  /** An event of somebody else leaves the worker where it is. */
  lemma OthersStay(s: Session, now: int, e: Event, v: WorkerId)
    requires !(OfWorker(e) && e.w == v)
    ensures v in Step(s, now, e).workers <==> v in s.workers
    ensures v in s.workers ==> Step(s, now, e).workers[v] == s.workers[v]
  {
    if OfWorker(e) { WorkersApart(s, now, e, v); } else { PlatformApart(s, now, e); }
    hide Step;
  }

  predicate Same(s: Session, t: Session, v: WorkerId) {
    (v in t.workers <==> v in s.workers) && (v in s.workers ==> t.workers[v] == s.workers[v])
  }

  lemma WorkersApart(s: Session, now: int, e: Event, v: WorkerId)
    requires OfWorker(e) && e.w != v
    ensures Same(s, Step(s, now, e), v)
  {
    match e
    case WTop(_, _, _) => TopApart(s, now, e, v);
    case WSave(_, _) => SaveApart(s, now, e, v);
    case WLocal(_, _) => WriteApart(s, now, e, v);
    case WReply(_) => WriteApart(s, now, e, v);
    case WInterrupted(_) => WriteApart(s, now, e, v);
    case WSend(_, _) => SendApart(s, now, e, v);
    case WAsk(_) => SendApart(s, now, e, v);
    case Beat(_) => SendApart(s, now, e, v);
    case Crash(_) => SendApart(s, now, e, v);
    case _ => AnswerApart(s, now, e, v);
    hide Step;
  }

  lemma WriteApart(s: Session, now: int, e: Event, v: WorkerId)
    requires (e.WLocal? || e.WReply? || e.WInterrupted?) && e.w != v
    ensures Same(s, Step(s, now, e), v)
  {
    hide RunnerMachine.AfterWrite;
    forall w ensures Same(s, Move(s, e.w, w), v) { }
    hide Put;
  }

  lemma SendApart(s: Session, now: int, e: Event, v: WorkerId)
    requires (e.WSend? || e.WAsk? || e.Beat? || e.Crash?) && e.w != v
    ensures Same(s, Step(s, now, e), v)
  {
    hide DoBeat;
  }

  lemma AnswerApart(s: Session, now: int, e: Event, v: WorkerId)
    requires (e.WQuery? || e.WValidate? || e.WRead? || e.WCatalog? || e.WModel?) && e.w != v
    ensures Same(s, Step(s, now, e), v)
  {
    hide RunnerMachine.AfterQuery, RunnerMachine.AfterValidate, RunnerMachine.AfterRead, RunnerMachine.AfterCatalog;
    hide RunnerMachine.AfterModel, DefiniteOp;
    forall w ensures Same(s, Move(s, e.w, w), v) { }
    hide Move, Put, Same;
    assert Same(s, s, v) by { MoveNothing(s, v); }
  }

  lemma MoveNothing(s: Session, v: WorkerId)
    ensures Same(s, s, v)
  {
  }

  lemma TopApart(s: Session, now: int, e: Event, v: WorkerId)
    requires e.WTop? && e.w != v
    ensures Same(s, Step(s, now, e), v)
  {
    hide RunnerMachine.AfterBeat, DoBeat;
  }

  lemma SaveApart(s: Session, now: int, e: Event, v: WorkerId)
    requires e.WSave? && e.w != v
    ensures Same(s, Step(s, now, e), v)
  {
    hide RunnerMachine.AfterSave, RunRow.Holds, RunRow.Save, RunRow.Sealed;
  }

  lemma PlatformApart(s: Session, now: int, e: Event)
    requires !OfWorker(e)
    ensures var t := Step(s, now, e); t.workers == s.workers && t.sent == s.sent && t.asked == s.asked
  {
    hide DoRecover, DoBegin, DoFinish, DoConfirm, SetStage, RunRow.Cancel, RunRow.Resume;
  }

  /** A halted worker of a cancelled run stays halted, and neither sends nor asks. */
  lemma HaltedStep(s: Session, now: int, e: Event)
    requires s.row.cancel && OfWorker(e) && Halted(s, e.w)
    ensures Halted(Step(s, now, e), e.w)
    ensures Step(s, now, e).sent == s.sent && Step(s, now, e).asked == s.asked
  {
    hide RunnerMachine.AfterQuery, RunnerMachine.AfterWrite, RunnerMachine.AfterValidate, RunnerMachine.AfterRead;
    hide RunnerMachine.AfterCatalog, RunnerMachine.AfterModel, RunnerMachine.Branch;
  }

  lemma EventHalts(s: Session, now: int, e: Event, v: WorkerId)
    requires s.row.cancel && Halted(s, v)
    ensures Step(s, now, e).row.cancel && Halted(Step(s, now, e), v)
  {
    CancelStays(s, now, e);
    if OfWorker(e) && e.w == v { HaltedStep(s, now, e); } else { OthersStay(s, now, e, v); }
    hide Step;
  }

  /** One action of the fleet, as a cancelled run sees it: an event of its own, or at most a recovery of its row. */
  lemma SeenByCancelled(w: World, a: Action, id: RunId)
    requires id in w.runs && w.runs[id].row.cancel
    ensures id in Next(w, a).runs
    ensures var s, t := w.runs[id], Next(w, a).runs[id];
      (a.Act? && a.id == id && t == Step(s, w.now, a.e)) || (t == s.(row := t.row) && t.row.cancel)
  {
    hide Step, FreshEverywhere;
    match a
    case ClaimNext(pick, worker) =>
      hide Admission.Eligible, RunRow.RecoveredStatus, RowsOf, Halted;
      assert Recovered(w.runs, w.now)[id] == AgentSession.Recover(w.runs[id], w.now);
    case SubmitRun(_, _, _, _, _) => hide Admission.Submit, RowsOf, Start;
    case _ =>
  }

  lemma NextHalts(w: World, a: Action, id: RunId, v: WorkerId)
    requires id in w.runs && w.runs[id].row.cancel && Halted(w.runs[id], v)
    ensures id in Next(w, a).runs && Next(w, a).runs[id].row.cancel && Halted(Next(w, a).runs[id], v)
  {
    SeenByCancelled(w, a, id);
    if a.Act? && a.id == id { EventHalts(w.runs[id], w.now, a.e, v); }
    hide Step, Next;
  }

  lemma {:induction false} StaysHalted(w: World, history: seq<Action>, id: RunId, v: WorkerId)
    requires id in w.runs && w.runs[id].row.cancel && Halted(w.runs[id], v)
    ensures id in After(w, history).runs && After(w, history).runs[id].row.cancel && Halted(After(w, history).runs[id], v)
  {
    hide Halted, Next;
    if history != [] {
      StaysHalted(w, history[..|history| - 1], id, v);
      NextHalts(After(w, history[..|history| - 1]), history[|history| - 1], id, v);
    }
  }

  /** A stop once requested stands, and a worker at the head of its loop, then or later, sends no write and asks no
      model any more: none of its events, at any later point of any history, adds to what was sent or asked. */
  lemma StopIsFinal(w: World, history: seq<Action>, id: RunId, v: WorkerId, event: Event)
    requires id in w.runs && w.runs[id].row.cancel
    requires v in w.runs[id].workers ==> w.runs[id].workers[v].pc.Top?
    requires OfWorker(event) && event.w == v
    ensures id in After(w, history).runs && After(w, history).runs[id].row.cancel
    ensures var u := After(w, history);
      var s, t := u.runs[id], Step(u.runs[id], u.now, event);
      t.sent == s.sent && t.asked == s.asked
  {
    StaysHalted(w, history, id, v);
    HaltedStep(After(w, history).runs[id], After(w, history).now, event);
  }

  lemma EventSilent(s: Session, now: int, e: Event)
    requires s.row.cancel && forall v :: Halted(s, v)
    ensures Step(s, now, e).sent == s.sent && Step(s, now, e).asked == s.asked
  {
    if OfWorker(e) {
      assert Halted(s, e.w);
      HaltedStep(s, now, e);
    } else {
      PlatformApart(s, now, e);
    }
    hide Step, Halted;
  }

  lemma NextSilent(w: World, a: Action, id: RunId)
    requires id in w.runs && w.runs[id].row.cancel && forall v :: Halted(w.runs[id], v)
    ensures id in Next(w, a).runs && Next(w, a).runs[id].row.cancel && forall v :: Halted(Next(w, a).runs[id], v)
    ensures Next(w, a).runs[id].sent == w.runs[id].sent && Next(w, a).runs[id].asked == w.runs[id].asked
  {
    hide Step, Next, Halted;
    SeenByCancelled(w, a, id);
    NextHalts(w, a, id, 0);
    forall v ensures Halted(Next(w, a).runs[id], v) {
      NextHalts(w, a, id, v);
    }
    if a.Act? && a.id == id { EventSilent(w.runs[id], w.now, a.e); }
  }

  /** Once every worker of a stopped run is at the head of its loop, the run is silent for good. */
  lemma {:induction false} StopSilences(w: World, history: seq<Action>, id: RunId)
    requires id in w.runs && w.runs[id].row.cancel
    requires forall v :: v in w.runs[id].workers ==> w.runs[id].workers[v].pc.Top?
    ensures id in After(w, history).runs
    ensures After(w, history).runs[id].sent == w.runs[id].sent && After(w, history).runs[id].asked == w.runs[id].asked
  {
    SilentAlong(w, history, id);
  }

  lemma {:induction false} SilentAlong(w: World, history: seq<Action>, id: RunId)
    requires id in w.runs && w.runs[id].row.cancel && forall v :: Halted(w.runs[id], v)
    ensures id in After(w, history).runs && After(w, history).runs[id].row.cancel
    ensures forall v :: Halted(After(w, history).runs[id], v)
    ensures After(w, history).runs[id].sent == w.runs[id].sent && After(w, history).runs[id].asked == w.runs[id].asked
  {
    hide Halted, Next;
    if history != [] {
      SilentAlong(w, history[..|history| - 1], id);
      NextSilent(After(w, history[..|history| - 1]), history[|history| - 1], id);
    }
  }
}
