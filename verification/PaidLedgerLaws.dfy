/** What an answer, a missing answer and an operator's decision mean for the next request of a paid stage. */
module PaidLedgerLaws {
  import opened Options
  import opened PaidLedger
  import opened PaidLedgerRuns
  import opened PaidLedgerTheorems

  /** Nobody dispatches or resolves the stage in the moves from `i` to `j`. */
  ghost predicate Quiet(moves: seq<Move>, i: nat, j: nat, k: Key)
    requires i <= j <= |moves|
  {
    forall m :: i <= m < j ==>
      !(moves[m].Resolving? && moves[m].key == k) && !(moves[m].Begins? && moves[m].key == k && moves[m].answer.Go?)
  }

  /** Nobody waits for the stage. */
  ghost predicate Idle(w: World, k: Key) { k !in w.flight }

  lemma StepRests(w: World, m: Move, v: World, k: Key)
    requires Takes(w, m, v) && k.stage.Model? && Quiet([m], 0, 1, k)
    requires (k in w.flight ==> !(m.Completes? && m.key == k))
    ensures RowOf(v.t.stages, k) == RowOf(w.t.stages, k)
    ensures Idle(w, k) ==> Idle(v, k)
  {
    assert [m][0] == m;
    match m
    case Begins(key, h, now, answer) => if answer.Go? { RowOfPut(w.t.stages, ChargedRow(w.t.stages, key, h), k); }
    case Completes(key, response, now) =>
      var row := RowOf(w.t.stages, key);
      if row.Some? { RowOfPut(w.t.stages, SettledRow(row.value, response, now), k); }
    case Resolving(key, retry) => RowOfPut(w.t.stages, ResolvedRow(RowOf(w.t.stages, key).value, retry), k);
    case BeginsLocal(key, h) => RowOfPut(w.t.stages, ChargedRow(w.t.stages, key, h), k);
    case _ =>
  }

  /** While nobody dispatches or resolves a stage that nobody waits for, its row rests. */
  lemma {:induction false} RowRests(worlds: seq<World>, moves: seq<Move>, i: nat, j: nat, k: Key)
    requires Run(worlds, moves) && i <= j <= |moves| && k.stage.Model? && Idle(worlds[i], k) && Quiet(moves, i, j, k)
    ensures RowOf(worlds[j].t.stages, k) == RowOf(worlds[i].t.stages, k) && Idle(worlds[j], k)
    decreases j
  {
    hide Takes;
    if i < j {
      RowRests(worlds, moves, i, j - 1, k);
      assert Takes(worlds[j - 1], moves[j - 1], worlds[j - 1 + 1]);
      CompletesInFlight(worlds[j - 1], moves[j - 1], worlds[j], k);
      StepRests(worlds[j - 1], moves[j - 1], worlds[j], k);
    }
  }

  lemma CompletesInFlight(w: World, m: Move, v: World, k: Key)
    requires Takes(w, m, v) && Idle(w, k)
    ensures !(m.Completes? && m.key == k)
  {
  }

  predicate Spent(t: Tables, k: Key) { Attempts(t.stages, k) >= 3 || Paid(t.stages, k.sample) >= 6 }

  /**
   * After an answer, the next request of the stage with the same input gets: the answer itself, when it was final;
   * nothing, when the outcome is unknown; and after a retryable or deferred one a new dispatch, within the budgets, not
   * before the provider's wait is over.
   */
  lemma AnswerDecidesNext(worlds: seq<World>, moves: seq<Move>, i: nat, j: nat)
    requires Run(worlds, moves) && i < j < |moves| && moves[i].Completes? && moves[i].key.stage.Model?
    requires moves[j].Begins? && moves[j].key == moves[i].key && Quiet(moves, i + 1, j, moves[i].key)
    requires RowOf(worlds[i].t.stages, moves[i].key).Some? ==> RowOf(worlds[i].t.stages, moves[i].key).value.hash == moves[j].hash
    ensures var k, r, answer, t := moves[i].key, moves[i].response, moves[j].answer, worlds[j].t;
      match r.kind
      case Okay => answer == Replay(r)
      case Fatal => answer == Replay(r)
      case Other => answer == Replay(r)
      case Uncertain => answer == Unresolved
      case _ =>
        if Spent(t, k) then answer == Exhausted
        else r.wait.Some? && if moves[j].now < moves[i].now + r.wait.value then answer == Wait(moves[i].now + r.wait.value)
        else k.sample in t.samples ==> answer == Go
  {
    var k, r := moves[i].key, moves[i].response;
    RunIsCalm(worlds, moves, i, k);
    assert Takes(worlds[i], moves[i], worlds[i + 1]);
    assert Takes(worlds[j], moves[j], worlds[j + 1]);
    RowOfPut(worlds[i].t.stages, SettledRow(RowOf(worlds[i].t.stages, k).value, r, moves[i].now), k);
    assert Idle(worlds[i + 1], k);
    RowRests(worlds, moves, i + 1, j, k);
    var row := SettledRow(RowOf(worlds[i].t.stages, k).value, r, moves[i].now);
    hide Run, Quiet, Takes, Settles, Charges, Calm, RowOf, Attempts;
    NextAnswer(worlds[j].t, row, r, moves[i].now, moves[j].hash, moves[j].now, moves[j].answer);
  }

  lemma NextAnswer(t: Tables, row: Row, r: Response, before: int, h: Hash, now: int, answer: Begun)
    requires RowOf(t.stages, row.key) == Some(row) && row.hash == h && row.response == Some(r) && Sound(r)
    requires row.status == StatusOf(r.kind) && row.nextAt == before + r.wait.value
    requires Due(t, row.key, h, now, answer)
    ensures match r.kind
      case Okay => answer == Replay(r)
      case Fatal => answer == Replay(r)
      case Other => answer == Replay(r)
      case Uncertain => answer == Unresolved
      case _ =>
        if Spent(t, row.key) then answer == Exhausted
        else if now < before + r.wait.value then answer == Wait(before + r.wait.value)
        else row.key.sample in t.samples ==> answer == Go
  {
  }

  /** A dispatch without an answer blocks the stage until an operator decides. */
  lemma SilenceBlocks(worlds: seq<World>, moves: seq<Move>, i: nat, j: nat)
    requires Run(worlds, moves) && i < j < |moves| && moves[i].Begins? && moves[i].answer.Go?
    requires moves[j].Begins? && moves[j].key == moves[i].key && moves[j].hash == moves[i].hash
    requires Quiet(moves, i + 1, j, moves[i].key)
    requires forall m :: i < m < j ==> !(moves[m].Completes? && moves[m].key == moves[i].key)
    ensures moves[j].answer == Unresolved
  {
    var k := moves[i].key;
    assert Takes(worlds[i], moves[i], worlds[i + 1]);
    assert Takes(worlds[j], moves[j], worlds[j + 1]);
    RowOfPut(worlds[i].t.stages, ChargedRow(worlds[i].t.stages, k, moves[i].hash), k);
    PendingRests(worlds, moves, i + 1, j, k);
  }

  lemma {:induction false} PendingRests(worlds: seq<World>, moves: seq<Move>, i: nat, j: nat, k: Key)
    requires Run(worlds, moves) && i <= j <= |moves| && k.stage.Model? && Quiet(moves, i, j, k)
    requires forall m :: i <= m < j ==> !(moves[m].Completes? && moves[m].key == k)
    ensures RowOf(worlds[j].t.stages, k) == RowOf(worlds[i].t.stages, k)
    decreases j
  {
    hide Takes;
    if i < j {
      PendingRests(worlds, moves, i, j - 1, k);
      assert Takes(worlds[j - 1], moves[j - 1], worlds[j - 1 + 1]);
      StepRests(worlds[j - 1], moves[j - 1], worlds[j], k);
    }
  }

  /**
   * An operator's decision: "retry" lets the next request go at once, within the budgets; "fail" gives the stage up.
   */
  lemma OperatorDecidesNext(worlds: seq<World>, moves: seq<Move>, i: nat, j: nat)
    requires Run(worlds, moves) && i < j < |moves| && moves[i].Resolving? && moves[i].key.stage.Model?
    requires moves[j].Begins? && moves[j].key == moves[i].key && moves[j].now >= 0
    requires Quiet(moves, i + 1, j, moves[i].key)
    requires forall m :: i < m < j ==> !(moves[m].Completes? && moves[m].key == moves[i].key)
    requires RowOf(worlds[i].t.stages, moves[i].key).Some? ==> RowOf(worlds[i].t.stages, moves[i].key).value.hash == moves[j].hash
    ensures var k, answer, t := moves[i].key, moves[j].answer, worlds[j].t;
      if !moves[i].retry then answer.GaveUp?
      else if Spent(t, k) then answer == Exhausted
      else k.sample in t.samples ==> answer == Go
  {
    var k := moves[i].key;
    assert Takes(worlds[i], moves[i], worlds[i + 1]);
    assert Takes(worlds[j], moves[j], worlds[j + 1]);
    RowOfPut(worlds[i].t.stages, ResolvedRow(RowOf(worlds[i].t.stages, k).value, moves[i].retry), k);
    PendingRests(worlds, moves, i + 1, j, k);
  }

  /** An operator may decide after an unknown outcome or one blocked by configuration, and after no other answer. */
  lemma AnswerDecidesOperator(worlds: seq<World>, moves: seq<Move>, i: nat, j: nat)
    requires Run(worlds, moves) && i < j <= |moves| && moves[i].Completes? && moves[i].key.stage.Model?
    requires Quiet(moves, i + 1, j, moves[i].key)
    ensures Resolvable(RowOf(worlds[j].t.stages, moves[i].key)) <==> moves[i].response.kind in {Uncertain, Fatal}
  {
    var k, r := moves[i].key, moves[i].response;
    RunIsCalm(worlds, moves, i, k);
    assert Takes(worlds[i], moves[i], worlds[i + 1]);
    RowOfPut(worlds[i].t.stages, SettledRow(RowOf(worlds[i].t.stages, k).value, r, moves[i].now), k);
    assert Idle(worlds[i + 1], k);
    RowRests(worlds, moves, i + 1, j, k);
  }

  // ---- What a sample costs, by the log alone

  predicate PaidFor(e: Event, sample: SampleId) { e.Dispatch? && e.key.sample == sample && e.key.stage.Model? }

  predicate HandedBack(e: Event, sample: SampleId) {
    e.Settled? && e.key.sample == sample && e.key.stage.Model? && e.response.kind == Deferred
  }

  /** The requests sent to models for a sample, less those that were handed back unsent. */
  function Spending(log: seq<Event>, sample: SampleId): int {
    if log == [] then 0
    else
      var e := log[|log| - 1];
      Spending(log[..|log| - 1], sample) + (if PaidFor(e, sample) then 1 else 0) - (if HandedBack(e, sample) then 1 else 0)
  }

  lemma SpendingMore(log: seq<Event>, e: Event, sample: SampleId)
    ensures Spending(log + [e], sample) ==
      Spending(log, sample) + (if PaidFor(e, sample) then 1 else 0) - (if HandedBack(e, sample) then 1 else 0)
  {
    assert (log + [e])[..|log + [e]| - 1] == log;
  }

  lemma SettleSpends(w: World, m: Move, v: World, sample: SampleId)
    requires Takes(w, m, v) && m.Completes? && Paid(w.t.stages, sample) == Spending(w.t.events, sample)
    requires m.key.stage.Model? ==> RowOf(w.t.stages, m.key).Some? && Attempts(w.t.stages, m.key) >= 1
    ensures Paid(v.t.stages, sample) == Spending(v.t.events, sample)
  {
    var row := RowOf(w.t.stages, m.key);
    SpendingMore(w.t.events, Settled(m.key, StatusOf(m.response.kind), m.response), sample);
    if row.Some? { PaidPut(w.t.stages, SettledRow(row.value, m.response, m.now), sample); }
  }

  lemma StepSpends(w: World, m: Move, v: World, sample: SampleId)
    requires Takes(w, m, v) && Paid(w.t.stages, sample) == Spending(w.t.events, sample)
    requires m.Completes? && m.key.stage.Model? ==> RowOf(w.t.stages, m.key).Some? && Attempts(w.t.stages, m.key) >= 1
    ensures Paid(v.t.stages, sample) == Spending(v.t.events, sample)
  {
    hide Spending, Paid, Put, Describes, RowOf;
    match m
    case Begins(key, h, now, answer) =>
      SpendingMore(w.t.events, Dispatch(key, Attempts(w.t.stages, key) + 1, h), sample);
      if answer.Go? { PaidPut(w.t.stages, ChargedRow(w.t.stages, key, h), sample); }
    case Completes(_, _, _) => SettleSpends(w, m, v, sample);
    case Resolving(key, retry) =>
      SpendingMore(w.t.events, Resolution(key, retry), sample);
      PaidPut(w.t.stages, ResolvedRow(RowOf(w.t.stages, key).value, retry), sample);
    case BeginsLocal(key, h) => PaidPut(w.t.stages, ChargedRow(w.t.stages, key, h), sample);
    case Freezing(s, _) => SpendingMore(w.t.events, Locked(s), sample);
    case Confirming(s, tag, _) =>
      if v.t.events != w.t.events { SpendingMore(w.t.events, Annotated(s, tag, w.t.samples[s].order), sample); }
    case _ =>
  }

  /** In every run, at most six requests to models are paid for a sample, by what the log says was sent. */
  lemma {:induction false} SampleBudgetHolds(worlds: seq<World>, moves: seq<Move>, i: nat, sample: SampleId)
    requires Run(worlds, moves) && i < |worlds|
    ensures Paid(worlds[i].t.stages, sample) == Spending(worlds[i].t.events, sample) <= 6
  {
    RunKeepsBooks(worlds, moves, i);
    if i > 0 {
      SampleBudgetHolds(worlds, moves, i - 1, sample);
      RunKeepsBooks(worlds, moves, i - 1);
      assert Takes(worlds[i - 1], moves[i - 1], worlds[i - 1 + 1]);
      AnswersAreCovered(worlds[i - 1], moves[i - 1], worlds[i]);
      hide Takes, Books;
      StepSpends(worlds[i - 1], moves[i - 1], worlds[i], sample);
    }
  }

  lemma AnswersAreCovered(w: World, m: Move, v: World)
    requires Takes(w, m, v) && Books(w)
    ensures m.Completes? && m.key.stage.Model? ==> RowOf(w.t.stages, m.key).Some? && Attempts(w.t.stages, m.key) >= 1
  {
    if m.Completes? && m.key.stage.Model? { assert Balanced(w.t, w.flight, m.key); }
  }
}
