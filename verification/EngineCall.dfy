/** The engine's paid call: the loop between the ledger and the provider. */
module EngineCall {
  import opened Options
  import opened PaidLedger
  import opened PaidLedgerRuns

  /** One turn of the loop as the outside world decides it: the clock, and the answer if a request is sent. */
  datatype Turn = Turn(now: int, answer: Response, timeLeft: bool, backoff: nat)

  datatype Outcome =
    | Returned(response: Response)
    | Gave(error: string)
    | OutcomeUnknown
    | ConfigurationBlocked
    | RetryDeferred(until: int)
    | Rejected
    | StillTrying

  const OUT_OF_TIME := Response(Other, true, Some(0), "", "sample remote time budget exhausted")

  /** What is recorded for a turn: without time left nothing is sent, and a retry waits at least its backoff. */
  function Recorded(turn: Turn): Response {
    if !turn.timeLeft then OUT_OF_TIME
    else if turn.answer.kind == Retryable && turn.answer.wait.Some? && turn.answer.wait.value < turn.backoff
    then turn.answer.(wait := Some(turn.backoff))
    else turn.answer
  }

  /** A turn the ledger hands back: the transport deferred it without sending anything. */
  predicate FreeOfCharge(turn: Turn) { Sound(Recorded(turn)) && Recorded(turn).kind == Kind.Deferred }

  function HandedBack(turns: seq<Turn>): nat {
    if turns == [] then 0
    else HandedBack(turns[..|turns| - 1]) + if FreeOfCharge(turns[|turns| - 1]) then 1 else 0
  }

  /** How `call` ends on a response it was given, or None to go round again. */
  function Verdict(response: Response): Option<Outcome> {
    match response.kind
    case Uncertain => Some(OutcomeUnknown)
    case Fatal => Some(ConfigurationBlocked)
    case Retryable => None
    case Deferred => None
    case Okay => Some(Returned(response))
    case Other => Some(Returned(response))
  }

  /** How the answer of a turn ends the call, and how long a retry has to wait. */
  lemma AnswersMean(turn: Turn)
    ensures !turn.timeLeft ==>
      var end := Verdict(Recorded(turn));
      end.Some? && end.value.Returned? && end.value.response.kind == Other && end.value.response.notDispatched
    ensures turn.timeLeft ==>
      match turn.answer.kind
      case Okay => Verdict(Recorded(turn)) == Some(Returned(turn.answer))
      case Other => Verdict(Recorded(turn)) == Some(Returned(turn.answer))
      case Uncertain => Verdict(Recorded(turn)) == Some(OutcomeUnknown)
      case Fatal => Verdict(Recorded(turn)) == Some(ConfigurationBlocked)
      case Deferred => Verdict(Recorded(turn)) == None && Recorded(turn) == turn.answer
      case Retryable => Verdict(Recorded(turn)) == None
    ensures turn.timeLeft && turn.answer.kind == Retryable && turn.answer.wait.Some? ==>
      var r := Recorded(turn);
      && r == turn.answer.(wait := r.wait) && r.wait.Some?
      && r.wait.value >= turn.backoff && r.wait.value >= turn.answer.wait.value
      && (r.wait.value == turn.backoff || r.wait.value == turn.answer.wait.value)
  {
  }

  /** One turn: ask the ledger, and when it charges an attempt, send the request and settle the answer. */
  method Once(ledger: Ledger, key: Key, h: Hash, turn: Turn) returns (begun: Begun, ok: bool)
    requires key.stage.Model? && Answered(ledger.Contents())
    modifies ledger
    ensures Answered(ledger.Contents())
    ensures !begun.Go? ==> ledger.Contents() == old(ledger.Contents())
    ensures begun.Replay? ==> Verdict(begun.response).Some?
    ensures begun.Go? ==> Dispatches(ledger.events, key) == old(Dispatches(ledger.events, key)) + 1
    ensures begun.Go? ==> old(Attempts(ledger.stages, key)) < MAX_ATTEMPTS
    ensures begun.Go? ==>
      Attempts(ledger.stages, key) == old(Attempts(ledger.stages, key)) + if FreeOfCharge(turn) then 0 else 1
    ensures begun.Go? ==> ok == Sound(Recorded(turn))
    ensures begun.Go? && ok ==>
      RowOf(ledger.stages, key).Some? && RowOf(ledger.stages, key).value.nextAt == turn.now + Recorded(turn).wait.value
    ensures Due(old(ledger.Contents()), key, h, turn.now, begun)
  {
    hide Recorded, Dispatches, Sound;
    ok := true;
    ghost var before := ledger.Contents();
    begun := ledger.Begin(key, h, turn.now);
    if begun.Go? {
      OneTurn(before, ledger.Contents(), key, h, turn.now);
      ghost var charged := ledger.Contents();
      ok := ledger.Complete(key, Recorded(turn), turn.now);
      if ok { OneAnswer(charged, ledger.Contents(), key, Recorded(turn), turn.now); }
    }
  }

  /** Nothing stands in the way of a request: the stage is new, or its retry is due, and the budgets are not spent. */
  predicate WouldGo(t: Tables, key: Key, h: Hash, now: int) {
    && key.sample in t.samples && Paid(t.stages, key.sample) < 6
    && match RowOf(t.stages, key)
       case None => true
       case Some(row) => row.hash == h && row.status == Retry && row.nextAt <= now && row.attempts < 3
  }

  /** What the ledger already knows of a stage ends the call before anything is sent. */
  function Settling(t: Tables, key: Key, h: Hash): Option<Outcome> {
    match RowOf(t.stages, key)
    case None => None
    case Some(row) =>
      if row.hash != h then Some(Rejected)
      else if row.status == Done && row.response.Some? then Some(Returned(row.response.value))
      else if row.status == Pending || row.status == Unknown then Some(OutcomeUnknown)
      else None
  }

  lemma FirstTurn(t: Tables, key: Key, h: Hash, now: int, begun: Begun)
    requires Due(t, key, h, now, begun) && Answered(t)
    ensures WouldGo(t, key, h, now) ==> begun.Go?
    ensures Settling(t, key, h).Some? ==>
      match begun
      case Replay(response) => Verdict(response) == Settling(t, key, h)
      case Unresolved => Settling(t, key, h).value == OutcomeUnknown
      case InputChanged => Settling(t, key, h).value == Rejected
      case _ => false
  {
  }

  /**
   * `sent` turns of the script are used up, each charged and logged before it is sent and settled after; beyond
   * the deferred ones there are at most three, whatever the provider answers.
   */
  method Call(ledger: Ledger, key: Key, h: Hash, script: seq<Turn>) returns (outcome: Outcome, sent: nat)
    requires key.stage.Model? && Answered(ledger.Contents())
    requires Attempts(ledger.stages, key) <= MAX_ATTEMPTS
    modifies ledger
    ensures sent <= |script| && Answered(ledger.Contents())
    ensures Dispatches(ledger.events, key) == old(Dispatches(ledger.events, key)) + sent
    ensures Attempts(ledger.stages, key) == old(Attempts(ledger.stages, key)) + sent - HandedBack(script[..sent]) <= MAX_ATTEMPTS
    ensures sent - HandedBack(script[..sent]) <= MAX_ATTEMPTS
    ensures forall i :: 0 <= i < sent - 1 ==> Sound(Recorded(script[i])) && Verdict(Recorded(script[i])).None?
    ensures sent > 0 && Sound(Recorded(script[sent - 1])) && Verdict(Recorded(script[sent - 1])).Some? ==>
      outcome == Verdict(Recorded(script[sent - 1])).value
    ensures outcome == StillTrying ==> sent == |script|
    ensures script != [] && WouldGo(old(ledger.Contents()), key, h, script[0].now) ==> sent > 0
    ensures script != [] && Settling(old(ledger.Contents()), key, h).Some? ==>
      sent == 0 && outcome == Settling(old(ledger.Contents()), key, h).value
  {
    hide Dispatches, Attempts, Sound, Recorded, Answered, Due, WouldGo, Settling;
    sent := 0;
    while sent < |script|
      invariant sent <= |script| && Answered(ledger.Contents())
      invariant sent == 0 ==> ledger.Contents() == old(ledger.Contents())
      invariant sent > 0 ==> Settling(old(ledger.Contents()), key, h).None?
      invariant Dispatches(ledger.events, key) == old(Dispatches(ledger.events, key)) + sent
      invariant Attempts(ledger.stages, key) == old(Attempts(ledger.stages, key)) + sent - HandedBack(script[..sent]) <= MAX_ATTEMPTS
      invariant forall i :: 0 <= i < sent ==> Sound(Recorded(script[i])) && Verdict(Recorded(script[i])).None?
      decreases |script| - sent
    {
      var turn := script[sent];
      ghost var before := ledger.Contents();
      var begun, ok := Once(ledger, key, h, turn);
      FirstTurn(before, key, h, turn.now, begun);
      match begun
      case Go =>
        assert script[..sent + 1][..sent] == script[..sent];
        sent := sent + 1;
        if !ok { return Rejected, sent; }
        var verdict := Verdict(Recorded(turn));
        if verdict.Some? { return verdict.value, sent; }
      case Replay(response) => return Verdict(response).value, sent;
      case GaveUp(error) => return Gave(error), sent;
      case Exhausted => return Gave("attempt budget exhausted"), sent;
      case Wait(until) => return RetryDeferred(until), sent;
      case Unresolved => return OutcomeUnknown, sent;
      case InputChanged => return Rejected, sent;
      case Unregistered => return Rejected, sent;
    }
    outcome := StillTrying;
  }

  lemma OneTurn(a: Tables, b: Tables, key: Key, h: Hash, now: int)
    requires key.stage.Model? && Due(a, key, h, now, Go) && Charges(a, b, key, h) && Answered(a)
    ensures Attempts(b.stages, key) == Attempts(a.stages, key) + 1 <= MAX_ATTEMPTS
    ensures Dispatches(b.events, key) == Dispatches(a.events, key) + 1
    ensures RowOf(b.stages, key).Some? && Answered(b)
  {
    RowOfPut(a.stages, ChargedRow(a.stages, key, h), key);
    Counts(a.events, Dispatch(key, Attempts(a.stages, key) + 1, h), key);
    PutMembers(a.stages, ChargedRow(a.stages, key, h));
  }

  lemma OneAnswer(a: Tables, b: Tables, key: Key, response: Response, now: int)
    requires Sound(response) && Settles(a, b, key, response, now) && Answered(a)
    requires RowOf(a.stages, key).Some? && Attempts(a.stages, key) > 0
    ensures Attempts(b.stages, key) == Attempts(a.stages, key) - if response.kind == Kind.Deferred then 1 else 0
    ensures Dispatches(b.events, key) == Dispatches(a.events, key) && Answered(b)
    ensures RowOf(b.stages, key).Some? && RowOf(b.stages, key).value.status == StatusOf(response.kind)
    ensures RowOf(b.stages, key).value.nextAt == now + response.wait.value
  {
    var row := SettledRow(RowOf(a.stages, key).value, response, now);
    RowOfPut(a.stages, row, key);
    Counts(a.events, Settled(key, StatusOf(response.kind), response), key);
    PutMembers(a.stages, row);
  }

  lemma {:induction false} PutMembers(stages: seq<Row>, row: Row)
    ensures forall r :: r in Put(stages, row) ==> r in stages || r == row
  {
    if stages != [] && stages[0].key != row.key { PutMembers(stages[1..], row); }
  }
}
