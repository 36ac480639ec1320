/** The run table as a whole: quotas at submission, the fleet-wide claim, and what both bound. */
module Admission {
  import opened Options
  import opened AgentTypes
  import opened Sets
  import opened Texts
  import RunRow

  type Rows = map<RunId, Row>

  const MAX_RUNNING := 8
  const MAX_RUNNING_PER_OWNER := 2
  const MAX_ACTIVE_PER_OWNER := 8
  const MAX_QUEUE := 128
  const MAX_INPUT := 16000

  function RunningAll(rows: Rows): set<RunId> {
    set id | id in rows && rows[id].status.Running?
  }

  function RunningOf(rows: Rows, owner: Owner): set<RunId> {
    set id | id in rows && rows[id].status.Running? && rows[id].owner == owner
  }

  function ActiveIn(rows: Rows, conv: Conv): set<RunId> {
    set id | id in rows && rows[id].status.Active() && rows[id].conv == conv
  }

  function ActiveOf(rows: Rows, owner: Owner): set<RunId> {
    set id | id in rows && rows[id].status.Active() && rows[id].owner == owner
  }

  function Backlog(rows: Rows): set<RunId> {
    set id | id in rows && (rows[id].status.Queued? || rows[id].status.Running?)
  }

  function SameKey(rows: Rows, owner: Owner, key: nat): set<RunId> {
    set id | id in rows && rows[id].owner == owner && rows[id].key == key
  }

  ghost predicate Limits(rows: Rows) {
    && |RunningAll(rows)| <= MAX_RUNNING
    && (forall o: Owner :: |RunningOf(rows, o)| <= MAX_RUNNING_PER_OWNER)
    && (forall c: Conv :: |ActiveIn(rows, c)| <= 1)
    && (forall o: Owner :: |ActiveOf(rows, o)| <= MAX_ACTIVE_PER_OWNER)
    && UniqueKeys(rows)
  }

  ghost predicate UniqueKeys(rows: Rows) {
    forall i, j :: i in rows && j in rows && rows[i].owner == rows[j].owner && rows[i].key == rows[j].key ==> i == j
  }

  function NewRow(now: int, owner: Owner, conv: Conv, key: nat, input: string, grant: Token): Row {
    Row(conv, owner, key, input, now, Queued, FreshState, Some(grant), 0, None, false)
  }

  /** Why a submission is refused, or `None`. */
  function Refusal(rows: Rows, convs: map<Conv, Owner>, owner: Owner, conv: Conv): Option<Fault> {
    if !(conv in convs && convs[conv] == owner) then Some(Fault(404))
    else if |ActiveIn(rows, conv)| > 0 then Some(Fault(409))
    else if |ActiveOf(rows, owner)| >= MAX_ACTIVE_PER_OWNER || |Backlog(rows)| >= MAX_QUEUE then Some(Fault(429))
    else None
  }

  /**
   * What the caller sends: a text that may be no valid UTF-8 and a key that may be no UUID (`None` in both cases).
   * White space around the text is not part of it.
   */
  datatype Request = Request(text: Option<string>, key: Option<nat>) {
    predicate Sound() { text.Some? && Trim(text.value) != "" && Bytes(Trim(text.value)) <= MAX_INPUT && key.Some? }
  }

  /** `id` is the identifier a new run would get. The answer is the run the caller sees. */
  ghost function Submit(rows: Rows, convs: map<Conv, Owner>, now: int, id: RunId, owner: Owner, conv: Conv, request: Request, grant: Token)
    : (Rows, Result<RunId>)
  {
    if !request.Sound() then (rows, Err(Fault(422)))
    else Admit(rows, convs, now, id, owner, conv, request.key.value, Trim(request.text.value), grant)
  }

  ghost function Admit(rows: Rows, convs: map<Conv, Owner>, now: int, id: RunId, owner: Owner, conv: Conv, key: nat, input: string, grant: Token)
    : (Rows, Result<RunId>)
  {
    if SameKey(rows, owner, key) != {} then
      var prior: RunId :| prior in SameKey(rows, owner, key);
      if rows[prior].conv != conv || rows[prior].input != input then (rows, Err(Fault(409))) else (rows, Ok(prior))
    else
      match Refusal(rows, convs, owner, conv)
      case Some(f) => (rows, Err(f))
      case None => (rows[id := NewRow(now, owner, conv, key, input, grant)], Ok(id))
  }

  /** Every expired lease is recovered at once. */
  function RecoverAll(rows: Rows, now: int): Rows {
    map id | id in rows :: if RunRow.Expired(rows[id], now) then RunRow.Recover(rows[id]) else rows[id]
  }

  /** The worker of a run is taken for dead: its lease has passed. */
  predicate Lapsed(r: Row, now: int) { r.status == Running && r.lease.Some? && r.lease.value < now }

  /** What becomes of a lapsed run: it is queued again as it was, unless a model request or a stopped write may be
      under way, whose outcome nobody knows, or a stop was requested. */
  predicate TakenBack(r: Row, q: Row) {
    && (q.status == Queued <==> !r.cancel && !r.state.modelPending)
    && (q.status == Unknown <==> r.state.modelPending || (r.cancel && r.state.writePending))
    && (q.status == Cancelled <==> r.cancel && !r.state.modelPending && !r.state.writePending)
    && (q.status == Queued ==> q.state == r.state && q.grant == r.grant)
    && (q.status != Queued ==> q.state == r.state.(receipt := None) && q.grant == None)
    && q.lease == None && q.epoch > r.epoch && q.cancel == r.cancel && Identity(q) == Identity(r)
  }

  function Identity(r: Row): (Conv, Owner, nat, string, int) { (r.conv, r.owner, r.key, r.input, r.created) }

  /** The sweep takes back exactly the lapsed runs. */
  lemma SweepTakesBack(rows: Rows, now: int, id: RunId)
    requires id in rows
    ensures var q := RecoverAll(rows, now)[id]; if Lapsed(rows[id], now) then TakenBack(rows[id], q) else q == rows[id]
  {
  }

  predicate Eligible(rows: Rows, id: RunId) {
    && id in rows && rows[id].status.Queued? && !rows[id].cancel
    && |RunningAll(rows)| < MAX_RUNNING
    && |RunningOf(rows, rows[id].owner)| < MAX_RUNNING_PER_OWNER
  }

  /** The claim order: fewest runs of the owner under way, then age. */
  predicate Before(rows: Rows, i: RunId, j: RunId)
    requires i in rows && j in rows
  {
    var a, b := |RunningOf(rows, rows[i].owner)|, |RunningOf(rows, rows[j].owner)|;
    a < b || (a == b && rows[i].created <= rows[j].created)
  }

  predicate Best(rows: Rows, id: RunId) {
    Eligible(rows, id) && forall j :: j in rows && Eligible(rows, j) ==> Before(rows, id, j)
  }

  /*** Limits are kept ***/

  /** How one row may change outside a claim: it never starts to run and never becomes active again. */
  predicate Evolves(r: Row, q: Row) {
    && q.owner == r.owner && q.conv == r.conv && q.key == r.key && q.input == r.input && q.created == r.created
    && (q.status.Active() ==> r.status.Active())
    && (q.status.Running? ==> r.status.Running?)
    && r.epoch <= q.epoch
  }

  predicate AllEvolve(rows: Rows, next: Rows) {
    next.Keys == rows.Keys && forall id :: id in rows ==> Evolves(rows[id], next[id])
  }

  lemma {:induction false} EvolutionKeepsLimits(rows: Rows, next: Rows)
    requires Limits(rows) && AllEvolve(rows, next)
    ensures Limits(next)
  {
    Smaller(RunningAll(next), RunningAll(rows));
    forall o: Owner ensures |RunningOf(next, o)| <= MAX_RUNNING_PER_OWNER { Smaller(RunningOf(next, o), RunningOf(rows, o)); }
    forall c: Conv ensures |ActiveIn(next, c)| <= 1 { Smaller(ActiveIn(next, c), ActiveIn(rows, c)); }
    forall o: Owner ensures |ActiveOf(next, o)| <= MAX_ACTIVE_PER_OWNER { Smaller(ActiveOf(next, o), ActiveOf(rows, o)); }
    forall i, j | i in next && j in next && next[i].owner == next[j].owner && next[i].key == next[j].key
      ensures i == j
    {
      assert Evolves(rows[i], next[i]) && Evolves(rows[j], next[j]);
    }
  }

  lemma RecoveryEvolves(rows: Rows, now: int)
    ensures AllEvolve(rows, RecoverAll(rows, now))
  {}

  lemma ClaimSets(rows: Rows, id: RunId, now: int)
    requires Eligible(rows, id)
    ensures var next := rows[id := RunRow.Claim(rows[id], now)];
      && RunningAll(next) == RunningAll(rows) + {id}
      && (forall o: Owner :: RunningOf(next, o) == if o == rows[id].owner then RunningOf(rows, o) + {id} else RunningOf(rows, o))
  {}

  lemma ClaimActives(rows: Rows, id: RunId, now: int)
    requires Eligible(rows, id)
    ensures var next := rows[id := RunRow.Claim(rows[id], now)];
      && (forall c: Conv :: ActiveIn(next, c) == ActiveIn(rows, c))
      && (forall o: Owner :: ActiveOf(next, o) == ActiveOf(rows, o))
  {}

  lemma ClaimKeepsKeys(rows: Rows, id: RunId, now: int)
    requires UniqueKeys(rows) && id in rows
    ensures UniqueKeys(rows[id := RunRow.Claim(rows[id], now)])
  {}

  lemma ClaimKeepsLimits(rows: Rows, id: RunId, now: int)
    requires Limits(rows) && Eligible(rows, id)
    ensures Limits(rows[id := RunRow.Claim(rows[id], now)])
  {
    var next := rows[id := RunRow.Claim(rows[id], now)];
    ClaimSets(rows, id, now);
    ClaimActives(rows, id, now);
    ClaimKeepsKeys(rows, id, now);
    forall o: Owner ensures |RunningOf(next, o)| <= MAX_RUNNING_PER_OWNER {
      assert |RunningOf(rows, o)| <= MAX_RUNNING_PER_OWNER;
    }
  }

  lemma SubmitSets(rows: Rows, id: RunId, r: Row)
    requires id !in rows && r.status.Queued?
    ensures var next := rows[id := r];
      && RunningAll(next) == RunningAll(rows)
      && (forall o: Owner :: RunningOf(next, o) == RunningOf(rows, o))
      && (forall c: Conv :: ActiveIn(next, c) == if c == r.conv then ActiveIn(rows, c) + {id} else ActiveIn(rows, c))
      && (forall o: Owner :: ActiveOf(next, o) == if o == r.owner then ActiveOf(rows, o) + {id} else ActiveOf(rows, o))
  {}

  lemma SubmitKeepsKeys(rows: Rows, id: RunId, r: Row)
    requires UniqueKeys(rows) && id !in rows && SameKey(rows, r.owner, r.key) == {}
    ensures UniqueKeys(rows[id := r])
  {
    assert forall j :: j in rows && rows[j].owner == r.owner && rows[j].key == r.key ==> j in SameKey(rows, r.owner, r.key);
  }

  lemma AddKeepsLimits(rows: Rows, id: RunId, r: Row)
    requires Limits(rows) && id !in rows && r.status.Queued? && SameKey(rows, r.owner, r.key) == {}
    requires |ActiveIn(rows, r.conv)| == 0 && |ActiveOf(rows, r.owner)| < MAX_ACTIVE_PER_OWNER
    ensures Limits(rows[id := r])
  {
    var next := rows[id := r];
    SubmitSets(rows, id, r);
    SubmitKeepsKeys(rows, id, r);
    forall o: Owner ensures |ActiveOf(next, o)| <= MAX_ACTIVE_PER_OWNER {
      assert |ActiveOf(rows, o)| <= MAX_ACTIVE_PER_OWNER;
    }
    forall o: Owner ensures |RunningOf(next, o)| <= MAX_RUNNING_PER_OWNER {
      assert |RunningOf(rows, o)| <= MAX_RUNNING_PER_OWNER;
    }
    forall c: Conv ensures |ActiveIn(next, c)| <= 1 {
      assert |ActiveIn(rows, c)| <= 1;
    }
  }

  lemma SubmitKeepsLimits(rows: Rows, convs: map<Conv, Owner>, now: int, id: RunId, owner: Owner, conv: Conv, request: Request, grant: Token)
    requires Limits(rows) && id !in rows
    ensures Limits(Submit(rows, convs, now, id, owner, conv, request, grant).0)
  {
    if request.Sound() && SameKey(rows, owner, request.key.value) == {} && Refusal(rows, convs, owner, conv).None? {
      AddKeepsLimits(rows, id, NewRow(now, owner, conv, request.key.value, Trim(request.text.value), grant));
    }
  }

  /** Two requests that differ in nothing but white space around the text. */
  predicate Alike(a: Request, b: Request) {
    a.key == b.key && a.text.Some? && b.text.Some? && Trim(a.text.value) == Trim(b.text.value)
  }

  /** Submitting the request again changes nothing and names the same run, with other white space around it as well. */
  lemma SubmitIsIdempotent(rows: Rows, convs: map<Conv, Owner>, now: int, later: int, id: RunId, id2: RunId,
                           owner: Owner, conv: Conv, request: Request, again: Request, grant: Token, grant2: Token)
    requires Limits(rows) && id !in rows && Alike(request, again)
    requires Submit(rows, convs, now, id, owner, conv, request, grant).1.Ok?
    ensures var (next, answer) := Submit(rows, convs, now, id, owner, conv, request, grant);
      Submit(next, convs, later, id2, owner, conv, again, grant2) == (next, answer)
  {
    var (next, answer) := Submit(rows, convs, now, id, owner, conv, request, grant);
    SubmitKeepsLimits(rows, convs, now, id, owner, conv, request, grant);
    assert answer.value in SameKey(next, owner, request.key.value);
  }

  /** Queued, running or waiting for its user. */
  predicate Unfinished(r: Row) { r.status in {Queued, Running, WaitingConfirmation, WaitingAuth} }

  predicate Asked(rows: Rows, owner: Owner, key: nat, k: RunId) { k in rows && rows[k].owner == owner && rows[k].key == key }

  /** Every answer to a submission, in the order in which the reasons are looked at. */
  lemma SubmitAnswers(rows: Rows, convs: map<Conv, Owner>, now: int, id: RunId, owner: Owner, conv: Conv, request: Request, grant: Token)
    requires UniqueKeys(rows) && id !in rows
    ensures var (next, answer) := Submit(rows, convs, now, id, owner, conv, request, grant);
      var text := if request.text.Some? then Trim(request.text.value) else "";
      if text == "" || Bytes(text) > 16000 || request.key.None? then next == rows && answer == Err(Fault(422))
      else if exists k :: Asked(rows, owner, request.key.value, k) then
        var k :| Asked(rows, owner, request.key.value, k);
        next == rows && answer == if rows[k].conv == conv && rows[k].input == text then Ok(k) else Err(Fault(409))
      else if conv !in convs || convs[conv] != owner then next == rows && answer == Err(Fault(404))
      else if exists k :: k in rows && rows[k].conv == conv && Unfinished(rows[k]) then next == rows && answer == Err(Fault(409))
      else if |set k | k in rows && rows[k].owner == owner && Unfinished(rows[k])| >= 8
           || |set k | k in rows && rows[k].status in {Queued, Running}| >= 128
        then next == rows && answer == Err(Fault(429))
      else answer == Ok(id)
           && next == rows[id := Row(conv, owner, request.key.value, text, now, Queued,
                                     State([], 0, 0, 0, false, [], None, None, false), Some(grant), 0, None, false)]
  {
    if request.Sound() {
      var key := request.key.value;
      if k :| Asked(rows, owner, key, k) {
        assert k in SameKey(rows, owner, key);
        assert forall j :: j in SameKey(rows, owner, key) ==> j == k;
      } else {
        assert forall k :: k in SameKey(rows, owner, key) ==> Asked(rows, owner, key, k);
        AdmitAnswers(rows, convs, owner, conv);
      }
    }
  }

  lemma AdmitAnswers(rows: Rows, convs: map<Conv, Owner>, owner: Owner, conv: Conv)
    ensures Refusal(rows, convs, owner, conv) ==
      if conv !in convs || convs[conv] != owner then Some(Fault(404))
      else if exists k :: k in rows && rows[k].conv == conv && Unfinished(rows[k]) then Some(Fault(409))
      else if |set k | k in rows && rows[k].owner == owner && Unfinished(rows[k])| >= 8
           || |set k | k in rows && rows[k].status in {Queued, Running}| >= 128 then Some(Fault(429))
      else None
  {
    assert ActiveOf(rows, owner) == set k | k in rows && rows[k].owner == owner && Unfinished(rows[k]);
    assert Backlog(rows) == set k | k in rows && rows[k].status in {Queued, Running};
    if k :| k in rows && rows[k].conv == conv && Unfinished(rows[k]) {
      assert k in ActiveIn(rows, conv);
    } else {
      assert ActiveIn(rows, conv) == {};
    }
  }

  lemma LimitsSpelledOut(rows: Rows, o: Owner, r: RunId, q: RunId)
    requires Limits(rows)
    ensures |set k | k in rows && rows[k].status == Running| <= 8
    ensures |set k | k in rows && rows[k].status == Running && rows[k].owner == o| <= 2
    ensures |set k | k in rows && Unfinished(rows[k]) && rows[k].owner == o| <= 8
    ensures r in rows && q in rows && Unfinished(rows[r]) && Unfinished(rows[q]) && rows[r].conv == rows[q].conv ==> r == q
  {
    assert (set k | k in rows && rows[k].status == Running) == RunningAll(rows);
    assert (set k | k in rows && rows[k].status == Running && rows[k].owner == o) == RunningOf(rows, o);
    assert (set k | k in rows && Unfinished(rows[k]) && rows[k].owner == o) == ActiveOf(rows, o);
    if r in rows && q in rows && Unfinished(rows[r]) && Unfinished(rows[q]) && rows[r].conv == rows[q].conv {
      assert {r, q} <= ActiveIn(rows, rows[r].conv);
      Smaller({r, q}, ActiveIn(rows, rows[r].conv));
    }
  }
}
