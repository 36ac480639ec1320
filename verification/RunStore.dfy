/** The run store: each method is one transaction on the run table. */
module RunStore {
  import opened Options
  import opened AgentTypes
  import opened Admission
  import opened Texts
  import RunRow

  class Store {
    var rows: Rows
    var convs: map<Conv, Owner>
    var now: int

    ghost predicate Valid() reads this { Limits(rows) }

    constructor ()
      ensures Valid() && rows == map[] && convs == map[] && now == 0
    {
      rows, convs, now := map[], map[], 0;
      new;
      EmptyLimits();
    }

    /** Time passes. */
    method Tick(d: nat)
      requires Valid()
      modifies this`now
      ensures now == old(now) + d
    {
      now := now + d;
    }

    method SubmitRun(id: RunId, owner: Owner, conv: Conv, request: Request, grant: Token) returns (answer: Result<RunId>)
      requires Valid() && id !in rows
      modifies this`rows
      ensures Valid()
      ensures (rows, answer) == Submit(old(rows), convs, now, id, owner, conv, request, grant)
    {
      SubmitKeepsLimits(rows, convs, now, id, owner, conv, request, grant);
      if request.text.None? { return Err(Fault(422)); }
      var input := Trim(request.text.value);
      if input == "" || Bytes(input) > MAX_INPUT { return Err(Fault(422)); }
      if request.key.None? { return Err(Fault(422)); }
      var key := request.key.value;
      var same := SameKey(rows, owner, key);
      if same != {} {
        var prior :| prior in same;
        if rows[prior].conv != conv || rows[prior].input != input {
          return Err(Fault(409));
        }
        return Ok(prior);
      }
      if conv !in convs || convs[conv] != owner {
        return Err(Fault(404));
      }
      if |ActiveIn(rows, conv)| > 0 {
        return Err(Fault(409));
      }
      if |ActiveOf(rows, owner)| >= MAX_ACTIVE_PER_OWNER || |Backlog(rows)| >= MAX_QUEUE {
        return Err(Fault(429));
      }
      rows := rows[id := NewRow(now, owner, conv, key, input, grant)];
      answer := Ok(id);
    }

    /** Recover every expired lease, then hand out the best eligible run. */
    method ClaimNext() returns (claimed: Option<RunId>)
      requires Valid()
      modifies this`rows
      ensures Valid()
      ensures var mid := RecoverAll(old(rows), now);
        match claimed
        case None => rows == mid && forall id :: id in mid ==> !Eligible(mid, id)
        case Some(id) => Best(mid, id) && rows == mid[id := RunRow.Claim(mid[id], now)]
      ensures Served(old(rows), rows, claimed, now)
    {
      hide RecoverAll, Limits, Served;
      RecoverExpired();
      claimed := FindBest();
      ClaimServes(old(rows), claimed, now);
      if claimed.Some? {
        ClaimKeepsLimits(rows, claimed.value, now);
        rows := rows[claimed.value := RunRow.Claim(rows[claimed.value], now)];
      }
    }

    method RecoverExpired()
      requires Valid()
      modifies this`rows
      ensures Valid()
      ensures rows == RecoverAll(old(rows), now)
    {
      hide RunRow.Recover, RunRow.Expired, Limits;
      var items := set id | id in rows && RunRow.Expired(rows[id], now);
      ghost var all := items;
      while items != {}
        invariant items <= all
        invariant rows.Keys == old(rows).Keys
        invariant forall id :: id in rows ==>
          rows[id] == if id in all - items then RunRow.Recover(old(rows)[id]) else old(rows)[id]
        decreases |items|
      {
        var id :| id in items;
        rows := rows[id := RunRow.Recover(rows[id])];
        items := items - {id};
      }
      RecoveryEvolves(old(rows), now);
      EvolutionKeepsLimits(old(rows), RecoverAll(old(rows), now));
      ghost var spec := RecoverAll(old(rows), now);
      assert rows.Keys == spec.Keys;
      assert forall id :: id in spec ==> rows[id] == spec[id];
      assert rows == spec;
    }

    method FindBest() returns (best: Option<RunId>)
      ensures best.None? ==> forall id :: id in rows ==> !Eligible(rows, id)
      ensures best.Some? ==> Best(rows, best.value)
    {
      best := None;
      var left := rows.Keys;
      while left != {}
        invariant left <= rows.Keys
        invariant best.None? ==> forall id :: id in rows.Keys - left ==> !Eligible(rows, id)
        invariant best.Some? ==> Eligible(rows, best.value)
        invariant best.Some? ==> forall id :: id in rows.Keys - left && Eligible(rows, id) ==> Before(rows, best.value, id)
        decreases |left|
      {
        var id :| id in left;
        if Eligible(rows, id) && (best.None? || Before(rows, id, best.value)) {
          best := Some(id);
        }
        left := left - {id};
      }
    }

    /** `found` is false when no row matches the fence. */
    method Beat(id: RunId, epoch: nat) returns (found: bool, stop: bool)
      requires Valid()
      modifies this`rows
      ensures Valid()
      ensures found <==> id in old(rows) && RunRow.Holds(old(rows)[id], epoch, now)
      ensures rows == if found then old(rows)[id := RunRow.Heartbeat(old(rows)[id], now)] else old(rows)
      ensures found <==> id in old(rows) && StillHeld(old(rows)[id], epoch, now)
      ensures found ==> rows == old(rows)[id := rows[id]] && forall later :: now <= later < now + 60 ==> StillHeld(rows[id], epoch, later)
      ensures stop <==> found && old(rows)[id].cancel
    {
      found := id in rows && RunRow.Holds(rows[id], epoch, now);
      stop := false;
      if found {
        stop := rows[id].cancel;
        Put(id, rows[id].(lease := Some(now + LEASE)));
      }
    }

    /** A checkpoint under the fence; `sealed` is the caller's copy afterwards. */
    method SaveRun(id: RunId, epoch: nat, state: State, status: Status) returns (stored: bool, sealed: State)
      requires Valid() && !status.Queued?
      modifies this`rows
      ensures Valid()
      ensures sealed == RunRow.Sealed(state, status)
      ensures stored <==> id in old(rows) && RunRow.Holds(old(rows)[id], epoch, now)
      ensures rows == if stored then old(rows)[id := RunRow.Save(old(rows)[id], state, status)] else old(rows)
      ensures stored <==> id in old(rows) && StillHeld(old(rows)[id], epoch, now)
      ensures stored ==> Checkpointed(old(rows)[id], state, status, rows[id])
    {
      sealed := state;
      var ends := status.Succeeded? || status.Failed? || status.Cancelled? || status.Unknown?;
      if ends {
        sealed := sealed.(receipt := None);
      }
      stored := id in rows && RunRow.Holds(rows[id], epoch, now);
      if stored {
        var r := rows[id];
        r := r.(state := sealed, status := status);
        if !status.Running? { r := r.(lease := None); }
        if ends { r := r.(grant := None); }
        Put(id, r);
      }
    }

    method CancelRun(owner: Owner, id: RunId) returns (fault: Option<Fault>)
      requires Valid()
      modifies this`rows
      ensures Valid()
      ensures fault.Some? <==> !(id in old(rows) && old(rows)[id].owner == owner)
      ensures rows == if fault.Some? then old(rows) else old(rows)[id := RunRow.Cancel(old(rows)[id])]
      ensures fault.None? ==> Stopped(old(rows)[id], rows[id])
    {
      if id !in rows || rows[id].owner != owner {
        return Some(Fault(404));
      }
      var r := rows[id];
      if r.status.Succeeded? || r.status.Failed? || r.status.Cancelled? {
        assert rows == rows[id := r];
        return None;
      }
      var status := r.status;
      if !status.Running? {
        status := Cancelled;
      }
      Put(id, r.(cancel := true, status := status, grant := if status.Cancelled? then None else r.grant));
      fault := None;
    }

    /** A compare-and-set against the exact preview. */
    method ConfirmRun(owner: Owner, id: RunId, op: OpId, receipt: Token, grant: Token, args: Args) returns (fault: Option<Fault>)
      requires Valid()
      modifies this`rows
      ensures Valid()
      ensures var mine := id in old(rows) && old(rows)[id].owner == owner;
        var spec := if mine then RunRow.Confirm(old(rows)[id], op, receipt, grant, args) else Err(Fault(503));
        && (fault.Some? <==> spec.Err?)
        && (fault.Some? ==> fault.value == spec.fault)
        && rows == if spec.Ok? && spec.value.Some? then old(rows)[id := spec.value.value] else old(rows)
      ensures rows != old(rows) ==> id in old(rows) && old(rows)[id].owner == owner && rows == old(rows)[id := rows[id]]
                                    && Confirmed(old(rows)[id], op, receipt, grant, args, rows[id])
    {
      if id !in rows || rows[id].owner != owner {
        return Some(Fault(503));
      }
      var r := rows[id];
      var i := 0;
      while i < |r.state.completed|
        invariant 0 <= i <= |r.state.completed|
        invariant op !in r.state.completed[..i]
        invariant rows == old(rows)
      {
        if r.state.completed[i] == op {
          return None;
        }
        i := i + 1;
      }
      assert r.state.completed[..i] == r.state.completed;
      if r.state.proposal.None? || r.state.proposal.value.op != op {
        return Some(Fault(409));
      }
      var p := r.state.proposal.value;
      if p.confirmed {
        return None;
      }
      if r.status != WaitingConfirmation || r.cancel {
        return Some(Fault(409));
      }
      if p.args != args {
        return Some(Fault(409));
      }
      p := p.(confirmed := true);
      r := r.(state := r.state.(proposal := Some(p), receipt := Some(receipt)));
      Put(id, r.(status := Queued, grant := Some(grant)));
      fault := None;
    }

    method ResumeRun(owner: Owner, id: RunId, grant: Token) returns (fault: Option<Fault>)
      requires Valid()
      modifies this`rows
      ensures Valid()
      ensures var mine := id in old(rows) && old(rows)[id].owner == owner && RunRow.Resume(old(rows)[id], grant).Ok?;
        && (fault.Some? <==> !mine)
        && rows == if mine then old(rows)[id := RunRow.Resume(old(rows)[id], grant).value] else old(rows)
      ensures fault.None? <==> id in old(rows) && old(rows)[id].owner == owner && old(rows)[id].status == WaitingAuth && !old(rows)[id].cancel
      ensures fault.None? ==> rows == old(rows)[id := old(rows)[id].(status := Queued, grant := Some(grant))]
    {
      if id in rows && rows[id].owner == owner && rows[id].status == WaitingAuth && !rows[id].cancel {
        Put(id, rows[id].(status := Queued, grant := Some(grant)));
        return None;
      }
      fault := Some(Fault(409));
    }

    /** Update one row in place. */
    method Put(id: RunId, r: Row)
      requires Valid() && id in rows && Evolves(rows[id], r)
      modifies this`rows
      ensures Valid() && rows == old(rows)[id := r]
    {
      EvolutionKeepsLimits(rows, rows[id := r]);
      rows := rows[id := r];
    }
  }

  /** The worker with this epoch may still write. */
  predicate StillHeld(r: Row, epoch: nat, now: int) {
    r.epoch == epoch && r.status == Running && r.lease.Some? && now < r.lease.value
  }

  /** The row says what the worker said. A run that ends gives up grant and receipt, one that leaves `running` its lease. */
  predicate Checkpointed(r: Row, m: State, st: Status, q: Row) {
    var over := st == Succeeded || st == Failed || st == Status.Cancelled || st == Unknown;
    q == r.(status := st, state := if over then m.(receipt := None) else m,
            grant := if over then None else r.grant, lease := if st == Running then r.lease else None)
  }

  /** A run that is over stays as it is, one under way is told, any other is cancelled at once. */
  predicate Stopped(r: Row, q: Row) {
    if r.status == Succeeded || r.status == Failed || r.status == Status.Cancelled then q == r
    else if r.status == Running then q == r.(cancel := true)
    else q == r.(cancel := true, status := Status.Cancelled, grant := None)
  }

  /** The waiting proposal, and the very arguments shown, are taken. */
  predicate Confirmed(r: Row, op: OpId, receipt: Token, grant: Token, args: Args, q: Row) {
    && r.status == WaitingConfirmation && !r.cancel && r.state.proposal.Some? && op !in r.state.completed
    && var p := r.state.proposal.value;
    && p.op == op && p.args == args && !p.confirmed
    && q == r.(status := Queued, grant := Some(grant),
               state := r.state.(proposal := Some(p.(confirmed := true)), receipt := Some(receipt)))
  }

  /** A confirmation of the waiting proposal with its own arguments is never refused. */
  lemma ConfirmationIsTaken(r: Row, op: OpId, receipt: Token, grant: Token, args: Args)
    requires r.status == WaitingConfirmation && !r.cancel && op !in r.state.completed
    requires r.state.proposal.Some? && r.state.proposal.value.op == op && r.state.proposal.value.args == args
    ensures RunRow.Confirm(r, op, receipt, grant, args).Ok?
    ensures !r.state.proposal.value.confirmed ==> RunRow.Confirm(r, op, receipt, grant, args).value.Some?
  {
  }

  /** A run that waits to be worked on: queued, or lapsed and fit to be queued again. */
  predicate Ready(r: Row, now: int) {
    !r.cancel && (r.status == Queued || (Lapsed(r, now) && !r.state.modelPending))
  }

  /** A worker gets the run as it was left, under a new epoch and a lease of one minute. */
  predicate HandedOut(r: Row, q: Row, now: int) {
    && Ready(r, now) && q.status == Running && q.state == r.state && q.grant == r.grant && q.cancel == r.cancel
    && q.epoch > r.epoch && q.lease == Some(now + 60) && Identity(q) == Identity(r)
  }

  predicate OnlyUnfinished(rows: Rows, id: RunId) { forall k :: k in rows && k != id ==> RunRow.Ends(rows[k].status) }

  /** What a claim does to the rows: every lapsed run is taken back, one that is ready is handed out, the rest stays.
      A run that is ready and the only unfinished one is handed out. */
  ghost predicate Served(rows: Rows, next: Rows, claimed: Option<RunId>, now: int) {
    && next.Keys == rows.Keys
    && (forall id :: id in rows && claimed != Some(id) ==>
          if Lapsed(rows[id], now) then TakenBack(rows[id], next[id]) else next[id] == rows[id])
    && (claimed.Some? ==> claimed.value in rows && HandedOut(rows[claimed.value], next[claimed.value], now))
    && (forall id :: id in rows && Ready(rows[id], now) && OnlyUnfinished(rows, id) ==> claimed == Some(id))
  }

  lemma ClaimServes(rows: Rows, claimed: Option<RunId>, now: int)
    requires claimed.Some? ==> Eligible(RecoverAll(rows, now), claimed.value)
    requires claimed.None? ==> forall id :: id in RecoverAll(rows, now) ==> !Eligible(RecoverAll(rows, now), id)
    ensures var mid := RecoverAll(rows, now);
      Served(rows, if claimed.None? then mid else mid[claimed.value := RunRow.Claim(mid[claimed.value], now)], claimed, now)
  {
    var mid := RecoverAll(rows, now);
    forall id | id in rows
      ensures if Lapsed(rows[id], now) then TakenBack(rows[id], mid[id]) else mid[id] == rows[id]
    {
      SweepTakesBack(rows, now, id);
    }
    forall id | id in rows && Ready(rows[id], now) && OnlyUnfinished(rows, id) ensures claimed == Some(id) {
      OnlyOne(mid, id);
    }
    hide RecoverAll, OnlyUnfinished;
  }

  /** A queued run among finished ones can be claimed, and nothing else can. */
  lemma OnlyOne(rows: Rows, id: RunId)
    requires id in rows && rows[id].status == Queued && !rows[id].cancel
    requires forall k :: k in rows && k != id ==> !rows[k].status.Active()
    ensures Eligible(rows, id) && forall k :: Eligible(rows, k) ==> k == id
  {
    assert RunningAll(rows) == {} && RunningOf(rows, rows[id].owner) == {};
  }

  /** The run handed out is of an owner with the fewest runs under way, and among those it is the oldest. */
  lemma ClaimIsFair(rows: Rows, id: RunId, other: RunId)
    requires Best(rows, id) && Eligible(rows, other)
    ensures var a := |set k | k in rows && rows[k].status == Running && rows[k].owner == rows[id].owner|;
      var b := |set k | k in rows && rows[k].status == Running && rows[k].owner == rows[other].owner|;
      a < b || (a == b && rows[id].created <= rows[other].created)
  {
    assert (set k | k in rows && rows[k].status == Running && rows[k].owner == rows[id].owner) == RunningOf(rows, rows[id].owner);
    assert (set k | k in rows && rows[k].status == Running && rows[k].owner == rows[other].owner) == RunningOf(rows, rows[other].owner);
  }

  /** A queued run without a stop is passed over only when eight runs are under way, or two of its owner. */
  lemma PassedOverWhenFull(rows: Rows, id: RunId)
    requires id in rows && rows[id].status == Queued && !rows[id].cancel && !Eligible(rows, id)
    ensures |set k | k in rows && rows[k].status == Running| >= 8
         || |set k | k in rows && rows[k].status == Running && rows[k].owner == rows[id].owner| >= 2
  {
    assert (set k | k in rows && rows[k].status == Running) == RunningAll(rows);
    assert (set k | k in rows && rows[k].status == Running && rows[k].owner == rows[id].owner) == RunningOf(rows, rows[id].owner);
  }

  lemma EmptyLimits()
    ensures Limits(map[])
  {
    var none: Rows := map[];
    assert RunningAll(none) == {};
    assert forall o: Owner :: RunningOf(none, o) == {} && ActiveOf(none, o) == {};
    assert forall c: Conv :: ActiveIn(none, c) == {};
  }
}
