/** One transaction of the run store, seen from the row it changes. */
module RunRow {
  import opened Options
  import opened AgentTypes

  /** The fence shared by every worker write: same epoch, still running, lease not over. */
  predicate Holds(r: Row, epoch: nat, now: int) {
    r.epoch == epoch && r.status.Running? && r.lease.Some? && now < r.lease.value
  }

  predicate Expired(r: Row, now: int) {
    r.status.Running? && r.lease.Some? && r.lease.value < now
  }

  function Heartbeat(r: Row, now: int): Row {
    r.(lease := Some(now + LEASE))
  }

  predicate Ends(st: Status) {
    st.Succeeded? || st.Failed? || st.Cancelled? || st.Unknown?
  }

  /** What the worker's own copy becomes when it checkpoints under `st`. */
  function Sealed(m: State, st: Status): State {
    if Ends(st) then m.(receipt := None) else m
  }

  function Save(r: Row, m: State, st: Status): Row {
    r.(state := Sealed(m, st),
       status := st,
       lease := if st.Running? then r.lease else None,
       grant := if Ends(st) then None else r.grant)
  }

  function RecoveredStatus(r: Row): Status {
    if r.state.modelPending then Unknown
    else if r.cancel && r.state.writePending then Unknown
    else if r.cancel then Cancelled
    else Queued
  }

  /** Recovery of an expired lease. */
  function Recover(r: Row): Row {
    var st := RecoveredStatus(r);
    r.(status := st,
       epoch := r.epoch + 1,
       lease := None,
       grant := if st.Queued? then r.grant else None,
       state := if st.Queued? then r.state else r.state.(receipt := None))
  }

  function Claim(r: Row, now: int): Row {
    r.(status := Running, epoch := r.epoch + 1, lease := Some(now + LEASE))
  }

  function Cancel(r: Row): Row {
    if r.status.Succeeded? || r.status.Failed? || r.status.Cancelled? then r
    else if r.status.Running? then r.(cancel := true)
    else r.(cancel := true, status := Cancelled, grant := None)
  }

  /** `None` in the success case: the operation is already settled or confirmed, nothing changes. */
  function Confirm(r: Row, op: OpId, receipt: Token, grant: Token, args: Args): Result<Option<Row>> {
    if op in r.state.completed then Ok(None)
    else if r.state.proposal.None? || r.state.proposal.value.op != op then Err(Fault(409))
    else if r.state.proposal.value.confirmed then Ok(None)
    else if !r.status.WaitingConfirmation? || r.cancel then Err(Fault(409))
    else if r.state.proposal.value.args != args then Err(Fault(409))
    else
      Ok(Some(r.(
        state := r.state.(proposal := Some(r.state.proposal.value.(confirmed := true)), receipt := Some(receipt)),
        status := Queued,
        grant := Some(grant))))
  }

  function Resume(r: Row, grant: Token): Result<Row> {
    if r.status.WaitingAuth? && !r.cancel then Ok(r.(status := Queued, grant := Some(grant)))
    else Err(Fault(409))
  }

  /** What holds of every persisted row. */
  predicate RowOk(r: Row) {
    var d := r.state;
    && d.round <= MAX_ROUNDS
    && d.toolCount <= MAX_TOOLS
    && !(d.modelPending && d.writePending)
    && (d.writePending ==> d.proposal.Some? && d.proposal.value.confirmed)
    && (d.modelPending ==> d.proposal.None? && d.calls == [] && d.round < MAX_ROUNDS)
    && (d.proposal.Some? ==> SoleWrite(d) && d.proposal.value.op !in d.completed)
    && (d.proposal.Some? && !d.proposal.value.confirmed ==> r.status.WaitingConfirmation? || Ends(r.status))
    && (r.status.WaitingConfirmation? ==> d.proposal.Some? && !d.proposal.value.confirmed)
    && (r.status.Active() && !r.status.Running? ==> !d.modelPending)
    && (r.status.Queued? ==> !r.cancel)
    && (Ends(r.status) <==> r.grant.None?)
    && (r.status.Running? <==> r.lease.Some?)
  }

  /** The pending proposal is the only call of its round, and it is a registered write. */
  predicate SoleWrite(d: State)
    requires d.proposal.Some?
  {
    d.calls == [d.proposal.value.call] && d.proposal.value.call.valid && !d.proposal.value.call.kind.Read?
  }
}
