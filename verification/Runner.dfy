/** The worker's loop itself, over services that may answer anything. */
module Runner {
  import opened Options
  import opened AgentTypes
  import opened RunnerMachine
  import opened RunRow
  import opened RunnerLaws

  /** The worker's view of the store, the platform and the model gateway: any answer is possible. */
  class Services {
    constructor () {}

    method Heartbeat() returns (found: bool, stop: bool, gate: Gate) {
      found, stop, gate := *, *, *;
    }

    method Save(m: State, st: Status) returns (stored: bool, sealed: State)
      ensures sealed == Sealed(m, st)
    {
      stored := *;
      sealed := Sealed(m, st);
    }

    method NewOperation() returns (op: OpId) { op := *; }
    method Operation(op: OpId) returns (a: QueryAnswer) { a := *; }
    method Execute(p: Proposal) returns (r: Reply) { r := *; }
    method ValidatePlan(args: Args) returns (a: ValidateAnswer) { a := *; }
    method ExecuteBatch(calls: seq<Call>) returns (a: ReadAnswer) { a := *; }
    method Catalog() returns (a: CatalogAnswer) { a := *; }
    method Chat(round: nat) returns (a: ModelAnswer) { a := *; }
  }

  /** Rounds left, then a confirmed proposal to settle, then calls to run. */
  function RoundsLeft(m: State): nat { if m.round < MAX_ROUNDS then MAX_ROUNDS - m.round else 0 }
  function Unsettled(m: State): nat { if Confirmed(m) then 1 else 0 }

  /** What the loop keeps of the budgets and of the shape of a proposal. */
  predicate Within(m: State) {
    && m.round <= MAX_ROUNDS
    && m.toolCount <= MAX_TOOLS
    && (m.proposal.Some? ==> SoleWrite(m))
  }

  /** The loop is back at its head with less left to do. */
  predicate Progress(m: State, n: State) {
    && Within(n) && (n.proposal.Some? ==> n.proposal.value.confirmed)
    && Grows(m, n)
    && (RoundsLeft(n) < RoundsLeft(m)
        || (RoundsLeft(n) == RoundsLeft(m) && Unsettled(n) < Unsettled(m))
        || (RoundsLeft(n) == RoundsLeft(m) && Unsettled(n) == Unsettled(m) && |n.calls| < |m.calls|))
  }

  predicate Grows(m: State, n: State) {
    m.round <= n.round && m.toolCount <= n.toolCount
  }

  /** Either the worker has left, or the loop goes on. */
  ghost predicate Turn(w0: Worker, m: State, n: State, go: bool, all: seq<Input>) {
    Fitting(w0, all)
    && if go then Progress(m, n) && Replay(w0, all) == Worker(w0.epoch, n, Top)
       else Within(n) && Grows(m, n) && Replay(w0, all) == Worker(w0.epoch, n, Gone)
  }

  /** One checkpoint after which the worker leaves whatever the store says. */
  method Leave(env: Services, m: State, st: Status, ghost w0: Worker, ghost inputs: seq<Input>)
    returns (last: State, go: bool, ghost all: seq<Input>)
    requires Fitting(w0, inputs) && Replay(w0, inputs) == Worker(w0.epoch, m, Saving(st, Exit))
    ensures !go && last == Sealed(m, st)
    ensures Fitting(w0, all) && Replay(w0, all) == Worker(w0.epoch, last, Gone)
  {
    var stored;
    stored, last := env.Save(m, st);
    go := false;
    ReplayMore(w0, inputs, InSave(m, st, stored, 0));
    all := inputs + [InSave(m, st, stored, 0)];
  }

  /** One checkpoint after which the worker goes on. */
  method Checkpoint(env: Services, m: State, ghost next: Next, op: OpId, ghost w0: Worker, ghost inputs: seq<Input>)
    returns (stored: bool, ghost all: seq<Input>)
    requires Fitting(w0, inputs) && Replay(w0, inputs) == Worker(w0.epoch, m, Saving(Running, next))
    ensures Fitting(w0, all) && Replay(w0, all) == AfterSave(Worker(w0.epoch, m, Saving(Running, next)), next, stored, op)
  {
    var sealed;
    stored, sealed := env.Save(m, Running);
    ReplayMore(w0, inputs, InSave(m, Running, stored, op));
    all := inputs + [InSave(m, Running, stored, op)];
  }

  /** A confirmed proposal: send the write once, or only ask what became of it. */
  method Settling(env: Services, start: State, op: OpId, ghost w0: Worker, ghost inputs: seq<Input>)
    returns (last: State, go: bool, ghost all: seq<Input>)
    requires Within(start) && Confirmed(start)
    requires Fitting(w0, inputs) && Replay(w0, inputs) == Branch(Worker(w0.epoch, start, Top), op)
    ensures Turn(w0, start, last, go, all)
  {
    hide Replay, Fitting;
    var m := start;
    var p := m.proposal.value;
    all := inputs;
    if m.writePending {
      var a := env.Operation(p.op);
      ReplayMore(w0, all, InQuery(p.op, a));
      all := all + [InQuery(p.op, a)];
      if a.QueryDenied? {
        last, go, all := Leave(env, m, WaitingAuth, w0, all);
        return;
      }
      if a.QueryOther? {
        last, go, all := Leave(env, m, Unknown, w0, all);
        return;
      }
    } else {
      m := m.(writePending := true);
      go, all := Checkpoint(env, m, ThenInvoke, op, w0, all);
      if !go { return m, false, all; }
      var r := env.Execute(p);
      ReplayMore(w0, all, InWrite(p, r));
      all := all + [InWrite(p, r)];
      if r.Unclear? {
        last, go, all := Leave(env, m, Unknown, w0, all);
        return;
      }
      if r.Denied? {
        m := m.(writePending := false, receipt := None, proposal := Some(p.(confirmed := false)));
        last, go, all := Leave(env, m, WaitingConfirmation, w0, all);
        return;
      }
    }
    m := m.(completed := m.completed + [p.op], proposal := None, receipt := None, writePending := false, calls := []);
    go, all := Checkpoint(env, m, Loop, op, w0, all);
    last := m;
  }

  /** Pending calls: one write becomes a proposal, a few reads are run. */
  method Calling(env: Services, start: State, op: OpId, ghost w0: Worker, ghost inputs: seq<Input>)
    returns (last: State, go: bool, ghost all: seq<Input>)
    requires Within(start) && start.proposal.None? && |start.calls| > 0
    requires Fitting(w0, inputs) && Replay(w0, inputs) == BranchCalls(Worker(w0.epoch, start, Top), op)
    ensures Turn(w0, start, last, go, all)
  {
    hide Replay, Fitting;
    var m := start;
    all := inputs;
    if m.toolCount + |m.calls| > MAX_TOOLS {
      last, go, all := Leave(env, m, Failed, w0, all);
      return;
    }
    var write, valid := Inspect(m.calls);
    if !valid {
      last, go, all := Leave(env, m, Failed, w0, all);
      return;
    }
    if write {
      if |m.calls| != 1 {
        last, go, all := Leave(env, m, Failed, w0, all);
        return;
      }
      last, go, all := Proposing(env, m, op, w0, all);
      return;
    }
    if |m.calls| > 4 {
      last, go, all := Leave(env, m, Failed, w0, all);
      return;
    }
    go, all := Checkpoint(env, m, ThenRead, op, w0, all);
    if !go { return m, false, all; }
    var b := env.ExecuteBatch(m.calls);
    ReplayMore(w0, all, InRead(m.calls, b));
    all := all + [InRead(m.calls, b)];
    if b.BatchError? {
      last, go, all := Leave(env, m, Failed, w0, all);
      return;
    }
    if b.BatchDenied? {
      last, go, all := Leave(env, m, WaitingAuth, w0, all);
      return;
    }
    m := m.(toolCount := m.toolCount + |m.calls|, calls := []);
    go, all := Checkpoint(env, m, Loop, op, w0, all);
    last := m;
  }

  /** The sole write of a round; a training plan is validated and normalized first. */
  method Proposing(env: Services, start: State, op: OpId, ghost w0: Worker, ghost inputs: seq<Input>)
    returns (last: State, go: bool, ghost all: seq<Input>)
    requires Within(start) && start.proposal.None? && |start.calls| == 1 && start.toolCount + 1 <= MAX_TOOLS
    requires AllValid(start.calls) && SomeWrite(start.calls)
    requires Fitting(w0, inputs) && Replay(w0, inputs) == BranchCalls(Worker(w0.epoch, start, Top), op)
    ensures Turn(w0, start, last, go, all)
  {
    hide Replay, Fitting;
    var m := start;
    var c := m.calls[0];
    var args := c.args;
    assert m.calls == [c];
    all := inputs;
    if c.kind.SubmitPlan? {
      if m.toolCount + 2 > MAX_TOOLS {
        last, go, all := Leave(env, m, Failed, w0, all);
        return;
      }
      var v := env.ValidatePlan(args);
      ReplayMore(w0, all, InValidate(args, v));
      all := all + [InValidate(args, v)];
      if v.ValidateDenied? {
        last, go, all := Leave(env, m, WaitingAuth, w0, all);
        return;
      }
      m := m.(toolCount := m.toolCount + 1);
      if v.ValidateError? {
        m := m.(calls := []);
        go, all := Checkpoint(env, m, Loop, op, w0, all);
        last := m;
        return;
      }
      if v.args.None? {
        last, go, all := Leave(env, m, Failed, w0, all);
        return;
      }
      args := v.args.value;
      go, all := Checkpoint(env, m, ThenPropose(c, args), op, w0, all);
      if !go { return m, false, all; }
    }
    m := m.(proposal := Some(Proposal(c, args, op, false)), toolCount := m.toolCount + 1);
    last, go, all := Leave(env, m, WaitingConfirmation, w0, all);
  }

  /** No calls left: recheck the session, then one model round. */
  method ModelRound(env: Services, start: State, op: OpId, ghost w0: Worker, ghost inputs: seq<Input>)
    returns (last: State, go: bool, ghost all: seq<Input>)
    requires Within(start) && start.proposal.None? && start.calls == []
    requires Fitting(w0, inputs) && Replay(w0, inputs) == Branch(Worker(w0.epoch, start, Top), op)
    ensures Turn(w0, start, last, go, all)
  {
    hide Replay, Fitting;
    var m := start;
    all := inputs;
    if m.round >= MAX_ROUNDS || m.tokens > MAX_TOKENS {
      last, go, all := Leave(env, m, Failed, w0, all);
      return;
    }
    var k := env.Catalog();
    ReplayMore(w0, all, InCatalog(k));
    all := all + [InCatalog(k)];
    if k.CatalogDenied? || k.RoleChanged? {
      last, go, all := Leave(env, m, WaitingAuth, w0, all);
      return;
    }
    if k.CatalogError? || k.ContextTooLarge? {
      last, go, all := Leave(env, m, Failed, w0, all);
      return;
    }
    m := m.(modelPending := true);
    go, all := Checkpoint(env, m, ThenAsk, op, w0, all);
    if !go { return m, false, all; }
    var a := env.Chat(m.round);
    ReplayMore(w0, all, InModel(m.round, a));
    all := all + [InModel(m.round, a)];
    if a.ModelStopped? {
      last, go, all := Leave(env, m, Cancelled, w0, all);
      return;
    }
    if a.ModelError? {
      last, go, all := Leave(env, m, Unknown, w0, all);
      return;
    }
    m := m.(modelPending := false, round := m.round + 1, tokens := m.tokens + a.tokens);
    if !a.wellFormed || |a.calls| > MAX_TOOLS || (!a.hasText && |a.calls| == 0) {
      last, go, all := Leave(env, m, Failed, w0, all);
      return;
    }
    m := m.(calls := a.calls);
    if |a.calls| == 0 {
      last, go, all := Leave(env, m, Succeeded, w0, all);
      return;
    }
    go, all := Checkpoint(env, m, Loop, op, w0, all);
    last := m;
  }

  /** The loop ends for every behaviour of its surroundings, exactly where the step machine ends on the
      same answers; it keeps both budgets and only ever proposes a write that was alone in its round. */
  method Execute(env: Services, start: State, epoch: nat) returns (last: State, ghost inputs: seq<Input>)
    requires Within(start) && (start.proposal.Some? ==> start.proposal.value.confirmed)
    ensures last.round <= MAX_ROUNDS && last.toolCount <= MAX_TOOLS
    ensures last.proposal.Some? ==> SoleWrite(last)
    ensures start.round <= last.round && start.toolCount <= last.toolCount
    ensures Obeys(start, inputs) && inputs != [] && Final(inputs[|inputs| - 1])
    ensures forall i, j :: 0 <= i < j < |inputs| && inputs[i].InBeat? && inputs[i].stop ==> Checkpoints(inputs[j], Cancelled)
    ensures Fitting(Worker(epoch, start, Top), inputs)
    ensures Replay(Worker(epoch, start, Top), inputs) == Worker(epoch, last, Gone)
  {
    ghost var w0 := Worker(epoch, start, Top);
    inputs := [];
    last := start;
    assert Replay(w0, inputs) == w0 && Fitting(w0, inputs);
    hide Replay, Fitting;
    var go := true;
    while go
      invariant Fitting(w0, inputs)
      invariant if go then Within(last) && (last.proposal.Some? ==> last.proposal.value.confirmed)
                           && Grows(start, last) && Replay(w0, inputs) == Worker(epoch, last, Top)
                else Within(last) && Grows(start, last) && Replay(w0, inputs) == Worker(epoch, last, Gone)
      decreases go, RoundsLeft(last), Unsettled(last), |last.calls|
    {
      var found, stop, gate := env.Heartbeat();
      var op := env.NewOperation();
      ReplayMore(w0, inputs, InBeat(found, stop, gate, op));
      inputs := inputs + [InBeat(found, stop, gate, op)];
      if !found || gate.beatError || gate.ctxDone || stop {
        if gate.parentDone {
          go := false;
        } else {
          last, go, inputs := Leave(env, last, Cancelled, w0, inputs);
        }
      } else if !gate.grantValid {
        last, go, inputs := Leave(env, last, WaitingAuth, w0, inputs);
      } else if last.proposal.Some? && last.proposal.value.confirmed {
        last, go, inputs := Settling(env, last, op, w0, inputs);
      } else if |last.calls| > 0 {
        last, go, inputs := Calling(env, last, op, w0, inputs);
      } else {
        last, go, inputs := ModelRound(env, last, op, w0, inputs);
      }
    }
    hide Fitting, Obeys, Final;
    ConversationObeys(w0, inputs);
    LeavesByFinal(w0, inputs);
    forall i, j | 0 <= i < j < |inputs| && inputs[i].InBeat? && inputs[i].stop ensures Checkpoints(inputs[j], Cancelled) {
      StopIsObeyed(start, inputs, i, j);
    }
  }

  /** Validate the calls in order; stop at the first invalid one. */
  method Inspect(calls: seq<Call>) returns (write: bool, valid: bool)
    ensures valid <==> AllValid(calls)
    ensures valid ==> (write <==> SomeWrite(calls))
  {
    write, valid := false, true;
    for i := 0 to |calls|
      invariant valid && AllValid(calls[..i])
      invariant write <==> SomeWrite(calls[..i])
    {
      if !calls[i].valid {
        return write, false;
      }
      assert calls[..i + 1] == calls[..i] + [calls[i]];
      if !calls[i].kind.Read? { write := true; }
    }
    assert calls[..|calls|] == calls;
  }
}
