/** The rules of the worker's loop, exchange by exchange, and that every conversation of the step machine obeys them.
    They speak of what is said and answered only, not of where the machine stands. */
module RunnerLaws {
  import opened Options
  import opened AgentTypes
  import opened RunnerMachine
  import opened RunRow

  /** What the worker knows: what it last checkpointed. */
  function Memory(start: State, inputs: seq<Input>): State {
    if inputs == [] then start
    else if inputs[|inputs| - 1].InSave? then inputs[|inputs| - 1].state
    else Memory(start, inputs[..|inputs| - 1])
  }

  predicate Checkpoints(y: Input, status: Status) { y.InSave? && y.status == status }

  /** A heartbeat after which nothing may be done any more. */
  predicate Halts(x: Input) {
    x.InBeat? && (x.stop || !x.found || x.gate.beatError || x.gate.ctxDone)
  }

  predicate Writes(m: State) { exists c :: c in m.calls && c.kind != Read }

  /** The calls of a round that end the run: over budget, invalid, a write in company, or too many reads. */
  predicate BreaksRules(m: State) {
    || m.toolCount + |m.calls| > 24
    || (exists c :: c in m.calls && !c.valid)
    || (if Writes(m) then |m.calls| > 1 || (m.calls[0].kind == SubmitPlan && m.toolCount + 2 > 24) else |m.calls| > 4)
  }

  /** What a worker that knows `m` does after a heartbeat that lets it go on. */
  predicate Proceeds(m: State, y: Input) {
    if m.proposal.Some? && m.proposal.value.confirmed then
      if m.writePending then y.InQuery? && y.asked == m.proposal.value.op
      else Checkpoints(y, Running) && y.state == m.(writePending := true)
    else if m.calls != [] then
      if BreaksRules(m) then Checkpoints(y, Failed)
      else if !Writes(m) then Checkpoints(y, Running) && y.state == m
      else if m.calls[0].kind == SubmitPlan then y.InValidate? && y.plan == m.calls[0].args
      else Checkpoints(y, WaitingConfirmation) && Proposed(m, y.state, m.calls[0], m.calls[0].args)
    else if m.round >= 8 || m.tokens > 48000 then Checkpoints(y, Failed)
    else y.InCatalog?
  }

  /** The proposal of a call is made, and counted. */
  predicate Proposed(m: State, n: State, c: Call, args: Args) {
    && n.proposal.Some? && n.proposal.value.call == c && n.proposal.value.args == args && !n.proposal.value.confirmed
    && n == m.(proposal := n.proposal, toolCount := m.toolCount + 1)
  }

  /** The write is over and remembered. */
  predicate Settled(m: State, n: State) {
    && m.proposal.Some?
    && n == m.(completed := m.completed + [m.proposal.value.op], proposal := None, receipt := None, writePending := false, calls := [])
  }

  /** What follows an answer `x` to a worker that knows `m`. */
  predicate Follows(m: State, x: Input, y: Input) {
    match x
    case InBeat(_, _, gate, _) =>
      if Halts(x) then !gate.parentDone && Checkpoints(y, Cancelled) && y.state == m
      else if !gate.grantValid then Checkpoints(y, WaitingAuth) && y.state == m
      else Proceeds(m, y)
    case InSave(_, status, stored, _) => stored && status == Running
    case InQuery(_, QueryDenied) => Checkpoints(y, WaitingAuth) && y.state == m
    case InQuery(_, QueryDefinite) => Checkpoints(y, Running) && Settled(m, y.state)
    case InQuery(_, QueryOther) => Checkpoints(y, Unknown) && y.state == m
    case InWrite(_, Unclear) => Checkpoints(y, Unknown) && y.state == m
    case InWrite(_, Denied) =>
      && Checkpoints(y, WaitingConfirmation) && m.proposal.Some?
      && y.state == m.(writePending := false, receipt := None, proposal := Some(m.proposal.value.(confirmed := false)))
    case InWrite(_, _) => Checkpoints(y, Running) && Settled(m, y.state)
    case InValidate(_, ValidateDenied) => Checkpoints(y, WaitingAuth) && y.state == m
    case InValidate(_, ValidateError) => Checkpoints(y, Running) && y.state == m.(calls := [], toolCount := m.toolCount + 1)
    case InValidate(_, Validated(None)) => Checkpoints(y, Failed) && y.state == m.(toolCount := m.toolCount + 1)
    case InValidate(_, Validated(Some(_))) => Checkpoints(y, Running) && y.state == m.(toolCount := m.toolCount + 1)
    case InRead(_, BatchError) => Checkpoints(y, Failed) && y.state == m
    case InRead(_, BatchDenied) => Checkpoints(y, WaitingAuth) && y.state == m
    case InRead(calls, BatchDone) =>
      Checkpoints(y, Running) && y.state == m.(calls := [], toolCount := m.toolCount + |calls|)
    case InCatalog(CatalogOk) => Checkpoints(y, Running) && y.state == m.(modelPending := true)
    case InCatalog(CatalogDenied) => Checkpoints(y, WaitingAuth) && y.state == m
    case InCatalog(RoleChanged) => Checkpoints(y, WaitingAuth) && y.state == m
    case InCatalog(_) => Checkpoints(y, Failed) && y.state == m
    case InModel(_, ModelStopped) => Checkpoints(y, Cancelled) && y.state == m
    case InModel(_, ModelError) => Checkpoints(y, Unknown) && y.state == m
    case InModel(_, ModelReply(calls, tokens, wellFormed, hasText)) =>
      && y.InSave?
      && y.state == m.(modelPending := false, round := m.round + 1, tokens := m.tokens + tokens, calls := y.state.calls)
      && if !wellFormed || |calls| > 24 || (calls == [] && !hasText) then y.status == Failed
         else y.state.calls == calls && y.status == if calls == [] then Succeeded else Running
  }

  /** What follows a stored checkpoint `y` of a running worker, made after `x`. */
  predicate Resumes(x: Input, y: Input, z: Input)
    requires y.InSave?
  {
    match x
    case InBeat(_, _, _, _) =>
      if y.state.proposal.Some? && y.state.proposal.value.confirmed then z.InWrite? && Some(z.proposal) == y.state.proposal
      else z.InRead? && z.calls == y.state.calls
    case InCatalog(_) => z.InModel? && z.round == y.state.round
    case InValidate(_, Validated(Some(args))) =>
      y.state.calls != [] && Checkpoints(z, WaitingConfirmation) && Proposed(y.state, z.state, y.state.calls[0], args)
    case InSave(_, _, _, _) => false
    case _ => z.InBeat?
  }

  /** An exchange after which the worker has left. */
  predicate Final(x: Input) {
    (x.InSave? && (!x.stored || x.status != Running)) || (Halts(x) && x.gate.parentDone)
  }

  ghost predicate Obeys(start: State, inputs: seq<Input>) {
    && (inputs != [] ==> inputs[0].InBeat?)
    && (forall k :: 0 <= k < |inputs| - 1 ==>
          !Final(inputs[k]) && Follows(Memory(start, inputs[..k]), inputs[k], inputs[k + 1]))
    && (forall k :: 0 <= k < |inputs| - 2 && inputs[k + 1].InSave? ==> Resumes(inputs[k], inputs[k + 1], inputs[k + 2]))
  }

  // ---- The machine obeys

  /** What the machine's position says of its memory and of the exchange before it. */
  predicate Shape(w: Worker) {
    match w.pc
    case Top => Unproposed(w.mem) || Confirmed(w.mem)
    case Querying => Confirmed(w.mem)
    case Invoking => Confirmed(w.mem)
    case AwaitWrite(_) => false
    case AwaitModel => true
    case Saving(st, next) =>
      && (next.Exit? <==> st != Running)
      && (match next
          case Exit => true
          case ThenInvoke => Confirmed(w.mem)
          case ThenPropose(c, _) => Unproposed(w.mem) && |w.mem.calls| > 0 && c == w.mem.calls[0]
          case _ => Unproposed(w.mem))
    case Gone => true
    case Validating => Unproposed(w.mem) && |w.mem.calls| > 0
    case _ => Unproposed(w.mem)
  }

  predicate Unproposed(m: State) { m.proposal.None? }

  lemma ShapeKept(w: Worker, x: Input)
    requires Shape(w) && Fits(w, x)
    ensures Shape(Advance(w, x))
  {
  }

  /** The next exchange follows the rules, for a worker whose memory is known between checkpoints. */
  lemma StepFollows(w: Worker, m: State, x: Input, y: Input)
    requires Shape(w) && Fits(w, x) && Fits(Advance(w, x), y)
    requires !x.InSave? ==> w.mem == m
    ensures !Final(x) && Follows(m, x, y)
  {
  }

  lemma StepResumes(w: Worker, x: Input, y: Input, z: Input)
    requires Shape(w) && Fits(w, x) && Fits(Advance(w, x), y) && y.InSave? && Fits(Advance(Advance(w, x), y), z)
    ensures Resumes(x, y, z)
  {
  }

  /** Between checkpoints the worker knows what it last checkpointed. */
  predicate Knows(w: Worker, m: State) { w.pc.Saving? || w.pc.Gone? || w.mem == m }

  lemma KnowsMore(w: Worker, m: State, x: Input)
    requires Knows(w, m) && Fits(w, x) && Shape(w)
    ensures Knows(Advance(w, x), if x.InSave? then x.state else m)
  {
  }

  lemma {:induction false} Known(w0: Worker, inputs: seq<Input>)
    requires w0.pc.Top? && Shape(w0) && Fitting(w0, inputs)
    ensures Shape(Replay(w0, inputs)) && Knows(Replay(w0, inputs), Memory(w0.mem, inputs))
  {
    hide Shape, Fits, Advance;
    if inputs != [] {
      var before, x := inputs[..|inputs| - 1], inputs[|inputs| - 1];
      Known(w0, before);
      ShapeKept(Replay(w0, before), x);
      KnowsMore(Replay(w0, before), Memory(w0.mem, before), x);
    }
  }

  lemma {:induction false} Prefix(w0: Worker, inputs: seq<Input>, k: nat)
    requires Fitting(w0, inputs) && k < |inputs|
    ensures Fitting(w0, inputs[..k]) && Fits(Replay(w0, inputs[..k]), inputs[k])
    ensures Replay(w0, inputs[..k + 1]) == Advance(Replay(w0, inputs[..k]), inputs[k])
  {
    hide Fits, Advance;
    var n := |inputs| - 1;
    if k < n {
      Prefix(w0, inputs[..n], k);
      assert inputs[..n][..k] == inputs[..k] && inputs[..n][..k + 1] == inputs[..k + 1];
    } else {
      assert inputs[..k + 1] == inputs;
    }
  }

  /** Every conversation of the machine keeps to the rules. */
  lemma ConversationObeys(w0: Worker, inputs: seq<Input>)
    requires w0.pc.Top? && Shape(w0) && Fitting(w0, inputs)
    ensures Obeys(w0.mem, inputs)
  {
    hide Shape, Fits, Advance, Follows, Resumes, Knows, Replay, Fitting;
    if inputs != [] { First(w0, inputs); }
    forall k | 0 <= k < |inputs| - 1
      ensures !Final(inputs[k]) && Follows(Memory(w0.mem, inputs[..k]), inputs[k], inputs[k + 1])
    {
      ObeysAt(w0, inputs, k);
    }
    forall k | 0 <= k < |inputs| - 2 && inputs[k + 1].InSave? ensures Resumes(inputs[k], inputs[k + 1], inputs[k + 2]) {
      Prefix(w0, inputs, k);
      Prefix(w0, inputs, k + 1);
      Prefix(w0, inputs, k + 2);
      Known(w0, inputs[..k]);
      StepResumes(Replay(w0, inputs[..k]), inputs[k], inputs[k + 1], inputs[k + 2]);
    }
  }

  lemma First(w0: Worker, inputs: seq<Input>)
    requires w0.pc.Top? && Fitting(w0, inputs) && inputs != []
    ensures inputs[0].InBeat?
  {
    Prefix(w0, inputs, 0);
  }

  lemma ObeysAt(w0: Worker, inputs: seq<Input>, k: nat)
    requires w0.pc.Top? && Shape(w0) && Fitting(w0, inputs) && k + 1 < |inputs|
    ensures !Final(inputs[k]) && Follows(Memory(w0.mem, inputs[..k]), inputs[k], inputs[k + 1])
  {
    Prefix(w0, inputs, k);
    Prefix(w0, inputs, k + 1);
    Known(w0, inputs[..k]);
    var w := Replay(w0, inputs[..k]);
    assert !inputs[k].InSave? ==> w.mem == Memory(w0.mem, inputs[..k]);
    hide Replay, Fitting, Memory, Advance, Shape;
    StepFollows(w, Memory(w0.mem, inputs[..k]), inputs[k], inputs[k + 1]);
  }

  /** A worker leaves by a final exchange, and by no other. */
  lemma LeavesByFinal(w0: Worker, inputs: seq<Input>)
    requires w0.pc.Top? && Shape(w0) && Fitting(w0, inputs) && Replay(w0, inputs).pc.Gone?
    ensures inputs != [] && Final(inputs[|inputs| - 1])
  {
    if inputs != [] {
      var before, x := inputs[..|inputs| - 1], inputs[|inputs| - 1];
      Prefix(w0, inputs, |inputs| - 1);
      Known(w0, before);
      hide Replay, Fitting;
      FinalStep(Replay(w0, before), x);
      assert inputs[..|inputs|] == inputs;
    }
  }

  lemma FinalStep(w: Worker, x: Input)
    requires Shape(w) && Fits(w, x) && Advance(w, x).pc.Gone?
    ensures Final(x)
  {
  }

  // ---- What the rules give

  /** After a stop, a lost lease or the end of its context a worker reaches for nothing any more. */
  lemma {:induction false} StopIsObeyed(start: State, inputs: seq<Input>, i: nat, j: nat)
    requires Obeys(start, inputs) && i < j < |inputs| && Halts(inputs[i])
    ensures j == i + 1 == |inputs| - 1 && Checkpoints(inputs[j], Cancelled)
  {
    assert Follows(Memory(start, inputs[..i]), inputs[i], inputs[i + 1]);
    assert Final(inputs[i + 1]);
  }

  /** A write is sent only after a stored checkpoint that names it, confirmed, as pending. */
  lemma WritesArePersisted(start: State, inputs: seq<Input>, k: nat)
    requires Obeys(start, inputs) && k < |inputs| && inputs[k].InWrite?
    ensures k > 0 && Checkpoints(inputs[k - 1], Running) && inputs[k - 1].stored
    ensures inputs[k - 1].state.writePending && inputs[k - 1].state.proposal == Some(inputs[k].proposal)
    ensures inputs[k].proposal.confirmed
  {
    Preceded(start, inputs, k);
    assert Resumes(inputs[k - 2], inputs[k - 1], inputs[k - 2 + 2]);
  }

  /** The model is asked only after a stored checkpoint that says so, within the budgets on rounds and tokens. */
  lemma RequestsArePersisted(start: State, inputs: seq<Input>, k: nat)
    requires Obeys(start, inputs) && k < |inputs| && inputs[k].InModel?
    ensures k > 0 && Checkpoints(inputs[k - 1], Running) && inputs[k - 1].stored
    ensures inputs[k - 1].state.modelPending && inputs[k].round == inputs[k - 1].state.round < 8
    ensures inputs[k - 1].state.tokens <= 48000
  {
    Preceded(start, inputs, k);
    assert inputs[k - 2].InCatalog?;
    assert Follows(Memory(start, inputs[..k - 2]), inputs[k - 2], inputs[k - 2 + 1]);
    assert inputs[0] != inputs[k - 2];
    assert Follows(Memory(start, inputs[..k - 3]), inputs[k - 3], inputs[k - 3 + 1]);
    assert inputs[..k - 2][..k - 3] == inputs[..k - 3];
  }

  /** Reads run at most four at a time, all of them valid, within the budget on tools. */
  lemma ReadsAreWithinRules(start: State, inputs: seq<Input>, k: nat)
    requires Obeys(start, inputs) && k < |inputs| && inputs[k].InRead?
    ensures 1 <= |inputs[k].calls| <= 4 && forall c :: c in inputs[k].calls ==> c.kind == Read && c.valid
    ensures k > 0 && inputs[k - 1].InSave? && inputs[k - 1].state.toolCount + |inputs[k].calls| <= 24
  {
    Preceded(start, inputs, k);
    assert inputs[k - 2].InBeat?;
  }

  /** Writes, model requests and reads come right after a stored checkpoint of the running worker. */
  lemma Preceded(start: State, inputs: seq<Input>, k: nat)
    requires Obeys(start, inputs) && k < |inputs| && (inputs[k].InWrite? || inputs[k].InModel? || inputs[k].InRead?)
    ensures k >= 2 && Checkpoints(inputs[k - 1], Running) && inputs[k - 1].stored
    ensures Follows(Memory(start, inputs[..k - 2]), inputs[k - 2], inputs[k - 1]) && Resumes(inputs[k - 2], inputs[k - 1], inputs[k])
  {
    assert Follows(Memory(start, inputs[..k - 1]), inputs[k - 1], inputs[k - 1 + 1]);
    assert Follows(Memory(start, inputs[..k - 2]), inputs[k - 2], inputs[k - 2 + 1]);
    assert Resumes(inputs[k - 2], inputs[k - 2 + 1], inputs[k - 2 + 2]);
  }
}
