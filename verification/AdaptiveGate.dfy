/** The admission gate of the model transport: a concurrency limit that adapts, and a circuit breaker. */
module AdaptiveGate {

  /** How an admitted request ended, as far as the gate cares. */
  datatype Ending = Succeeded | Retryable | Uncertain | Fatal | Other

  datatype Refusal = Blocked | CoolingDown(left: int) | Queued

  /** A gate's fields; times are in nanoseconds. */
  datatype State = State(active: int, limit: int, maximum: int, failures: nat, successes: nat, until: int, cooldown: int,
                         fatal: bool, halfOpen: bool)

  function Max(a: int, b: int): int { if a > b then a else b }

  function Min(a: int, b: int): int { if a < b then a else b }

  /** Whether a request may go out now. */
  predicate Admits(g: State, now: int) {
    !g.fatal && now >= g.until && g.active < g.limit && (g.halfOpen ==> g.active <= 0)
  }

  /** A failure opens the circuit when it is the third in a row, ends a probe, or asks for a delay. */
  predicate Trips(g: State, ending: Ending, delay: int) {
    (ending == Retryable || ending == Uncertain) && (g.failures + 1 >= 3 || g.halfOpen || delay > 0)
  }

  /** A success that arrives while the circuit cools down is stale. */
  predicate Counts(g: State, ending: Ending, now: int) { ending == Succeeded && now >= g.until }

  function Finished(g: State, ending: Ending, delay: int, now: int): (h: State)
    ensures h.active == g.active - 1 && h.maximum == g.maximum && h.cooldown == g.cooldown
    ensures h.until >= g.until && (g.fatal ==> h.fatal) && (ending == Fatal ==> h.fatal)
  {
    var left := g.(active := g.active - 1, fatal := g.fatal || ending == Fatal);
    if ending == Retryable || ending == Uncertain then
      var opens := g.failures + 1 >= 3 || g.halfOpen;
      var wait := if opens then Max(delay, g.cooldown) else delay;
      left.(limit := Max(1, g.limit / 2), failures := g.failures + 1, successes := 0,
            halfOpen := opens || wait > 0,
            until := if wait > 0 then Max(g.until, now + wait) else g.until)
    else if Counts(g, ending, now) then
      var full := g.successes + 1 >= 8;
      left.(failures := 0, halfOpen := false, successes := if full then 0 else g.successes + 1,
            limit := if full then Min(g.maximum, g.limit + 1) else g.limit)
    else left
  }

  class Gate {
    var active: int
    var limit: int
    var maximum: int
    var failures: nat
    var successes: nat
    var until: int
    var cooldown: int
    var fatal: bool
    var halfOpen: bool

    ghost function Now(): State
      reads this
    {
      State(active, limit, maximum, failures, successes, until, cooldown, fatal, halfOpen)
    }

    constructor (initial: int, maximum: int, cooldown: int, epoch: int)
      ensures Now() == State(0, initial, maximum, 0, 0, epoch, cooldown, false, false)
    {
      active, limit, failures, successes, fatal, halfOpen := 0, initial, 0, 0, false, false;
      this.maximum, this.cooldown, until := maximum, cooldown, epoch;
    }

    method Admit(now: int) returns (ok: bool, refusal: Refusal)
      modifies `active
      ensures ok == Admits(old(Now()), now)
      ensures Now() == if ok then old(Now()).(active := old(active) + 1) else old(Now())
      ensures !ok ==> refusal == if fatal then Blocked else if now < until then CoolingDown(until - now) else Queued
    {
      ok, refusal := false, Queued;
      if fatal { return false, Blocked; }
      if now < until { return false, CoolingDown(until - now); }
      if active >= limit || (halfOpen && active > 0) { return; }
      active := active + 1;
      ok := true;
    }

    method Done(ending: Ending, retryAfter: int, now: int) returns (shown: int)
      modifies this
      ensures Now() == Finished(old(Now()), ending, retryAfter, now)
      ensures shown == limit
    {
      active := active - 1;
      if ending == Fatal { fatal := true; }
      if ending == Retryable || ending == Uncertain {
        limit := Max(1, limit / 2);
        failures := failures + 1;
        successes := 0;
        var delay := retryAfter;
        if failures >= 3 || halfOpen {
          delay := Max(delay, cooldown);
          halfOpen := true;
        }
        if delay > 0 {
          until := Max(until, now + delay);
          halfOpen := true;
        }
      } else if ending == Succeeded {
        if now >= until {
          failures := 0;
          halfOpen := false;
          successes := successes + 1;
          if successes >= 8 {
            limit := Min(maximum, limit + 1);
            successes := 0;
          }
        }
      }
      shown := limit;
    }
  }

  // ---- Traces

  type Id = nat

  datatype Event = Admit(id: Id, now: int) | Done(id: Id, ending: Ending, delay: int, now: int)

  /**
   * The gate among its requests: `flight` are admitted and not done, `probes` those of them admitted since the
   * circuit last opened, `admitted` and `good` count admissions and successes.
   */
  datatype World = World(g: State, flight: set<Id>, probes: set<Id>, admitted: nat, finished: nat, good: nat)

  /** A new request is offered, or one in flight ends. A refused request changes nothing. */
  predicate Enabled(w: World, e: Event) {
    match e
    case Admit(id, now) => id !in w.flight
    case Done(id, ending, delay, now) => id in w.flight
  }

  function Next(w: World, e: Event): World {
    match e
    case Admit(id, now) =>
      if Admits(w.g, now)
      then w.(g := w.g.(active := w.g.active + 1), flight := w.flight + {id}, probes := w.probes + {id}, admitted := w.admitted + 1)
      else w
    case Done(id, ending, delay, now) =>
      World(Finished(w.g, ending, delay, now), w.flight - {id},
            if Trips(w.g, ending, delay) then {} else w.probes - {id},
            w.admitted, w.finished + 1, w.good + if ending == Succeeded then 1 else 0)
  }

  function Start(initial: int, maximum: int, cooldown: int, epoch: int): World {
    World(State(0, initial, maximum, 0, 0, epoch, cooldown, false, false), {}, {}, 0, 0, 0)
  }

  ghost predicate Feasible(w: World, trace: seq<Event>)
    decreases |trace|
  {
    trace != [] ==> Enabled(w, trace[0]) && Feasible(Next(w, trace[0]), trace[1..])
  }

  function After(w: World, trace: seq<Event>): World
    decreases |trace|
  {
    if trace == [] then w else After(Next(w, trace[0]), trace[1..])
  }

  ghost predicate Sound(w: World, initial: int) {
    && w.g.active == |w.flight| == w.admitted - w.finished
    && w.probes <= w.flight
    && w.g.active <= w.g.maximum && 1 <= w.g.limit <= w.g.maximum
    && 8 * w.g.limit + w.g.successes <= 8 * initial + w.good
    && (w.g.halfOpen ==> w.probes == {} || (w.flight == w.probes && |w.probes| == 1))
  }

  lemma AdmissionIsSound(w: World, id: Id, now: int, initial: int)
    requires Sound(w, initial) && Enabled(w, Admit(id, now))
    ensures Sound(Next(w, Admit(id, now)), initial)
  {
    if w.g.halfOpen && Admits(w.g, now) {
      assert w.flight == {};
      assert w.flight + {id} == {id} == w.probes + {id};
    }
  }

  /** An ending moves the limit within its bounds; every step up is paid for by eight successes. */
  lemma EndingKeepsLimit(g: State, ending: Ending, delay: int, now: int, budget: int)
    requires 1 <= g.limit <= g.maximum && 8 * g.limit + g.successes <= budget
    ensures var h := Finished(g, ending, delay, now);
      1 <= h.limit <= h.maximum && 8 * h.limit + h.successes <= budget + if ending == Succeeded then 1 else 0
  {
  }

  lemma EndingIsSound(w: World, id: Id, ending: Ending, delay: int, now: int, initial: int)
    requires Sound(w, initial) && Enabled(w, Done(id, ending, delay, now))
    ensures Sound(Next(w, Done(id, ending, delay, now)), initial)
  {
    EndingKeepsLimit(w.g, ending, delay, now, 8 * initial + w.good);
    assert |w.flight - {id}| == |w.flight| - 1;
    var h := Finished(w.g, ending, delay, now);
    assert h.halfOpen ==> w.g.halfOpen || Trips(w.g, ending, delay);
    hide Finished;
  }

  lemma StepIsSound(w: World, e: Event, initial: int)
    requires Sound(w, initial) && Enabled(w, e)
    ensures Sound(Next(w, e), initial)
  {
    hide Sound;
    match e
    case Admit(id, now) => AdmissionIsSound(w, id, now, initial);
    case Done(id, ending, delay, now) => EndingIsSound(w, id, ending, delay, now, initial);
  }

  lemma {:induction false} TraceIsSound(w: World, trace: seq<Event>, initial: int)
    requires Sound(w, initial) && Feasible(w, trace)
    ensures Sound(After(w, trace), initial)
    decreases |trace|
  {
    if trace != [] {
      StepIsSound(w, trace[0], initial);
      TraceIsSound(Next(w, trace[0]), trace[1..], initial);
    }
  }

  /** Concurrency stays within its bounds, grows one step in eight successes, and an open circuit probes one request at a time. */
  lemma GateIsSafe(initial: int, maximum: int, cooldown: int, epoch: int, trace: seq<Event>)
    requires 1 <= initial <= maximum && Feasible(Start(initial, maximum, cooldown, epoch), trace)
    ensures var w := After(Start(initial, maximum, cooldown, epoch), trace);
      && w.g.active == w.admitted - w.finished && 0 <= w.g.active <= maximum
      && 1 <= w.g.limit <= maximum && w.g.limit <= initial + w.good / 8
      && (w.g.halfOpen ==> |w.probes| <= 1)
  {
    var w := Start(initial, maximum, cooldown, epoch);
    TraceIsSound(w, trace, initial);
    MaximumKept(w, trace);
    assert Sound(After(w, trace), initial);
  }

  lemma {:induction false} MaximumKept(w: World, trace: seq<Event>)
    ensures After(w, trace).g.maximum == w.g.maximum
    decreases |trace|
  {
    if trace != [] { MaximumKept(Next(w, trace[0]), trace[1..]); }
  }

  /** A cooldown is never shortened, and after a fatal answer nothing is ever admitted again. */
  lemma {:induction false} NoWayBack(w: World, trace: seq<Event>)
    requires Feasible(w, trace)
    ensures After(w, trace).g.until >= w.g.until
    ensures w.g.fatal ==> After(w, trace).g.fatal && After(w, trace).admitted == w.admitted
    decreases |trace|
  {
    if trace != [] { NoWayBack(Next(w, trace[0]), trace[1..]); }
  }

  /** An opening circuit waits out its cooldown, whatever was in flight. */
  lemma TripCoolsDown(w: World, id: Id, ending: Ending, delay: int, now: int, later: int)
    requires Trips(w.g, ending, delay) && (w.g.failures + 1 >= 3 || w.g.halfOpen) && later < now + w.g.cooldown
    requires w.g.cooldown > 0
    ensures var v := Next(w, Done(id, ending, delay, now)); v.g.halfOpen && v.probes == {} && !Admits(v.g, later)
  {
  }

  /** No success arrives once the cooldown in force at its time is over. */
  predicate NothingClears(w: World, trace: seq<Event>)
    decreases |trace|
  {
    trace != [] ==>
      (trace[0].Done? ==> !Counts(w.g, trace[0].ending, trace[0].now)) && NothingClears(Next(w, trace[0]), trace[1..])
  }

  /** Until the first success after its cooldown, an open circuit stays open, and lets through one probe at a time. */
  lemma {:induction false} OpenProbesOne(w: World, trace: seq<Event>, initial: int)
    requires Sound(w, initial) && w.g.halfOpen && Feasible(w, trace) && NothingClears(w, trace)
    ensures After(w, trace).g.halfOpen && |After(w, trace).probes| <= 1
    decreases |trace|
  {
    if trace != [] {
      StepIsSound(w, trace[0], initial);
      OpenProbesOne(Next(w, trace[0]), trace[1..], initial);
    }
  }

  /** The circuit always recovers: once idle, past its cooldown and not blocked, the next request goes out. */
  lemma IdleGateAdmits(w: World, initial: int, now: int)
    requires Sound(w, initial) && w.flight == {} && now >= w.g.until
    ensures Admits(w.g, now) <==> !w.g.fatal
  {
  }

  // ---- What an ending does

  /** A request that failed or whose outcome is unknown. */
  predicate Fails(ending: Ending) { ending == Retryable || ending == Uncertain }

  /** A failure halves the limit, down to one; a wait it asks for is kept; a third in a row, or a failing probe, opens
      the circuit for its cooldown. */
  lemma FailureMeans(g: State, ending: Ending, delay: int, now: int, later: int)
    requires Fails(ending)
    ensures var h := Finished(g, ending, delay, now);
      && (g.limit > 1 ==> 1 <= h.limit < g.limit && g.limit - 1 <= 2 * h.limit <= g.limit)
      && h.failures == g.failures + 1 && h.successes == 0
      && (0 < delay && later < now + delay ==> !Admits(h, later))
      && (h.halfOpen <==> g.halfOpen || g.failures >= 2 || delay > 0)
      && (g.halfOpen || g.failures >= 2 ==> later < now + g.cooldown && g.cooldown > 0 ==> !Admits(h, later))
      && (delay <= 0 && !g.halfOpen && g.failures < 2 ==> h.until == g.until)
  {
  }

  /** A success, once the cooldown is over, closes the circuit and counts towards the next step up; eight make one. */
  lemma SuccessMeans(g: State, now: int)
    requires 1 <= g.limit <= g.maximum
    ensures var h := Finished(g, Succeeded, 0, now);
      if now < g.until then h == g.(active := g.active - 1)
      else && !h.halfOpen && h.failures == 0 && h.until == g.until && h.fatal == g.fatal
           && if g.successes >= 7 then h.successes == 0 && h.limit == if g.limit < g.maximum then g.limit + 1 else g.limit
              else h.successes == g.successes + 1 && h.limit == g.limit
  {
  }

  /** Other endings free the place and nothing else; a fatal one blocks the gate. */
  lemma OthersMean(g: State, ending: Ending, delay: int, now: int)
    requires ending == Other || ending == Fatal
    ensures Finished(g, ending, delay, now) == g.(active := g.active - 1, fatal := g.fatal || ending == Fatal)
  {
  }

  /** A gate that is not blocked, cooling down or full admits; while its circuit is open it must be idle as well. */
  lemma AdmitsWhenFree(g: State, now: int)
    ensures Admits(g, now) <==>
      !g.fatal && g.until <= now && (if g.halfOpen then g.active <= 0 && g.active < g.limit else g.active < g.limit)
  {
  }

  /** The failures in a row at the end of a trace, none of them followed by a success that counts. */
  predicate Failing(w: World, trace: seq<Event>)
    decreases |trace|
  {
    trace != [] ==>
      trace[0].Done? && Fails(trace[0].ending) && Failing(Next(w, trace[0]), trace[1..])
  }

  lemma {:induction false} FailuresAddUp(w: World, trace: seq<Event>)
    requires Failing(w, trace)
    ensures After(w, trace).g.failures == w.g.failures + |trace|
    ensures w.g.halfOpen ==> After(w, trace).g.halfOpen
    ensures w.g.failures + |trace| >= 3 && trace != [] ==> After(w, trace).g.halfOpen
    decreases |trace|
  {
    if trace != [] { FailuresAddUp(Next(w, trace[0]), trace[1..]); }
  }

  /** Three failures in a row open the circuit, whatever came before. */
  lemma ThreeFailuresOpen(w: World, trace: seq<Event>)
    requires Failing(w, trace) && |trace| >= 3
    ensures After(w, trace).g.halfOpen
  {
    FailuresAddUp(w, trace);
  }
}
