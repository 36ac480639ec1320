/** The batch executor of the tool registry: all-or-nothing validation, then a pool of workers over shared results. */
module ToolBatch {
  import opened Options
  import opened Sets

  const MAX_CALLS := 24

  /** `valid` is the verdict of the tool's input schema on the arguments. */
  datatype Call = Call(id: string, tool: string, valid: bool, operation: string, approval: string)

  datatype Refusal = BadSize | BadId | UnknownTool | InvalidArguments | MixedWriteBatch | ConfirmationRequired

  /** The registered tools, and whether each only reads. */
  type Tools = map<string, bool>

  predicate Reads(tools: Tools, c: Call) { c.tool in tools && tools[c.tool] }

  /** A batch that may run: distinct ids, valid calls, and a write only alone and approved. */
  ghost predicate Runnable(tools: Tools, calls: seq<Call>) {
    && 1 <= |calls| <= 24
    && (forall i :: 0 <= i < |calls| ==> calls[i].id != "" && calls[i].tool in tools && calls[i].valid)
    && (forall i, j :: 0 <= i < j < |calls| ==> calls[i].id != calls[j].id)
    && (forall i :: 0 <= i < |calls| ==> Reads(tools, calls[i]) || (|calls| == 1 && calls[i].operation != "" && calls[i].approval != ""))
  }

  method Check(tools: Tools, calls: seq<Call>) returns (refusal: Option<Refusal>)
    ensures refusal.None? <==> Runnable(tools, calls)
  {
    if |calls| < 1 || |calls| > MAX_CALLS { return Some(BadSize); }
    var seen: set<string> := {};
    for k := 0 to |calls|
      invariant seen == set i | 0 <= i < k :: calls[i].id
      invariant forall i :: 0 <= i < k ==> calls[i].id != "" && calls[i].tool in tools && calls[i].valid
      invariant forall i, j :: 0 <= i < j < k ==> calls[i].id != calls[j].id
      invariant forall i :: 0 <= i < k ==>
        Reads(tools, calls[i]) || (|calls| == 1 && calls[i].operation != "" && calls[i].approval != "")
    {
      var c := calls[k];
      if c.id == "" || c.id in seen { return Some(BadId); }
      seen := seen + {c.id};
      if c.tool !in tools { return Some(UnknownTool); }
      if !c.valid { return Some(InvalidArguments); }
      if !Reads(tools, c) && |calls| != 1 { return Some(MixedWriteBatch); }
      if !Reads(tools, c) && (c.approval == "" || c.operation == "") { return Some(ConfirmationRequired); }
    }
    refusal := None;
  }

  // ---- The pool

  /** What `Execute` gave for one call: a result, or an error (wrapped as TOOL_FAILED when it has no code). */
  datatype Outcome = Outcome(callId: string, result: string, failed: bool)

  /**
   * `next` is the index the feeding loop sends next, `busy` what each worker holds, `executed` the log of calls that
   * were started, `results` the shared slice.
   */
  datatype Pool = Pool(next: nat, busy: map<nat, nat>, executed: seq<nat>, results: seq<Option<Outcome>>)

  datatype Event = Takes(worker: nat) | Ends(worker: nat, result: string, failed: bool)

  function Workers(parallel: nat, calls: seq<Call>): nat { if parallel < |calls| then parallel else |calls| }

  function Start(calls: seq<Call>): Pool { Pool(0, map[], [], seq(|calls|, i => None)) }

  predicate Enabled(calls: seq<Call>, workers: nat, p: Pool, e: Event) {
    match e
    case Takes(worker) => worker < workers && worker !in p.busy && p.next < |calls|
    case Ends(worker, result, failed) => worker in p.busy
  }

  function Next(calls: seq<Call>, p: Pool, e: Event): Pool
    requires |p.results| == |calls| && forall w :: w in p.busy ==> p.busy[w] < |calls|
    requires e.Ends? ==> e.worker in p.busy
  {
    match e
    case Takes(worker) => p.(next := p.next + 1, busy := p.busy[worker := p.next], executed := p.executed + [p.next])
    case Ends(worker, result, failed) =>
      var i := p.busy[worker];
      p.(busy := p.busy - {worker}, results := p.results[i := Some(Outcome(calls[i].id, result, failed))])
  }

  /** Nobody else writes slot `i`; a slot is filled exactly when its call was started and is no longer held. */
  ghost predicate Sound(calls: seq<Call>, workers: nat, p: Pool) {
    && |p.results| == |calls| && p.next <= |calls|
    && (forall w :: w in p.busy ==> w < workers && p.busy[w] < p.next)
    && (forall w, v :: w in p.busy && v in p.busy && p.busy[w] == p.busy[v] ==> w == v)
    && |p.executed| == p.next && (forall k :: 0 <= k < p.next ==> p.executed[k] == k)
    && (forall i :: 0 <= i < |calls| ==> (p.results[i].Some? <==> i < p.next && !Held(p, i)))
    && (forall i :: 0 <= i < |calls| && p.results[i].Some? ==> p.results[i].value.callId == calls[i].id)
  }

  predicate Held(p: Pool, i: nat) { exists w :: w in p.busy && p.busy[w] == i }

  lemma TakeIsSound(calls: seq<Call>, workers: nat, p: Pool, worker: nat)
    requires Sound(calls, workers, p) && Enabled(calls, workers, p, Takes(worker))
    ensures Sound(calls, workers, Next(calls, p, Takes(worker)))
  {
    var q := Next(calls, p, Takes(worker));
    forall i: nat | i < |calls| ensures Held(q, i) <==> Held(p, i) || i == p.next {
      if Held(p, i) {
        var w :| w in p.busy && p.busy[w] == i;
        assert w in q.busy && q.busy[w] == i;
      }
      if i == p.next { assert worker in q.busy && q.busy[worker] == i; }
    }
  }

  lemma EndIsSound(calls: seq<Call>, workers: nat, p: Pool, worker: nat, result: string, failed: bool)
    requires Sound(calls, workers, p) && worker in p.busy
    ensures Sound(calls, workers, Next(calls, p, Ends(worker, result, failed)))
  {
    var q := Next(calls, p, Ends(worker, result, failed));
    forall i: nat | i < |calls| ensures Held(q, i) <==> Held(p, i) && i != p.busy[worker] {
      if Held(p, i) && i != p.busy[worker] {
        var w :| w in p.busy && p.busy[w] == i;
        assert w in q.busy && q.busy[w] == i;
      }
    }
  }

  ghost predicate Feasible(calls: seq<Call>, workers: nat, p: Pool, trace: seq<Event>)
    requires Sound(calls, workers, p)
    decreases |trace|
  {
    if trace == [] then true
    else
      && Enabled(calls, workers, p, trace[0])
      && (StepIsSound(calls, workers, p, trace[0]); Feasible(calls, workers, Next(calls, p, trace[0]), trace[1..]))
  }

  lemma StepIsSound(calls: seq<Call>, workers: nat, p: Pool, e: Event)
    requires Sound(calls, workers, p) && Enabled(calls, workers, p, e)
    ensures Sound(calls, workers, Next(calls, p, e))
  {
    match e
    case Takes(worker) => TakeIsSound(calls, workers, p, worker);
    case Ends(worker, result, failed) => EndIsSound(calls, workers, p, worker, result, failed);
  }

  predicate Finished(calls: seq<Call>, p: Pool) { p.next == |calls| && p.busy == map[] }

  function After(calls: seq<Call>, workers: nat, p: Pool, trace: seq<Event>): Pool
    requires Sound(calls, workers, p) && Feasible(calls, workers, p, trace)
    decreases |trace|
  {
    if trace == [] then p
    else
      StepIsSound(calls, workers, p, trace[0]);
      After(calls, workers, Next(calls, p, trace[0]), trace[1..])
  }

  lemma {:induction false} TraceIsSound(calls: seq<Call>, workers: nat, p: Pool, trace: seq<Event>)
    requires Sound(calls, workers, p) && Feasible(calls, workers, p, trace)
    ensures Sound(calls, workers, After(calls, workers, p, trace))
    decreases |trace|
  {
    if trace != [] {
      StepIsSound(calls, workers, p, trace[0]);
      TraceIsSound(calls, workers, Next(calls, p, trace[0]), trace[1..]);
    }
  }

  lemma StartIsSound(calls: seq<Call>, workers: nat)
    ensures Sound(calls, workers, Start(calls))
  {
  }

  /** How the worker's next call ended, in a trace. */
  function EndOf(trace: seq<Event>, worker: nat): Option<(string, bool)> {
    if trace == [] then None
    else if trace[0].Ends? && trace[0].worker == worker then Some((trace[0].result, trace[0].failed))
    else EndOf(trace[1..], worker)
  }

  /** What the worker that takes the call after the next `i` ones makes of it, in a trace. */
  function Reported(trace: seq<Event>, i: nat): Option<(string, bool)> {
    if trace == [] then None
    else if trace[0].Ends? then Reported(trace[1..], i)
    else if i == 0 then EndOf(trace[1..], trace[0].worker)
    else Reported(trace[1..], i - 1)
  }

  function Wrapped(call: Call, end: Option<(string, bool)>): Option<Outcome> {
    match end
    case None => None
    case Some((result, failed)) => Some(Outcome(call.id, result, failed))
  }

  /** A filled slot keeps its outcome. */
  lemma {:induction false} SlotIsFinal(calls: seq<Call>, workers: nat, p: Pool, trace: seq<Event>, i: nat)
    requires Sound(calls, workers, p) && Feasible(calls, workers, p, trace)
    requires i < |calls| && p.results[i].Some?
    ensures |After(calls, workers, p, trace).results| == |calls| && After(calls, workers, p, trace).results[i] == p.results[i]
    decreases |trace|
  {
    if trace != [] {
      var q := Next(calls, p, trace[0]);
      assert q.results[i] == p.results[i];
      StepIsSound(calls, workers, p, trace[0]);
      hide Sound;
      SlotIsFinal(calls, workers, q, trace[1..], i);
    }
  }

  /** The slot of a call in hand gets what its worker ends with. */
  lemma {:induction false} HolderReports(calls: seq<Call>, workers: nat, p: Pool, trace: seq<Event>, worker: nat)
    requires Sound(calls, workers, p) && Feasible(calls, workers, p, trace) && worker in p.busy
    ensures var i := p.busy[worker];
      && i < |calls| == |After(calls, workers, p, trace).results|
      && After(calls, workers, p, trace).results[i] == Wrapped(calls[i], EndOf(trace, worker))
    decreases |trace|
  {
    if trace != [] {
      var q := Next(calls, p, trace[0]);
      StepIsSound(calls, workers, p, trace[0]);
      if trace[0].Ends? && trace[0].worker == worker {
        SlotIsFinal(calls, workers, q, trace[1..], p.busy[worker]);
      } else {
        hide Sound;
        HolderReports(calls, workers, q, trace[1..], worker);
      }
    }
  }

  /** The slot of a call still to be taken gets what the worker that takes it ends with. */
  lemma {:induction false} TakerReports(calls: seq<Call>, workers: nat, p: Pool, trace: seq<Event>, i: nat)
    requires Sound(calls, workers, p) && Feasible(calls, workers, p, trace) && p.next <= i < |calls|
    ensures |After(calls, workers, p, trace).results| == |calls|
    ensures After(calls, workers, p, trace).results[i] == Wrapped(calls[i], Reported(trace, i - p.next))
    decreases |trace|
  {
    if trace != [] {
      var q := Next(calls, p, trace[0]);
      StepIsSound(calls, workers, p, trace[0]);
      if trace[0].Takes? && i == p.next {
        HolderReports(calls, workers, q, trace[1..], trace[0].worker);
      } else {
        hide Sound;
        TakerReports(calls, workers, q, trace[1..], i);
      }
    }
  }

  /**
   * However the workers interleave: every call runs exactly once, and at its own place stands what the worker that
   * took it ended with.
   */
  lemma BatchIsComplete(calls: seq<Call>, workers: nat, trace: seq<Event>)
    requires Sound(calls, workers, Start(calls)) && Feasible(calls, workers, Start(calls), trace)
    requires Finished(calls, After(calls, workers, Start(calls), trace))
    ensures var p := After(calls, workers, Start(calls), trace);
      && p.executed == seq(|calls|, i => i)
      && |p.results| == |calls|
      && forall i :: 0 <= i < |calls| ==>
           p.results[i].Some? && p.results[i] == Wrapped(calls[i], Reported(trace, i))
  {
    TraceIsSound(calls, workers, Start(calls), trace);
    var p := After(calls, workers, Start(calls), trace);
    assert forall i: nat :: !Held(p, i);
    assert p.executed == seq(|calls|, i => i);
    forall i | 0 <= i < |calls| ensures p.results[i] == Wrapped(calls[i], Reported(trace, i)) {
      TakerReports(calls, workers, Start(calls), trace, i);
    }
  }

  /** The pool cannot get stuck: until it is finished, with a worker at all, something can happen. */
  lemma SomethingIsEnabled(calls: seq<Call>, workers: nat, p: Pool)
    requires Sound(calls, workers, p) && workers > 0 && !Finished(calls, p)
    ensures exists e :: Enabled(calls, workers, p, e)
  {
    if w :| w in p.busy {
      assert Enabled(calls, workers, p, Ends(w, "", false));
    } else {
      assert p.busy == map[];
      assert Enabled(calls, workers, p, Takes(0));
    }
  }

  /** Every event brings the end closer, so every schedule ends. */
  lemma EventsRunOut(calls: seq<Call>, workers: nat, p: Pool, e: Event)
    requires Sound(calls, workers, p) && Enabled(calls, workers, p, e)
    ensures var q := Next(calls, p, e);
      0 <= 2 * (|calls| - q.next) + |q.busy| < 2 * (|calls| - p.next) + |p.busy|
  {
    StepIsSound(calls, workers, p, e);
    assert Next(calls, p, e).next <= |calls|;
    hide Sound;
    match e
    case Takes(worker) => assert |p.busy[worker := p.next]| == |p.busy| + 1;
    case Ends(worker, result, failed) => BusyLess(p.busy, worker);
  }

  lemma BusyLess(busy: map<nat, nat>, worker: nat)
    requires worker in busy
    ensures |busy - {worker}| == |busy| - 1
  {
    assert busy == (busy - {worker})[worker := busy[worker]];
  }

  /** No more calls are in hand than there are workers. */
  lemma AtMostWorkersBusy(calls: seq<Call>, workers: nat, p: Pool)
    requires Sound(calls, workers, p)
    ensures |p.busy| <= workers
  {
    Smaller(p.busy.Keys, Below(workers));
  }

  function Below(n: nat): (s: set<nat>)
    ensures |s| == n && forall w: nat :: w in s <==> w < n
  {
    if n == 0 then {} else Below(n - 1) + {n - 1}
  }
}
