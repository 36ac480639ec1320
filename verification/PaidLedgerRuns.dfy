/** Every run of the ledger: coordinators that dispatch, crash and resume, and operators that resolve. */
module PaidLedgerRuns {
  import opened Options
  import opened PaidLedger

  /** `flight` holds the stages whose caller still waits for an answer (or computes one). */
  datatype World = World(t: Tables, flight: set<Key>)

  datatype Move =
    | Begins(key: Key, hash: Hash, now: int, answer: Begun)
    | Completes(key: Key, response: Response, now: int)
    | Resolving(key: Key, retry: bool)
    | BeginsLocal(key: Key, hash: Hash)
    | Abandons(key: Key)
    | Crashes
    | Registering(s: SampleRow)
    | Freezing(sample: SampleId, value: string)
    | Confirming(sample: SampleId, tag: string, point: Point)
    | Delivering(sha: string)

  /**
   * One coordinator runs at a time, under an exclusive lock, and waits for every answer it asked for: a stage has at
   * most one outstanding call. An exception abandons one call, a crash ends them all. Local steps only end in "ok". Operators resolve at any time.
   */
  ghost predicate Takes(w: World, m: Move, v: World) {
    match m
    case Begins(key, h, now, answer) =>
      key.stage.Model? && Due(w.t, key, h, now, answer)
      && if answer.Go? then key !in w.flight && Charges(w.t, v.t, key, h) && v.flight == w.flight + {key} else v == w
    case Completes(key, response, now) =>
      key in w.flight && Sound(response) && (key.stage.Local? ==> response.kind == Okay)
      && Settles(w.t, v.t, key, response, now) && v.flight == w.flight - {key}
    case Resolving(key, retry) => Resolves(w.t, v.t, key, retry) && v.flight == w.flight
    case BeginsLocal(key, h) => key !in w.flight && StartsLocal(w.t, v.t, key, h) && v.flight == w.flight + {key}
    case Abandons(key) => v == w.(flight := w.flight - {key})
    case Crashes => v == w.(flight := {})
    case Registering(s) => Registers(w.t, v.t, s) && v.flight == w.flight
    case Freezing(sample, value) => Freezes(w.t, v.t, sample, value) && v.flight == w.flight
    case Confirming(sample, tag, point) => Confirms(w.t, v.t, sample, tag, point) && v.flight == w.flight
    case Delivering(sha) => Delivers(w.t, v.t, sha) && v.flight == w.flight
  }

  ghost predicate Run(worlds: seq<World>, moves: seq<Move>) {
    && |worlds| == |moves| + 1 && worlds[0] == World(EMPTY, {})
    && forall i :: 0 <= i < |moves| ==> Takes(worlds[i], moves[i], worlds[i + 1])
  }

  // ---- Reading the log

  predicate IsDispatch(e: Event, k: Key) { e.Dispatch? && e.key == k }

  predicate IsDeferral(e: Event, k: Key) { e.Settled? && e.key == k && e.response.kind == Deferred }

  /** A retryable or deferred answer, or an operator who accepts the risk of a second charge. */
  predicate IsRelease(e: Event, k: Key) {
    (e.Settled? && e.key == k && (e.response.kind == Retryable || e.response.kind == Deferred))
    || (e.Resolution? && e.key == k && e.retry)
  }

  function Dispatches(log: seq<Event>, k: Key): nat {
    if log == [] then 0 else Dispatches(log[..|log| - 1], k) + if IsDispatch(log[|log| - 1], k) then 1 else 0
  }

  function Deferrals(log: seq<Event>, k: Key): nat {
    if log == [] then 0 else Deferrals(log[..|log| - 1], k) + if IsDeferral(log[|log| - 1], k) then 1 else 0
  }

  lemma Counts(log: seq<Event>, e: Event, k: Key)
    ensures Dispatches(log + [e], k) == Dispatches(log, k) + if IsDispatch(e, k) then 1 else 0
    ensures Deferrals(log + [e], k) == Deferrals(log, k) + if IsDeferral(e, k) then 1 else 0
  {
    assert (log + [e])[..|log + [e]| - 1] == log;
  }

  predicate ReleasedBetween(log: seq<Event>, i: int, j: int, k: Key)
    requires 0 <= i && j <= |log|
  {
    exists m :: i < m < j && IsRelease(log[m], k)
  }

  /** Between two dispatches of a stage there is always a release. */
  ghost predicate Spaced(log: seq<Event>, k: Key) {
    forall i, j :: 0 <= i < j < |log| && IsDispatch(log[i], k) && IsDispatch(log[j], k) ==> ReleasedBetween(log, i, j, k)
  }

  ghost predicate Released(log: seq<Event>, k: Key) {
    forall i :: 0 <= i < |log| && IsDispatch(log[i], k) ==> ReleasedBetween(log, i, |log|, k)
  }

  lemma Logged(log: seq<Event>, e: Event, k: Key)
    requires Spaced(log, k) && (IsDispatch(e, k) ==> Released(log, k))
    ensures Spaced(log + [e], k)
    ensures IsRelease(e, k) || (Released(log, k) && !IsDispatch(e, k)) ==> Released(log + [e], k)
  {
    var more := log + [e];
    forall i, j | 0 <= i < j < |more| && IsDispatch(more[i], k) && IsDispatch(more[j], k)
      ensures ReleasedBetween(more, i, j, k)
    {
      assert ReleasedBetween(log, i, j, k);
      var m :| i < m < j && IsRelease(log[m], k);
      assert IsRelease(more[m], k);
    }
    if IsRelease(e, k) || (Released(log, k) && !IsDispatch(e, k)) {
      forall i | 0 <= i < |more| && IsDispatch(more[i], k) ensures ReleasedBetween(more, i, |more|, k) {
        if IsRelease(e, k) {
          assert IsRelease(more[|log|], k);
        } else {
          assert ReleasedBetween(log, i, |log|, k);
          var m :| i < m < |log| && IsRelease(log[m], k);
          assert IsRelease(more[m], k);
        }
      }
    }
  }

  ghost predicate SameHash(log: seq<Event>, k: Key, h: Hash) {
    forall i :: 0 <= i < |log| && IsDispatch(log[i], k) ==> log[i].hash == h
  }

  // ---- The invariant

  /** The book of one paid stage: its row agrees with its log, and covers every answer still awaited. */
  ghost predicate Balanced(t: Tables, flight: set<Key>, k: Key) {
    && Attempts(t.stages, k) == Dispatches(t.events, k) - Deferrals(t.events, k)
    && (k in flight ==> Attempts(t.stages, k) >= 1) && Attempts(t.stages, k) <= MAX_ATTEMPTS
  }

  ghost predicate Guarded(t: Tables, k: Key) {
    && Spaced(t.events, k)
    && match RowOf(t.stages, k)
       case None => Dispatches(t.events, k) == 0 && Released(t.events, k)
       case Some(row) => SameHash(t.events, k, row.hash) && (row.status == Retry ==> Released(t.events, k))
  }

  ghost predicate Books(w: World) {
    && (forall k: Key :: k.stage.Model? ==> Balanced(w.t, w.flight, k) && Guarded(w.t, k))
    && (forall s: SampleId :: Paid(w.t.stages, s) <= MAX_PAID)
  }

  lemma BooksAtStart()
    ensures Books(World(EMPTY, {}))
  {
  }

  lemma ChargeBalances(w: World, v: World, key: Key, h: Hash, now: int, k: Key)
    requires key.stage.Model? && k.stage.Model? && Due(w.t, key, h, now, Go) && Charges(w.t, v.t, key, h)
    requires v.flight == w.flight + {key} && Balanced(w.t, w.flight, k)
    ensures Balanced(v.t, v.flight, k)
  {
    RowOfPut(w.t.stages, ChargedRow(w.t.stages, key, h), k);
    Counts(w.t.events, Dispatch(key, Attempts(w.t.stages, key) + 1, h), k);
  }

  lemma ChargeGuards(a: Tables, b: Tables, key: Key, h: Hash, now: int, k: Key)
    requires key.stage.Model? && k.stage.Model? && Due(a, key, h, now, Go) && Charges(a, b, key, h) && Guarded(a, k)
    ensures Guarded(b, k)
  {
    var e := Dispatch(key, Attempts(a.stages, key) + 1, h);
    RowOfPut(a.stages, ChargedRow(a.stages, key, h), k);
    assert k == key ==> Released(a.events, k);
    Logged(a.events, e, k);
    Counts(a.events, e, k);
    assert b.events == a.events + [e];
    if RowOf(a.stages, k).None? { NoDispatches(a.events, k, h); }
    if k == key { SameHashMore(a.events, e, k, h); } else { SameHashOther(a.events, e, k); }
    hide Spaced, Released, Dispatches, Deferrals, Due, SameHash;
  }

  lemma SameHashMore(log: seq<Event>, e: Event, k: Key, h: Hash)
    requires SameHash(log, k, h) && e.Dispatch? && e.hash == h
    ensures SameHash(log + [e], k, h)
  {
  }

  lemma SameHashOther(log: seq<Event>, e: Event, k: Key)
    requires !IsDispatch(e, k)
    ensures forall h :: SameHash(log, k, h) ==> SameHash(log + [e], k, h)
  {
  }

  lemma ChargeKeepsBooks(w: World, v: World, key: Key, h: Hash, now: int, k: Key)
    requires key.stage.Model? && k.stage.Model? && Due(w.t, key, h, now, Go) && Charges(w.t, v.t, key, h)
    requires v.flight == w.flight + {key} && Balanced(w.t, w.flight, k) && Guarded(w.t, k)
    ensures Balanced(v.t, v.flight, k) && Guarded(v.t, k)
  {
    hide Balanced, Guarded, Due, Charges;
    ChargeBalances(w, v, key, h, now, k);
    ChargeGuards(w.t, v.t, key, h, now, k);
  }

  lemma {:induction false} NoDispatches(log: seq<Event>, k: Key, h: Hash)
    requires Dispatches(log, k) == 0
    ensures SameHash(log, k, h)
  {
    if log != [] {
      NoDispatches(log[..|log| - 1], k, h);
      assert forall i :: 0 <= i < |log| - 1 ==> log[i] == log[..|log| - 1][i];
    }
  }

  lemma SettleKeepsBooks(w: World, v: World, key: Key, response: Response, now: int, k: Key)
    requires k.stage.Model? && key in w.flight && Sound(response) && (key.stage.Local? ==> response.kind == Okay)
    requires Settles(w.t, v.t, key, response, now)
    requires v.flight == w.flight - {key} && Balanced(w.t, w.flight, k) && Guarded(w.t, k)
    ensures Balanced(v.t, v.flight, k) && Guarded(v.t, k)
  {
    var row := RowOf(w.t.stages, key);
    if row.Some? { RowOfPut(w.t.stages, SettledRow(row.value, response, now), k); }
    var e := Settled(key, StatusOf(response.kind), response);
    Counts(w.t.events, e, k);
    Logged(w.t.events, e, k);
    hide Spaced, Released, Dispatches, Deferrals;
  }

  lemma ResolveKeepsBooks(w: World, v: World, key: Key, retry: bool, k: Key)
    requires k.stage.Model? && Resolves(w.t, v.t, key, retry) && v.flight == w.flight
    requires Balanced(w.t, w.flight, k) && Guarded(w.t, k)
    ensures Balanced(v.t, v.flight, k) && Guarded(v.t, k)
  {
    RowOfPut(w.t.stages, ResolvedRow(RowOf(w.t.stages, key).value, retry), k);
    Counts(w.t.events, Resolution(key, retry), k);
    ResolveGuards(w.t, v.t, key, retry, k);
    hide Guarded;
  }

  lemma ResolveGuards(a: Tables, b: Tables, key: Key, retry: bool, k: Key)
    requires Resolves(a, b, key, retry) && Guarded(a, k)
    ensures Guarded(b, k)
  {
    var e := Resolution(key, retry);
    RowOfPut(a.stages, ResolvedRow(RowOf(a.stages, key).value, retry), k);
    Counts(a.events, e, k);
    Logged(a.events, e, k);
    assert b.events == a.events + [e];
    hide Spaced, Released, Dispatches, Deferrals;
  }

  lemma LocalKeepsBooks(w: World, v: World, key: Key, h: Hash, k: Key)
    requires k.stage.Model? && StartsLocal(w.t, v.t, key, h) && v.flight == w.flight + {key}
    requires Balanced(w.t, w.flight, k) && Guarded(w.t, k)
    ensures Balanced(v.t, v.flight, k) && Guarded(v.t, k)
  {
    RowOfPut(w.t.stages, ChargedRow(w.t.stages, key, h), k);
  }

  /** An event about anything but stages leaves a stage's book alone. */
  lemma QuietKeepsBooks(w: World, v: World, k: Key)
    requires k.stage.Model? && v.t.stages == w.t.stages && v.flight <= w.flight
    requires v.t.events == w.t.events
             || (|v.t.events| > 0 && v.t.events == w.t.events + [v.t.events[|v.t.events| - 1]]
                 && (v.t.events[|v.t.events| - 1].Locked? || v.t.events[|v.t.events| - 1].Annotated?))
    requires Balanced(w.t, w.flight, k) && Guarded(w.t, k)
    ensures Balanced(v.t, v.flight, k) && Guarded(v.t, k)
  {
    if v.t.events != w.t.events {
      var e := v.t.events[|v.t.events| - 1];
      Counts(w.t.events, e, k);
      Logged(w.t.events, e, k);
    }
  }

  lemma StepKeepsBook(w: World, m: Move, v: World, k: Key)
    requires Takes(w, m, v) && k.stage.Model? && Balanced(w.t, w.flight, k) && Guarded(w.t, k)
    ensures Balanced(v.t, v.flight, k) && Guarded(v.t, k)
  {
    hide Balanced, Guarded, Due;
    match m
    case Begins(key, h, now, answer) => if answer.Go? { ChargeKeepsBooks(w, v, key, h, now, k); }
    case Completes(key, response, now) => SettleKeepsBooks(w, v, key, response, now, k);
    case Resolving(key, retry) => ResolveKeepsBooks(w, v, key, retry, k);
    case BeginsLocal(key, h) => LocalKeepsBooks(w, v, key, h, k);
    case Abandons(_) => QuietKeepsBooks(w, v, k);
    case Crashes => QuietKeepsBooks(w, v, k);
    case Registering(s) => QuietKeepsBooks(w, v, k);
    case Freezing(sample, value) => QuietKeepsBooks(w, v, k);
    case Confirming(sample, tag, point) => QuietKeepsBooks(w, v, k);
    case Delivering(sha) => QuietKeepsBooks(w, v, k);
  }

  /** Only a dispatch adds to what a sample has paid, and it checks the limit first. */
  lemma StepKeepsPaid(w: World, m: Move, v: World, s: SampleId)
    requires Takes(w, m, v) && Paid(w.t.stages, s) <= MAX_PAID
    ensures Paid(v.t.stages, s) <= MAX_PAID
  {
    match m
    case Begins(key, h, now, answer) =>
      if answer.Go? { PaidPut(w.t.stages, ChargedRow(w.t.stages, key, h), s); }
    case Completes(key, response, now) =>
      var row := RowOf(w.t.stages, key);
      if row.Some? { PaidPut(w.t.stages, SettledRow(row.value, response, now), s); }
    case Resolving(key, retry) =>
      PaidPut(w.t.stages, ResolvedRow(RowOf(w.t.stages, key).value, retry), s);
    case BeginsLocal(key, h) =>
      PaidPut(w.t.stages, ChargedRow(w.t.stages, key, h), s);
    case _ =>
  }

  lemma StepKeepsBooks(w: World, m: Move, v: World)
    requires Takes(w, m, v) && Books(w)
    ensures Books(v)
  {
    hide Takes, Balanced, Guarded;
    forall k: Key | k.stage.Model? ensures Balanced(v.t, v.flight, k) && Guarded(v.t, k) { StepKeepsBook(w, m, v, k); }
    forall s: SampleId ensures Paid(v.t.stages, s) <= MAX_PAID { StepKeepsPaid(w, m, v, s); }
  }

  lemma {:induction false} RunKeepsBooks(worlds: seq<World>, moves: seq<Move>, i: nat)
    requires Run(worlds, moves) && i < |worlds|
    ensures Books(worlds[i])
  {
    if i == 0 {
      BooksAtStart();
    } else {
      RunKeepsBooks(worlds, moves, i - 1);
      assert Takes(worlds[i - 1], moves[i - 1], worlds[i - 1 + 1]);
      StepKeepsBooks(worlds[i - 1], moves[i - 1], worlds[i]);
    }
  }
}
