/** What holds in every run of the annotation ledger. */
module PaidLedgerTheorems {
  import opened Options
  import opened PaidLedger
  import opened PaidLedgerRuns

  /** Attempts are the dispatches not handed back, three a stage and six a sample at most. */
  lemma BudgetHolds(worlds: seq<World>, moves: seq<Move>, i: nat, k: Key)
    requires Run(worlds, moves) && i < |worlds| && k.stage.Model?
    ensures var t := worlds[i].t;
      && Attempts(t.stages, k) == Dispatches(t.events, k) - Deferrals(t.events, k)
      && Attempts(t.stages, k) <= 3 && Paid(t.stages, k.sample) <= 6
  {
    RunKeepsBooks(worlds, moves, i);
    assert Balanced(worlds[i].t, worlds[i].flight, k);
  }

  /** An answer that never came, or came back unknown, is not asked for again without a release. */
  lemma DispatchesApart(worlds: seq<World>, moves: seq<Move>, i: nat, k: Key, a: nat, b: nat)
    requires Run(worlds, moves) && i < |worlds| && k.stage.Model?
    requires a < b < |worlds[i].t.events| && IsDispatch(worlds[i].t.events[a], k) && IsDispatch(worlds[i].t.events[b], k)
    ensures ReleasedBetween(worlds[i].t.events, a, b, k)
    ensures worlds[i].t.events[a].hash == worlds[i].t.events[b].hash
  {
    RunKeepsBooks(worlds, moves, i);
    assert Guarded(worlds[i].t, k);
    if RowOf(worlds[i].t.stages, k).None? { NoDispatches(worlds[i].t.events, k, worlds[i].t.events[a].hash + 1); }
  }

  // ---- What later steps leave alone

  lemma StepKeepsHash(w: World, m: Move, v: World, k: Key)
    requires Takes(w, m, v) && RowOf(w.t.stages, k).Some?
    ensures RowOf(v.t.stages, k).Some? && RowOf(v.t.stages, k).value.hash == RowOf(w.t.stages, k).value.hash
  {
    match m
    case Begins(key, h, now, answer) => if answer.Go? { RowOfPut(w.t.stages, ChargedRow(w.t.stages, key, h), k); }
    case Completes(key, response, now) =>
      var row := RowOf(w.t.stages, key);
      if row.Some? { RowOfPut(w.t.stages, SettledRow(row.value, response, now), k); }
    case Resolving(key, retry) => RowOfPut(w.t.stages, ResolvedRow(RowOf(w.t.stages, key).value, retry), k);
    case BeginsLocal(key, h) => RowOfPut(w.t.stages, ChargedRow(w.t.stages, key, h), k);
    case _ =>
  }

  /** A stage keeps the input it was first asked with. */
  lemma {:induction false} InputIsFixed(worlds: seq<World>, moves: seq<Move>, i: nat, j: nat, k: Key)
    requires Run(worlds, moves) && i <= j < |worlds| && RowOf(worlds[i].t.stages, k).Some?
    ensures RowOf(worlds[j].t.stages, k).Some?
    ensures RowOf(worlds[j].t.stages, k).value.hash == RowOf(worlds[i].t.stages, k).value.hash
    decreases j
  {
    hide Takes;
    if i < j {
      InputIsFixed(worlds, moves, i, j - 1, k);
      assert Takes(worlds[j - 1], moves[j - 1], worlds[j - 1 + 1]);
      StepKeepsHash(worlds[j - 1], moves[j - 1], worlds[j], k);
    }
  }

  /** The row of a stage somebody waits for is never done, and a done row has a response. */
  ghost predicate Calm(w: World, k: Key) {
    && (k in w.flight ==> RowOf(w.t.stages, k).Some? && RowOf(w.t.stages, k).value.status != Done)
    && (RowOf(w.t.stages, k).Some? && RowOf(w.t.stages, k).value.status == Done ==> RowOf(w.t.stages, k).value.response.Some?)
  }

  lemma StepKeepsCalm(w: World, m: Move, v: World, k: Key)
    requires Takes(w, m, v) && Calm(w, k)
    ensures Calm(v, k)
    ensures RowOf(w.t.stages, k).Some? && RowOf(w.t.stages, k).value.status == Done ==>
      RowOf(v.t.stages, k) == RowOf(w.t.stages, k)
  {
    match m
    case Begins(key, h, now, answer) => if answer.Go? { RowOfPut(w.t.stages, ChargedRow(w.t.stages, key, h), k); }
    case Completes(key, response, now) =>
      var row := RowOf(w.t.stages, key);
      if row.Some? { RowOfPut(w.t.stages, SettledRow(row.value, response, now), k); }
    case Resolving(key, retry) => RowOfPut(w.t.stages, ResolvedRow(RowOf(w.t.stages, key).value, retry), k);
    case BeginsLocal(key, h) => RowOfPut(w.t.stages, ChargedRow(w.t.stages, key, h), k);
    case _ =>
  }

  lemma CalmAtStart(k: Key)
    ensures Calm(World(EMPTY, {}), k)
  {
  }

  lemma {:induction false} RunIsCalm(worlds: seq<World>, moves: seq<Move>, i: nat, k: Key)
    requires Run(worlds, moves) && i < |worlds|
    ensures Calm(worlds[i], k)
  {
    if i == 0 {
      CalmAtStart(k);
    } else {
      hide Takes, Calm;
      RunIsCalm(worlds, moves, i - 1, k);
      assert Takes(worlds[i - 1], moves[i - 1], worlds[i - 1 + 1]);
      StepKeepsCalm(worlds[i - 1], moves[i - 1], worlds[i], k);
    }
  }

  /** A done stage is never touched again, whatever operators resolve … */
  lemma {:induction false} DoneIsForever(worlds: seq<World>, moves: seq<Move>, i: nat, j: nat, k: Key)
    requires Run(worlds, moves) && i <= j < |worlds|
    requires RowOf(worlds[i].t.stages, k).Some? && RowOf(worlds[i].t.stages, k).value.status == Done
    ensures RowOf(worlds[j].t.stages, k) == RowOf(worlds[i].t.stages, k)
    decreases j
  {
    hide Takes, Calm;
    if i < j {
      DoneIsForever(worlds, moves, i, j - 1, k);
      RunIsCalm(worlds, moves, j - 1, k);
      assert Takes(worlds[j - 1], moves[j - 1], worlds[j - 1 + 1]);
      StepKeepsCalm(worlds[j - 1], moves[j - 1], worlds[j], k);
    }
  }

  /** … so whoever asks for it again, with the same input, is handed its first response and pays nothing. */
  lemma DoneReplays(worlds: seq<World>, moves: seq<Move>, i: nat, j: nat)
    requires Run(worlds, moves) && i <= j < |moves| && moves[j].Begins?
    requires var row := RowOf(worlds[i].t.stages, moves[j].key); row.Some? && row.value.status == Done
    ensures var row := RowOf(worlds[i].t.stages, moves[j].key).value;
      && row.response.Some?
      && moves[j].answer == (if moves[j].hash == row.hash then Replay(row.response.value) else InputChanged)
      && worlds[j + 1] == worlds[j]
  {
    DoneIsForever(worlds, moves, i, j, moves[j].key);
    RunIsCalm(worlds, moves, i, moves[j].key);
    assert Takes(worlds[j], moves[j], worlds[j + 1]);
  }

  // ---- Samples, predictions, labels, parcels

  /** Nothing recorded is taken back: a prediction, a label and a delivery are final. */
  ghost predicate Grows(a: Tables, b: Tables) {
    && (forall s :: s in a.samples ==> s in b.samples && b.samples[s] == a.samples[s])
    && (forall s :: s in a.predictions ==> s in b.predictions && b.predictions[s] == a.predictions[s])
    && (forall x :: x in a.confirmed ==> x in b.confirmed && b.confirmed[x] == a.confirmed[x])
    && (forall x :: x in a.outbox && a.outbox[x].delivered ==> x in b.outbox && b.outbox[x].delivered)
  }

  /** Labels and parcels go together; each label has a locked prediction and names its image. */
  ghost predicate Recorded(t: Tables) {
    && t.predictions.Keys <= t.samples.Keys
    && t.outbox.Keys == t.confirmed.Keys
    && (forall x :: x in t.confirmed ==>
          var c := t.confirmed[x];
          c.sample in t.predictions && t.samples[c.sample].sha == x && t.samples[c.sample].order == c.order
          && t.outbox[x].payload == c.point && c.point.payload.tag == c.tag && c.point.payload.sha == x
          && c.point.payload.sample == c.sample && c.point.payload.order == c.order
          && forall v :: v in c.point.views ==> v == c.point.payload.(view := "subject"))
  }

  predicate SameRecords(a: Tables, b: Tables) {
    b.samples == a.samples && b.predictions == a.predictions && b.confirmed == a.confirmed && b.outbox == a.outbox
  }

  lemma RegisterRecords(a: Tables, b: Tables, s: SampleRow)
    requires Registers(a, b, s) && Recorded(a)
    ensures Recorded(b) && Grows(a, b)
  {
  }

  lemma FreezeRecords(a: Tables, b: Tables, sample: SampleId, value: string)
    requires Freezes(a, b, sample, value) && Recorded(a)
    ensures Recorded(b) && Grows(a, b)
  {
  }

  lemma ConfirmRecords(a: Tables, b: Tables, sample: SampleId, tag: string, point: Point)
    requires Confirms(a, b, sample, tag, point) && Recorded(a)
    ensures Recorded(b) && Grows(a, b)
  {
    var s := a.samples[sample];
    if s.sha !in a.confirmed {
      assert s.sha !in a.outbox;
    }
  }

  lemma DeliverRecords(a: Tables, b: Tables, sha: string)
    requires Delivers(a, b, sha) && Recorded(a)
    ensures Recorded(b) && Grows(a, b)
  {
  }

  lemma StepRecords(w: World, m: Move, v: World)
    requires Takes(w, m, v) && Recorded(w.t)
    ensures Recorded(v.t) && Grows(w.t, v.t)
  {
    hide Recorded, Grows, Due;
    match m
    case Registering(s) => RegisterRecords(w.t, v.t, s);
    case Freezing(sample, value) => FreezeRecords(w.t, v.t, sample, value);
    case Confirming(sample, tag, point) => ConfirmRecords(w.t, v.t, sample, tag, point);
    case Delivering(sha) => DeliverRecords(w.t, v.t, sha);
    case _ => UnchangedRecords(w.t, v.t);
  }

  lemma UnchangedRecords(a: Tables, b: Tables)
    requires SameRecords(a, b) && Recorded(a)
    ensures Recorded(b) && Grows(a, b)
  {
  }

  lemma {:induction false} RecordsLast(worlds: seq<World>, moves: seq<Move>, i: nat, j: nat)
    requires Run(worlds, moves) && i <= j < |worlds|
    ensures Recorded(worlds[j].t) && Recorded(worlds[i].t) && Grows(worlds[i].t, worlds[j].t)
    decreases j
  {
    hide Takes;
    if j > 0 {
      if i < j { RecordsLast(worlds, moves, i, j - 1); } else { RecordsLast(worlds, moves, i - 1, j - 1); }
      assert Takes(worlds[j - 1], moves[j - 1], worlds[j - 1 + 1]);
      StepRecords(worlds[j - 1], moves[j - 1], worlds[j]);
    }
  }

  /** No sample is confirmed under two digests, so its row in `confirmed` is unique both ways. */
  lemma OneConfirmationPerSample(worlds: seq<World>, moves: seq<Move>, i: nat, x: string, y: string)
    requires Run(worlds, moves) && i < |worlds| && x in worlds[i].t.confirmed && y in worlds[i].t.confirmed
    requires worlds[i].t.confirmed[x].sample == worlds[i].t.confirmed[y].sample
    ensures x == y
  {
    RecordsLast(worlds, moves, i, i);
  }
}
