/** The annotation ledger: paid model stages, frozen predictions, confirmed labels and their outbox. */
module PaidLedger {
  import opened Options

  const MAX_ATTEMPTS := 3
  const MAX_PAID := 6

  type SampleId = string

  /** SHA-256 of the canonical request: equal exactly for equal requests. */
  type Hash = nat

  /** "model:…" stages are paid for; "local:…" stages may be computed again. */
  datatype StageName = Model(name: string) | Local(name: string)

  datatype Key = Key(sample: SampleId, stage: StageName)

  datatype Kind = Okay | Retryable | Deferred | Uncertain | Fatal | Other

  /** `wait` is None for a delay that is not a finite number. */
  datatype Response = Response(kind: Kind, notDispatched: bool, wait: Option<int>, body: string, error: string)

  datatype Status = Pending | Done | Retry | Unknown | Failed

  datatype Row = Row(key: Key, hash: Hash, status: Status, attempts: nat, response: Option<Response>, error: string, nextAt: int)

  datatype SampleRow = SampleRow(id: SampleId, order: int, sha: string, path: string)

  datatype Event =
    | Dispatch(key: Key, attempt: nat, hash: Hash)
    | Settled(key: Key, status: Status, response: Response)
    | Resolution(key: Key, retry: bool)
    | Locked(sample: SampleId)
    | Annotated(sample: SampleId, tag: string, order: int)

  datatype Payload = Payload(sha: string, order: int, sample: SampleId, tag: string, view: string, image: string, imageSha: string)

  datatype Point = Point(payload: Payload, views: seq<Payload>)

  datatype Confirmation = Confirmation(sample: SampleId, tag: string, order: int, point: Point)

  datatype Parcel = Parcel(payload: Point, delivered: bool)

  /** The database; `predictions` and `confirmed` are insert-only, `outbox` rows only become delivered. */
  datatype Tables = Tables(
    samples: map<SampleId, SampleRow>,
    stages: seq<Row>,
    events: seq<Event>,
    predictions: map<SampleId, string>,
    confirmed: map<string, Confirmation>,
    outbox: map<string, Parcel>)

  const EMPTY := Tables(map[], [], [], map[], map[], map[])

  // ---- Rows of the stages table

  function RowOf(stages: seq<Row>, key: Key): (r: Option<Row>)
    ensures r.Some? ==> r.value in stages && r.value.key == key
  {
    if stages == [] then None
    else if stages[0].key == key then Some(stages[0])
    else RowOf(stages[1..], key)
  }

  function Attempts(stages: seq<Row>, key: Key): nat {
    match RowOf(stages, key) case None => 0 case Some(row) => row.attempts
  }

  /** INSERT … ON CONFLICT DO UPDATE. */
  function Put(stages: seq<Row>, row: Row): seq<Row> {
    if stages == [] then [row]
    else if stages[0].key == row.key then [row] + stages[1..]
    else [stages[0]] + Put(stages[1..], row)
  }

  /** SELECT SUM(attempts) over the model stages of a sample. */
  function Paid(stages: seq<Row>, sample: SampleId): nat {
    if stages == [] then 0
    else (if stages[0].key.sample == sample && stages[0].key.stage.Model? then stages[0].attempts else 0)
         + Paid(stages[1..], sample)
  }

  lemma {:induction false} RowOfPut(stages: seq<Row>, row: Row, key: Key)
    ensures RowOf(Put(stages, row), key) == if key == row.key then Some(row) else RowOf(stages, key)
  {
    if stages != [] && stages[0].key != row.key { RowOfPut(stages[1..], row, key); }
  }

  lemma {:induction false} PaidPut(stages: seq<Row>, row: Row, sample: SampleId)
    ensures Paid(Put(stages, row), sample) == Paid(stages, sample)
            + if row.key.sample == sample && row.key.stage.Model? then row.attempts - Attempts(stages, row.key) else 0
  {
    if stages != [] && stages[0].key != row.key { PaidPut(stages[1..], row, sample); }
  }

  // ---- What each operation answers and leaves behind

  datatype Begun =
    | Go
    | Replay(response: Response)
    | GaveUp(error: string)
    | Exhausted
    | Wait(until: int)
    | InputChanged
    | Unresolved
    | Unregistered

  /** When each answer of `begin` is due. */
  ghost predicate Due(t: Tables, key: Key, h: Hash, now: int, answer: Begun) {
    var row := RowOf(t.stages, key);
    var open := row.None? || (row.value.hash == h && row.value.status == Retry);
    var spent := Attempts(t.stages, key) >= MAX_ATTEMPTS || Paid(t.stages, key.sample) >= MAX_PAID;
    var early := row.Some? && row.value.nextAt > now;
    match answer
    case Go => open && !spent && !early && key.sample in t.samples
    case Unregistered => open && !spent && !early && key.sample !in t.samples
    case Wait(until) => open && !spent && early && until == row.value.nextAt
    case Exhausted => open && spent
    case InputChanged => row.Some? && row.value.hash != h
    case Unresolved => row.Some? && row.value.hash == h && (row.value.status == Pending || row.value.status == Unknown)
    case Replay(response) =>
      row.Some? && row.value.hash == h && (row.value.status == Done || row.value.status == Failed)
      && row.value.response == Some(response)
    case GaveUp(error) =>
      row.Some? && row.value.hash == h && row.value.status == Failed && row.value.response.None? && error == row.value.error
  }

  /** A row counting one more attempt: pending again for a dispatch, its status left alone for a local step. */
  function ChargedRow(stages: seq<Row>, key: Key, h: Hash): Row {
    match RowOf(stages, key)
    case None => Row(key, h, Pending, 1, None, "", 0)
    case Some(row) => row.(status := if key.stage.Model? then Pending else row.status, attempts := row.attempts + 1)
  }

  function ResolvedRow(row: Row, retry: bool): Row {
    row.(status := if retry then Retry else Failed, response := None, error := "operator resolved uncertain request", nextAt := 0)
  }

  /** A dispatch: the attempt is charged and logged before anything is sent. */
  ghost predicate Charges(a: Tables, b: Tables, key: Key, h: Hash) {
    b == a.(stages := Put(a.stages, ChargedRow(a.stages, key, h)), events := a.events + [Dispatch(key, Attempts(a.stages, key) + 1, h)])
  }

  /** A done stage stores a response to replay, and a settled stage's response is of the kind that settled it. */
  predicate Answered(t: Tables) {
    forall row :: row in t.stages ==>
      (row.status == Done ==> row.response.Some?)
      && (row.response.Some? && (row.status == Done || row.status == Failed) ==> StatusOf(row.response.value.kind) == row.status)
  }

  function StatusOf(kind: Kind): Status {
    match kind
    case Okay => Done
    case Retryable => Retry
    case Deferred => Retry
    case Uncertain => Unknown
    case Fatal => Failed
    case Other => Failed
  }

  predicate Sound(response: Response) {
    && response.wait.Some? && response.wait.value >= 0
    && (response.kind == Deferred ==> response.notDispatched)
  }

  /** What an answer makes of the row: a deferral gives the attempt back. */
  function SettledRow(row: Row, response: Response, now: int): Row
    requires Sound(response)
  {
    row.(status := StatusOf(response.kind), response := Some(response), error := response.error,
         nextAt := now + response.wait.value,
         attempts := if response.kind == Deferred && row.attempts > 0 then row.attempts - 1 else row.attempts)
  }

  ghost predicate Settles(a: Tables, b: Tables, key: Key, response: Response, now: int)
    requires Sound(response)
  {
    var row := RowOf(a.stages, key);
    b == a.(stages := if row.None? then a.stages else Put(a.stages, SettledRow(row.value, response, now)),
            events := a.events + [Settled(key, StatusOf(response.kind), response)])
  }

  /** An operator may act on a dispatch without a known outcome, or on one blocked by configuration. */
  predicate Resolvable(row: Option<Row>) {
    && row.Some?
    && (row.value.status == Pending || row.value.status == Unknown
        || (row.value.status == Failed && row.value.response.Some? && row.value.response.value.kind == Fatal))
  }

  ghost predicate Resolves(a: Tables, b: Tables, key: Key, retry: bool) {
    var row := RowOf(a.stages, key);
    && Resolvable(row)
    && b == a.(stages := Put(a.stages, ResolvedRow(row.value, retry)), events := a.events + [Resolution(key, retry)])
  }

  /** The start of a local step: its attempts count runs, and its status is left alone. */
  ghost predicate StartsLocal(a: Tables, b: Tables, key: Key, h: Hash) {
    var row := RowOf(a.stages, key);
    && key.stage.Local? && key.sample in a.samples
    && (row.Some? ==> row.value.hash == h && row.value.status != Done)
    && b == a.(stages := Put(a.stages, ChargedRow(a.stages, key, h)))
  }

  ghost predicate Registers(a: Tables, b: Tables, s: SampleRow) {
    if s.id in a.samples then a.samples[s.id] == s && b == a
    else (forall id :: id in a.samples ==> a.samples[id].order < s.order) && b == a.(samples := a.samples[s.id := s])
  }

  ghost predicate Freezes(a: Tables, b: Tables, sample: SampleId, value: string) {
    if sample in a.predictions then a.predictions[sample] == value && b == a
    else sample in a.samples && b == a.(predictions := a.predictions[sample := value], events := a.events + [Locked(sample)])
  }

  /** The point must name the sample it confirms, and every view of it the same image. */
  predicate Describes(point: Point, sample: SampleId, s: SampleRow, tag: string) {
    && point.payload.sha == s.sha && point.payload.order == s.order
    && point.payload.sample == sample && point.payload.tag == tag
    && forall v :: v in point.views ==> v.view == "subject" && v.(view := point.payload.view) == point.payload
  }

  /** A label and its delivery are recorded together, once per image. */
  ghost predicate Confirms(a: Tables, b: Tables, sample: SampleId, tag: string, point: Point) {
    && sample in a.predictions && sample in a.samples
    && var s := a.samples[sample];
      && Describes(point, sample, s, tag)
      && if s.sha in a.confirmed then a.confirmed[s.sha].tag == tag && b == a
         else b == a.(confirmed := a.confirmed[s.sha := Confirmation(sample, tag, s.order, point)],
                      outbox := a.outbox[s.sha := Parcel(point, false)],
                      events := a.events + [Annotated(sample, tag, s.order)])
  }

  ghost predicate Delivers(a: Tables, b: Tables, sha: string) {
    b == if sha in a.outbox then a.(outbox := a.outbox[sha := a.outbox[sha].(delivered := true)]) else a
  }

  // ---- The ledger itself

  class Ledger {
    var samples: map<SampleId, SampleRow>
    var stages: seq<Row>
    var events: seq<Event>
    var predictions: map<SampleId, string>
    var confirmed: map<string, Confirmation>
    var outbox: map<string, Parcel>

    ghost function Contents(): Tables
      reads this
    {
      Tables(samples, stages, events, predictions, confirmed, outbox)
    }

    constructor ()
      ensures Contents() == EMPTY
    {
      samples, stages, events, predictions, confirmed, outbox := map[], [], [], map[], map[], map[];
    }

    method Begin(key: Key, h: Hash, now: int) returns (answer: Begun)
      requires Answered(Contents()) && key.stage.Model?
      modifies `stages, `events
      ensures Due(old(Contents()), key, h, now, answer)
      ensures if answer.Go? then Charges(old(Contents()), Contents(), key, h) else Contents() == old(Contents())
    {
      var row := RowOf(stages, key);
      if row.Some? && row.value.hash != h { return InputChanged; }
      if row.Some? && (row.value.status == Pending || row.value.status == Unknown) { return Unresolved; }
      if row.Some? && row.value.status == Done { return Replay(row.value.response.value); }
      if row.Some? && row.value.status == Failed {
        return if row.value.response.Some? then Replay(row.value.response.value) else GaveUp(row.value.error);
      }
      var count := if row.Some? then row.value.attempts else 0;
      var paid := Paid(stages, key.sample);
      if count >= MAX_ATTEMPTS || paid >= MAX_PAID { return Exhausted; }
      if row.Some? && row.value.nextAt > now { return Wait(row.value.nextAt); }
      if key.sample !in samples { return Unregistered; }
      stages := Put(stages, if row.None? then Row(key, h, Pending, 1, None, "", 0)
                            else row.value.(status := Pending, attempts := row.value.attempts + 1));
      events := events + [Dispatch(key, count + 1, h)];
      answer := Go;
    }

    method Complete(key: Key, response: Response, now: int) returns (ok: bool)
      modifies `stages, `events
      ensures ok == Sound(response)
      ensures if ok then Settles(old(Contents()), Contents(), key, response, now) else Contents() == old(Contents())
    {
      if response.wait.None? || response.wait.value < 0 { return false; }
      var row := RowOf(stages, key);
      if response.kind == Deferred {
        if !response.notDispatched { return false; }
        if row.Some? {
          row := Some(row.value.(attempts := if row.value.attempts > 0 then row.value.attempts - 1 else 0));
        }
      }
      if row.Some? {
        stages := Put(stages, row.value.(status := StatusOf(response.kind), response := Some(response), error := response.error,
                                         nextAt := now + response.wait.value));
      }
      events := events + [Settled(key, StatusOf(response.kind), response)];
      ok := true;
    }

    method Resolve(key: Key, retry: bool) returns (ok: bool)
      modifies `stages, `events
      ensures ok == Resolvable(RowOf(old(stages), key))
      ensures if ok then Resolves(old(Contents()), Contents(), key, retry) else Contents() == old(Contents())
    {
      var row := RowOf(stages, key);
      ok := row.Some?;
      if !ok { return; }
      var fatal := row.value.status == Failed && row.value.response.Some? && row.value.response.value.kind == Fatal;
      if row.value.status != Pending && row.value.status != Unknown && !fatal { return false; }
      stages := Put(stages, row.value.(status := if retry then Retry else Failed, response := None,
                                       error := "operator resolved uncertain request", nextAt := 0));
      events := events + [Resolution(key, retry)];
    }

    /** `local` up to the call of `compute`: the stored value, or None when there is something to compute. */
    method StartLocal(key: Key, h: Hash) returns (ok: bool, stored: Option<Response>)
      requires Answered(Contents()) && key.stage.Local?
      modifies `stages
      ensures ok ==> if stored.Some? then Contents() == old(Contents())
                                          && Due(old(Contents()), key, h, 0, Replay(stored.value))
                     else StartsLocal(old(Contents()), Contents(), key, h)
      ensures !ok ==> Contents() == old(Contents())
                      && if RowOf(stages, key).Some? then RowOf(stages, key).value.hash != h || key.sample !in samples
                         else key.sample !in samples
    {
      var row := RowOf(stages, key);
      if row.Some? {
        if row.value.hash != h { return false, None; }
        if row.value.status == Done { return true, row.value.response; }
      }
      if key.sample !in samples { return false, None; }
      stages := Put(stages, if row.None? then Row(key, h, Pending, 1, None, "", 0)
                            else row.value.(attempts := row.value.attempts + 1));
      return true, None;
    }

    method Register(s: SampleRow) returns (ok: bool)
      modifies `samples
      ensures if ok then Registers(old(Contents()), Contents(), s) else Contents() == old(Contents())
      ensures !ok ==> !Registers(old(Contents()), Contents(), s)
    {
      if s.id in samples { return samples[s.id] == s; }
      if exists id :: id in samples && s.order <= samples[id].order { return false; }
      samples := samples[s.id := s];
      ok := true;
    }

    method Freeze(sample: SampleId, value: string) returns (ok: bool)
      modifies `predictions, `events
      ensures if ok then Freezes(old(Contents()), Contents(), sample, value) else Contents() == old(Contents())
      ensures !ok ==> !Freezes(old(Contents()), Contents(), sample, value)
    {
      if sample in predictions { return predictions[sample] == value; }
      if sample !in samples { return false; }
      predictions := predictions[sample := value];
      events := events + [Locked(sample)];
      ok := true;
    }

    method Confirm(sample: SampleId, tag: string, point: Point) returns (ok: bool)
      modifies `confirmed, `outbox, `events
      ensures if ok then Confirms(old(Contents()), Contents(), sample, tag, point) else Contents() == old(Contents())
      ensures !ok ==> !Confirms(old(Contents()), Contents(), sample, tag, point)
    {
      if sample !in predictions || sample !in samples { return false; }
      var s := samples[sample];
      if point.payload.sha != s.sha || point.payload.order != s.order || point.payload.sample != sample
         || point.payload.tag != tag { return false; }
      for i := 0 to |point.views|
        invariant forall k :: 0 <= k < i ==> point.views[k].view == "subject"
                                             && point.views[k].(view := point.payload.view) == point.payload
      {
        var v := point.views[i];
        if v.view != "subject" || v.sha != point.payload.sha || v.order != point.payload.order || v.sample != point.payload.sample
           || v.tag != point.payload.tag || v.image != point.payload.image || v.imageSha != point.payload.imageSha { return false; }
      }
      if s.sha in confirmed { return confirmed[s.sha].tag == tag; }
      confirmed := confirmed[s.sha := Confirmation(sample, tag, s.order, point)];
      outbox := outbox[s.sha := Parcel(point, false)];
      events := events + [Annotated(sample, tag, s.order)];
      ok := true;
    }

    method Deliver(sha: string)
      modifies `outbox
      ensures Delivers(old(Contents()), Contents(), sha)
    {
      if sha in outbox { outbox := outbox[sha := outbox[sha].(delivered := true)]; }
    }
  }
}
