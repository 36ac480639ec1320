/** Training watches: a lease by epoch over rows that users can resume, cancel, and let expire. */
module Watches {
  import opened Options
  import opened Sets

  type WatchId = string
  type Owner = string

  const MAX_LIVE := 8
  const LEASE := 45
  const POLL := 30
  const LIFETIME := 86400

  datatype Status = Active | WaitingAuth | Completed | Cancelled | Expired

  datatype Watch = Watch(conv: string, owner: Owner, training: string, status: Status, grant: string, epoch: nat,
                         lease: Option<int>, nextPoll: int, expires: int, observed: string, message: string, result: string)

  type Rows = map<WatchId, Watch>

  predicate Live(w: Watch) { w.status == Active || w.status == WaitingAuth }

  predicate Same(w: Watch, conv: string, owner: Owner, training: string) {
    w.conv == conv && w.owner == owner && w.training == training
  }

  function LiveOf(rows: Rows, owner: Owner): set<WatchId> { set id | id in rows && rows[id].owner == owner && Live(rows[id]) }

  function NewWatch(conv: string, owner: Owner, training: string, grant: string, now: int): Watch {
    Watch(conv, owner, training, Active, grant, 0, None, now, now + LIFETIME, "", "", "{}")
  }

  predicate Due(w: Watch, now: int) {
    w.status == Active && w.nextPoll <= now && (w.lease.Some? ==> w.lease.value < now)
  }

  function Swept(w: Watch, now: int): Watch {
    if Live(w) && w.expires < now then w.(status := Expired, grant := "", epoch := w.epoch + 1) else w
  }

  function Sweep(rows: Rows, now: int): Rows { map id | id in rows :: Swept(rows[id], now) }

  function Claimed(w: Watch, now: int): Watch { w.(epoch := w.epoch + 1, lease := Some(now + LEASE)) }

  /** A user's change: resuming brings a new grant, cancelling takes it away; both overtake whoever holds the lease. */
  function Changed(w: Watch, status: Status, grant: string, now: int): Watch {
    w.(status := status, grant := grant, epoch := w.epoch + 1, lease := None, nextPoll := now)
  }

  function Saved(w: Watch, status: Status, observed: string, message: string, result: string, now: int): Watch {
    w.(status := status, observed := observed, message := message, result := if result == "" then "{}" else result,
       lease := None, nextPoll := now + POLL, grant := if status == Active || status == WaitingAuth then w.grant else "")
  }

  class WatchStore {
    var conversations: map<string, Owner>
    var rows: Rows

    constructor (conversations: map<string, Owner>)
      ensures rows == map[] && this.conversations == conversations
    {
      this.conversations, rows := conversations, map[];
    }

    method CreateWatch(uuid: WatchId, owner: Owner, conv: string, training: string, grant: string, now: int)
      returns (id: Option<WatchId>)
      requires uuid !in rows
      modifies `rows
      ensures id.Some? ==> id.value in rows && Same(rows[id.value], conv, owner, training) && Live(rows[id.value])
      ensures rows != old(rows) ==> Takes(old(rows), Creates(uuid, conv, owner, training, grant, now), rows)
      ensures id.None? <==> !(conv in conversations && conversations[conv] == owner)
                            || ((forall k :: k in old(rows) ==> !(Same(old(rows)[k], conv, owner, training) && Live(old(rows)[k])))
                                && |LiveOf(old(rows), owner)| >= MAX_LIVE)
      ensures id.None? ==> rows == old(rows)
    {
      if conv !in conversations || conversations[conv] != owner { return None; }
      if k :| k in rows && Same(rows[k], conv, owner, training) && Live(rows[k]) { return Some(k); }
      if |LiveOf(rows, owner)| >= MAX_LIVE { return None; }
      rows := rows[uuid := NewWatch(conv, owner, training, grant, now)];
      id := Some(uuid);
    }

    method ChangeWatch(owner: Owner, id: WatchId, resume: bool, grant: string, now: int) returns (ok: bool)
      modifies `rows
      ensures ok <==> id in old(rows) && old(rows)[id].owner == owner && Live(old(rows)[id])
      ensures if ok then Takes(old(rows), Changes(id, resume, grant, now), rows) else rows == old(rows)
    {
      if id !in rows || rows[id].owner != owner || !Live(rows[id]) { return false; }
      rows := rows[id := Changed(rows[id], if resume then Active else Cancelled, if resume then grant else "", now)];
      ok := true;
    }

    /** Two statements: what has expired is ended, then the due watch that waited longest is leased. */
    method ClaimWatch(now: int) returns (id: Option<WatchId>)
      modifies `rows
      ensures id.None? <==> forall k :: k in old(rows) ==> !Due(Swept(old(rows)[k], now), now)
      ensures id.Some? ==> id.value in old(rows) && Takes(Sweep(old(rows), now), Claims(id.value, now), rows)
      ensures id.Some? ==> forall k :: k in old(rows) && Due(Swept(old(rows)[k], now), now) ==>
        Swept(old(rows)[id.value], now).nextPoll <= Swept(old(rows)[k], now).nextPoll
      ensures id.None? ==> rows == Sweep(old(rows), now)
    {
      rows := Sweep(rows, now);
      assert forall k :: k in old(rows) ==> k in rows && rows[k] == Swept(old(rows)[k], now);
      id := None;
      var rest := set k | k in rows && Due(rows[k], now);
      while rest != {}
        invariant rest <= set k | k in rows && Due(rows[k], now)
        invariant id.Some? ==> id.value in rows && Due(rows[id.value], now)
        invariant forall k :: k in rows && Due(rows[k], now) && k !in rest ==>
          id.Some? && rows[id.value].nextPoll <= rows[k].nextPoll
        decreases rest
      {
        var k :| k in rest;
        if id.None? || rows[k].nextPoll < rows[id.value].nextPoll { id := Some(k); }
        rest := rest - {k};
      }
      if id.Some? { rows := rows[id.value := Claimed(rows[id.value], now)]; }
    }

    method SaveWatch(id: WatchId, epoch: nat, status: Status, observed: string, message: string, result: string, now: int)
      returns (ok: bool)
      modifies `rows
      ensures ok <==> id in old(rows) && old(rows)[id].epoch == epoch && old(rows)[id].status == Active
      ensures if ok then Takes(old(rows), Saves(id, epoch, status, observed, message, result, now), rows) else rows == old(rows)
    {
      if id !in rows || rows[id].epoch != epoch || rows[id].status != Active { return false; }
      rows := rows[id := Saved(rows[id], status, observed, message, result, now)];
      ok := true;
    }
  }

  // ---- Every run

  datatype Move =
    | Creates(uuid: WatchId, conv: string, owner: Owner, training: string, grant: string, now: int)
    | Changes(id: WatchId, resume: bool, grant: string, now: int)
    | Sweeps(now: int)
    | Claims(id: WatchId, now: int)
    | Saves(id: WatchId, epoch: nat, status: Status, observed: string, message: string, result: string, now: int)

  ghost predicate Takes(a: Rows, m: Move, b: Rows) {
    match m
    case Creates(uuid, conv, owner, training, grant, now) =>
      uuid !in a && (forall k :: k in a ==> !(Same(a[k], conv, owner, training) && Live(a[k])))
      && |LiveOf(a, owner)| < MAX_LIVE && b == a[uuid := NewWatch(conv, owner, training, grant, now)]
    case Changes(id, resume, grant, now) =>
      id in a && Live(a[id]) && b == a[id := Changed(a[id], if resume then Active else Cancelled, if resume then grant else "", now)]
    case Sweeps(now) => b == Sweep(a, now)
    case Claims(id, now) => id in a && Due(a[id], now) && b == a[id := Claimed(a[id], now)]
    case Saves(id, epoch, status, observed, message, result, now) =>
      id in a && a[id].epoch == epoch && a[id].status == Active
      && b == a[id := Saved(a[id], status, observed, message, result, now)]
  }

  ghost predicate Run(tables: seq<Rows>, moves: seq<Move>) {
    && |tables| == |moves| + 1 && tables[0] == map[]
    && forall i :: 0 <= i < |moves| ==> Takes(tables[i], moves[i], tables[i + 1])
  }

  /** One row across one move. */
  ghost predicate Advances(w: Watch, v: Watch) {
    && Same(v, w.conv, w.owner, w.training) && w.epoch <= v.epoch
    && (!Live(w) ==> v == w)
    && (v.epoch == w.epoch && v.grant != w.grant ==> !Live(v) && v.grant == "")
  }

  lemma StepAdvances(a: Rows, m: Move, b: Rows, id: WatchId)
    requires Takes(a, m, b) && id in a
    ensures id in b && Advances(a[id], b[id])
    ensures (m.Claims? || m.Changes?) && m.id == id ==> b[id].epoch == a[id].epoch + 1
  {
  }

  lemma {:induction false} RunAdvances(tables: seq<Rows>, moves: seq<Move>, i: nat, j: nat, id: WatchId)
    requires Run(tables, moves) && i <= j < |tables| && id in tables[i]
    ensures id in tables[j] && tables[i][id].epoch <= tables[j][id].epoch
    ensures Same(tables[j][id], tables[i][id].conv, tables[i][id].owner, tables[i][id].training)
    ensures !Live(tables[i][id]) ==> tables[j][id] == tables[i][id]
    decreases j
  {
    hide Takes;
    if i < j {
      RunAdvances(tables, moves, i, j - 1, id);
      assert Takes(tables[j - 1], moves[j - 1], tables[j - 1 + 1]);
      StepAdvances(tables[j - 1], moves[j - 1], tables[j], id);
    }
  }

  /** No epoch of a watch is handed out twice. */
  lemma EpochIsUnique(tables: seq<Rows>, moves: seq<Move>, i: nat, j: nat, id: WatchId)
    requires Run(tables, moves) && i < j < |moves|
    requires moves[i].Claims? && moves[j].Claims? && moves[i].id == id && moves[j].id == id
    ensures id in tables[i + 1] && id in tables[j + 1] && tables[i + 1][id].epoch < tables[j + 1][id].epoch
  {
    assert Takes(tables[i], moves[i], tables[i + 1]) && Takes(tables[j], moves[j], tables[j + 1]);
    hide Takes;
    RunAdvances(tables, moves, i + 1, j, id);
    StepAdvances(tables[j], moves[j], tables[j + 1], id);
  }

  /** A poller overtaken by a later claim, or by its user, can no longer save. */
  lemma OvertakenCannotSave(tables: seq<Rows>, moves: seq<Move>, i: nat, k: nat, j: nat, id: WatchId)
    requires Run(tables, moves) && i < k < j < |moves|
    requires moves[i].Claims? && moves[i].id == id && (moves[k].Claims? || moves[k].Changes?) && moves[k].id == id
    ensures id in tables[i + 1] && !(moves[j].Saves? && moves[j].id == id && moves[j].epoch == tables[i + 1][id].epoch)
  {
    assert Takes(tables[i], moves[i], tables[i + 1]) && Takes(tables[k], moves[k], tables[k + 1]);
    assert Takes(tables[j], moves[j], tables[j + 1]);
    RunAdvances(tables, moves, i + 1, k, id);
    StepAdvances(tables[k], moves[k], tables[k + 1], id);
    RunAdvances(tables, moves, k + 1, j, id);
  }

  /** What is true of every table: quotas, one live watch a resource, and no grant kept beyond the end. */
  ghost predicate Orderly(rows: Rows) {
    && (forall owner: Owner :: |LiveOf(rows, owner)| <= MAX_LIVE)
    && (forall i, j :: i in rows && j in rows && Rivals(rows[i], rows[j]) ==> i == j)
    && (forall id :: id in rows && !Live(rows[id]) ==> rows[id].grant == "")
  }

  /** Two live watches of one resource in one conversation. */
  predicate Rivals(w: Watch, v: Watch) { Live(w) && Live(v) && Same(w, v.conv, v.owner, v.training) }

  /** A move that makes nothing live and clears the grant of what it ends keeps the tables orderly. */
  lemma NoMoreLive(a: Rows, b: Rows)
    requires Orderly(a) && b.Keys == a.Keys
    requires forall id :: id in a ==> Same(b[id], a[id].conv, a[id].owner, a[id].training) && (Live(b[id]) ==> Live(a[id]))
    requires forall id :: id in b && !Live(b[id]) ==> b[id].grant == ""
    ensures Orderly(b)
  {
    forall owner: Owner ensures |LiveOf(b, owner)| <= MAX_LIVE { Smaller(LiveOf(b, owner), LiveOf(a, owner)); }
  }

  lemma LiveAfter(a: Rows, uuid: WatchId, w: Watch, owner: Owner)
    requires uuid !in a && Live(w)
    ensures LiveOf(a[uuid := w], owner) == LiveOf(a, owner) + if owner == w.owner then {uuid} else {}
  {
    hide Live;
    var b := a[uuid := w];
    assert forall id :: id in b <==> id in a || id == uuid;
  }

  lemma NoRival(a: Rows, uuid: WatchId, w: Watch, i: WatchId, j: WatchId)
    requires uuid !in a && (forall k :: k in a ==> !(Same(a[k], w.conv, w.owner, w.training) && Live(a[k])))
    requires i in a[uuid := w] && j in a[uuid := w] && i != j && Rivals(a[uuid := w][i], a[uuid := w][j])
    ensures i in a && j in a && Rivals(a[i], a[j])
  {
  }

  lemma CreationIsOrderly(a: Rows, uuid: WatchId, w: Watch)
    requires Orderly(a) && uuid !in a && Live(w) && |LiveOf(a, w.owner)| < MAX_LIVE
    requires forall k :: k in a ==> !(Same(a[k], w.conv, w.owner, w.training) && Live(a[k]))
    ensures Orderly(a[uuid := w])
  {
    var b := a[uuid := w];
    hide Rivals, Same, LiveOf;
    forall owner: Owner ensures |LiveOf(b, owner)| <= MAX_LIVE {
      LiveAfter(a, uuid, w, owner);
    }
    forall i, j | i in b && j in b && Rivals(b[i], b[j]) ensures i == j {
      if i != j { NoRival(a, uuid, w, i, j); }
    }
  }

  lemma StepIsOrderly(a: Rows, m: Move, b: Rows)
    requires Takes(a, m, b) && Orderly(a)
    ensures Orderly(b)
  {
    if m.Creates? {
      CreationIsOrderly(a, m.uuid, NewWatch(m.conv, m.owner, m.training, m.grant, m.now));
    } else {
      assert b.Keys == a.Keys;
      NoMoreLive(a, b);
    }
  }

  lemma {:induction false} RunIsOrderly(tables: seq<Rows>, moves: seq<Move>, i: nat)
    requires Run(tables, moves) && i < |tables|
    ensures Orderly(tables[i])
  {
    hide Takes;
    if i == 0 {
      forall owner: Owner ensures |LiveOf(tables[0], owner)| <= MAX_LIVE { assert LiveOf(tables[0], owner) == {}; }
    } else {
      RunIsOrderly(tables, moves, i - 1);
      assert Takes(tables[i - 1], moves[i - 1], tables[i - 1 + 1]);
      StepIsOrderly(tables[i - 1], moves[i - 1], tables[i]);
    }
  }

  // ---- What the updates mean

  /** A leased watch is given to nobody else for 45 seconds; without a word from its poller, it is due again after that. */
  lemma LeaseMeans(w: Watch, now: int, later: int)
    requires Due(w, now) && now <= later
    ensures Due(Claimed(w, now), later) <==> later > now + 45
    ensures Claimed(w, now) == w.(epoch := w.epoch + 1, lease := Claimed(w, now).lease)
  {
  }

  /** A watch that goes on is due again thirty seconds after it was saved; one that ends is never due and has no grant. */
  lemma SaveMeans(w: Watch, status: Status, observed: string, message: string, result: string, now: int, later: int)
    ensures var v := Saved(w, status, observed, message, result, now);
      && (Due(v, later) <==> status == Active && later >= now + 30)
      && v.status == status && v.observed == observed && v.message == message && v.epoch == w.epoch
      && (result != "" ==> v.result == result)
      && v.grant == if status in {Completed, Cancelled, Expired} then "" else w.grant
  {
  }

  /** A resumed watch is due at once, with the new grant; a cancelled one never again. Both overtake the poller. */
  lemma ChangeMeans(w: Watch, grant: string, now: int, later: int)
    requires now <= later
    ensures Due(Changed(w, Active, grant, now), later) && Changed(w, Active, grant, now).grant == grant
    ensures !Due(Changed(w, Cancelled, "", now), later)
    ensures Changed(w, Active, grant, now).epoch == Changed(w, Cancelled, "", now).epoch == w.epoch + 1
  {
  }

  /** A live watch ends a day after it was created, and not before. */
  lemma ExpiryMeans(conv: string, owner: Owner, training: string, grant: string, now: int, later: int)
    ensures var w := NewWatch(conv, owner, training, grant, now);
      && Live(w) && Due(w, now) && w.grant == grant
      && Swept(w, later) == if later > now + 86400 then w.(status := Expired, grant := "", epoch := w.epoch + 1) else w
  {
  }

  /** Eight live watches an owner, at most, in every reachable table. */
  lemma EightLive(tables: seq<Rows>, moves: seq<Move>, i: nat, owner: Owner)
    requires Run(tables, moves) && i < |tables|
    ensures |set k | k in tables[i] && tables[i][k].owner == owner && tables[i][k].status in {Active, WaitingAuth}| <= 8
  {
    RunIsOrderly(tables, moves, i);
    assert (set k | k in tables[i] && tables[i][k].owner == owner && tables[i][k].status in {Active, WaitingAuth}) == LiveOf(tables[i], owner);
  }
}
