/** Releases: who owns which reviewed image, from preview to published. */
module Publication {
  import opened Options

  type ReleaseId = string
  type SourceId = string

  datatype Status = Preview | Queued | Building | Registering | Published | Failed | Cancelled

  /** `mapped` marks a request with the label mapping that is no longer supported. */
  datatype Release = Release(source: string, ids: seq<SourceId>, mapped: bool, status: Status)

  type Releases = map<ReleaseId, Release>

  /** The member table, keyed by (source, source id). */
  type Members = map<(string, SourceId), ReleaseId>

  datatype Tables = Tables(releases: Releases, members: Members)

  predicate UnderWay(s: Status) { s == Queued || s == Building || s == Registering }

  /** The statuses in which a release holds its images. */
  predicate Holds(s: Status) { UnderWay(s) || s == Published || s == Failed }

  function Keys(r: Release): set<(string, SourceId)> { set id | id in r.ids :: (r.source, id) }

  /** All images are free, or already this release's. */
  predicate Free(m: Members, r: Release, id: ReleaseId) {
    forall k :: k in Keys(r) && k in m ==> m[k] == id
  }

  function Enter(m: Members, keys: set<(string, SourceId)>, id: ReleaseId): Members {
    map k | k in m.Keys + keys :: if k in keys then id else m[k]
  }

  function Leave(m: Members, id: ReleaseId): Members {
    map k | k in m && m[k] != id :: m[k]
  }

  function With(t: Tables, id: ReleaseId, s: Status): Tables
    requires id in t.releases
  {
    t.(releases := t.releases[id := t.releases[id].(status := s)])
  }

  predicate Cancellable(s: Status) { s == Preview || s == Failed || s == Cancelled }

  predicate Confirmable(s: Status) { s == Preview || s == Failed }

  /** When a transition succeeds: a repeated confirmation does, a conflict over one image refuses the whole release. */
  predicate Allowed(t: Tables, id: ReleaseId, cancel: bool) {
    && id in t.releases
    && var r := t.releases[id];
       if cancel then Cancellable(r.status)
       else UnderWay(r.status) || r.status == Published || (Confirmable(r.status) && !r.mapped && Free(t.members, r, id))
  }

  /** What "confirm" and "cancel" make of the tables; a refusal changes nothing. */
  function AfterCancel(t: Tables, id: ReleaseId): Tables
    requires id in t.releases
  {
    With(t, id, Cancelled).(members := Leave(t.members, id))
  }

  function AfterConfirm(t: Tables, id: ReleaseId): Tables
    requires id in t.releases
  {
    With(t, id, Queued).(members := Enter(t.members, Keys(t.releases[id]), id))
  }

  class Publisher {
    var releases: Releases
    var members: Members

    ghost function Contents(): Tables
      reads this
    {
      Tables(releases, members)
    }

    constructor ()
      ensures Contents() == Tables(map[], map[])
    {
      releases, members := map[], map[];
    }

    /** A preview is stored once; the same id with another request is a conflict. */
    method Store(id: ReleaseId, r: Release) returns (ok: bool)
      requires r.status == Preview
      modifies `releases
      ensures ok <==> id !in old(releases) || old(releases)[id].(status := Preview) == r
      ensures releases == if id in old(releases) then old(releases) else old(releases)[id := r]
    {
      if id in releases { return releases[id].(status := Preview) == r; }
      releases := releases[id := r];
      ok := true;
    }

    /** The member loop of a confirmation: inserts where nobody owns the image, stops where somebody else does. */
    method Enrol(j: Release, id: ReleaseId) returns (ok: bool, table: Members)
      ensures ok <==> Free(members, j, id)
      ensures ok ==> table == Enter(members, Keys(j), id)
    {
      table := members;
      ghost var entered: set<(string, SourceId)> := {};
      assert Enter(members, {}, id) == members;
      for i := 0 to |j.ids|
        invariant entered == Keys(j.(ids := j.ids[..i]))
        invariant table == Enter(members, entered, id)
        invariant forall k :: k in entered && k in members ==> members[k] == id
      {
        hide Enter, Keys;
        var key := (j.source, j.ids[i]);
        KeysMore(j, i);
        EnterMore(members, entered, key, id);
        if key !in table { table := table[key := id]; }
        if table[key] != id { return false, table; }
        entered := entered + {key};
      }
      assert j.(ids := j.ids[..|j.ids|]) == j;
      ok := true;
    }

    /** The transaction of `Transition`: on a conflict, members entered so far are rolled back with it. */
    method Transition(id: ReleaseId, cancel: bool) returns (ok: bool)
      modifies this
      ensures ok == Allowed(old(Contents()), id, cancel)
      ensures Contents() ==
        if !ok then old(Contents())
        else if cancel then AfterCancel(old(Contents()), id)
        else if Confirmable(old(releases)[id].status) then AfterConfirm(old(Contents()), id)
        else old(Contents())
    {
      if id !in releases { return false; }
      var j := releases[id];
      if cancel {
        if !Cancellable(j.status) { return false; }
        members := Leave(members, id);
        releases := releases[id := j.(status := Cancelled)];
        return true;
      }
      if UnderWay(j.status) || j.status == Published { return true; }
      if !Confirmable(j.status) || j.mapped { return false; }
      var free, table := Enrol(j, id);
      if !free { return false; }
      members := table;
      releases := releases[id := j.(status := Queued)];
      ok := true;
    }

    /** `ProcessNext` up to the build: any release under way may be picked up. */
    method Pick() returns (id: Option<ReleaseId>)
      modifies `releases
      ensures id.None? <==> forall k :: k in old(releases) ==> !UnderWay(old(releases)[k].status)
      ensures id.Some? ==> id.value in old(releases) && UnderWay(old(releases)[id.value].status)
      ensures Contents() == if id.Some? then With(old(Contents()), id.value, Building) else old(Contents())
    {
      if k :| k in releases && UnderWay(releases[k].status) {
        releases := releases[k := releases[k].(status := Building)];
        return Some(k);
      }
      id := None;
    }

    /** The coordinator's unconditional status updates. */
    method Mark(id: ReleaseId, status: Status)
      requires status == Registering || status == Published || status == Failed
      modifies `releases
      ensures Contents() == if id in old(releases) then With(old(Contents()), id, status) else old(Contents())
    {
      if id in releases { releases := releases[id := releases[id].(status := status)]; }
    }
  }

  lemma KeysMore(j: Release, i: nat)
    requires i < |j.ids|
    ensures Keys(j.(ids := j.ids[..i + 1])) == Keys(j.(ids := j.ids[..i])) + {(j.source, j.ids[i])}
    ensures (j.source, j.ids[i]) in Keys(j)
  {
    assert j.ids[..i + 1] == j.ids[..i] + [j.ids[i]];
  }

  /** Entering one more key: it may be new, entered already, or somebody's. */
  lemma EnterMore(m: Members, keys: set<(string, SourceId)>, key: (string, SourceId), id: ReleaseId)
    ensures var table := Enter(m, keys, id);
      && (key !in table ==> Enter(m, keys + {key}, id) == table[key := id])
      && (key in table && table[key] == id ==> Enter(m, keys + {key}, id) == table)
      && (key in table && table[key] != id ==> key in m && m[key] != id)
      && (key !in table || table[key] == id ==> key in m ==> m[key] == id || key in keys)
  {
  }

  /**
   * A preview, failed or cancelled release can be cancelled, and gives its images up. A preview or failed one can be
   * confirmed unless another release has one of its images, and takes all of them; confirming it again changes nothing.
   */
  lemma TransitionMeans(t: Tables, id: ReleaseId)
    requires id in t.releases
    ensures var r := t.releases[id];
      && (Allowed(t, id, true) <==> r.status in {Preview, Failed, Cancelled})
      && (Allowed(t, id, false) <==>
            || r.status in {Queued, Building, Registering, Published}
            || (r.status in {Preview, Failed} && !r.mapped
                && forall s :: s in r.ids && (r.source, s) in t.members ==> t.members[(r.source, s)] == id))
    ensures AfterCancel(t, id).releases == t.releases[id := t.releases[id].(status := Cancelled)]
    ensures forall k :: k in AfterCancel(t, id).members <==> k in t.members && t.members[k] != id
    ensures forall k :: k in AfterCancel(t, id).members ==> AfterCancel(t, id).members[k] == t.members[k]
    ensures AfterConfirm(t, id).releases == t.releases[id := t.releases[id].(status := Queued)]
    ensures forall s :: s in t.releases[id].ids ==>
      (t.releases[id].source, s) in AfterConfirm(t, id).members && AfterConfirm(t, id).members[(t.releases[id].source, s)] == id
    ensures forall k :: k in t.members && !(k.0 == t.releases[id].source && k.1 in t.releases[id].ids) ==>
      k in AfterConfirm(t, id).members && AfterConfirm(t, id).members[k] == t.members[k]
    ensures forall k :: k in AfterConfirm(t, id).members ==>
      k in t.members || (k.0 == t.releases[id].source && k.1 in t.releases[id].ids)
  {
    var r := t.releases[id];
    assert forall s :: s in r.ids <==> (r.source, s) in Keys(r);
  }

  // ---- Every run

  /** A coordinator at work on a release; `registered` once it has made its registering update. */
  datatype Coordinator = Coordinator(id: ReleaseId, registered: bool)

  /**
   * `holder` is the coordinator with the advisory lock; `strays` are the releases of coordinators that lost their
   * session, and the lock with it, while the build went on towards the registering update.
   */
  datatype World = World(t: Tables, holder: Option<Coordinator>, strays: multiset<ReleaseId>)

  datatype Move =
    | Stores(id: ReleaseId, r: Release)
    | Cancels(id: ReleaseId)
    | Confirms(id: ReleaseId)
    | Picks(id: ReleaseId)
    | Registers
    | Settles(good: bool)
    | Crashes
    | LosesSession
    | StrayRegisters(id: ReleaseId)
    | StrayEnds(id: ReleaseId)

  ghost predicate Takes(w: World, m: Move, v: World) {
    match m
    case Stores(id, r) =>
      id !in w.t.releases && r.status == Preview && v == w.(t := w.t.(releases := w.t.releases[id := r]))
    case Cancels(id) => id in w.t.releases && Cancellable(w.t.releases[id].status) && v == w.(t := AfterCancel(w.t, id))
    case Confirms(id) =>
      id in w.t.releases && Confirmable(w.t.releases[id].status) && !w.t.releases[id].mapped
      && Free(w.t.members, w.t.releases[id], id) && v == w.(t := AfterConfirm(w.t, id))
    case Picks(id) =>
      w.holder.None? && id in w.t.releases && UnderWay(w.t.releases[id].status)
      && v == w.(t := With(w.t, id, Building), holder := Some(Coordinator(id, false)))
    case Registers =>
      w.holder.Some? && !w.holder.value.registered && w.holder.value.id in w.t.releases
      && v == w.(t := With(w.t, w.holder.value.id, Registering), holder := Some(w.holder.value.(registered := true)))
    case Settles(good) =>
      w.holder.Some? && (good ==> w.holder.value.registered) && w.holder.value.id in w.t.releases
      && v == w.(t := With(w.t, w.holder.value.id, if good then Published else Failed), holder := None)
    case Crashes => v == w.(holder := None)
    case LosesSession =>
      w.holder.Some?
      && v == w.(holder := None,
                 strays := if w.holder.value.registered then w.strays else w.strays + multiset{w.holder.value.id})
    case StrayRegisters(id) =>
      id in w.strays && id in w.t.releases
      && v == w.(t := With(w.t, id, Registering), strays := w.strays - multiset{id})
    case StrayEnds(id) => id in w.strays && v == w.(strays := w.strays - multiset{id})
  }

  /** A release owns exactly its images while it holds them, and nothing otherwise. */
  ghost predicate Owns(t: Tables) {
    && (forall id :: id in t.releases && Holds(t.releases[id].status) ==>
          forall k :: k in Keys(t.releases[id]) ==> k in t.members && t.members[k] == id)
    && (forall k :: k in t.members ==>
          t.members[k] in t.releases && Holds(t.releases[t.members[k]].status) && k in Keys(t.releases[t.members[k]]))
  }

  /** The release of the coordinator with the lock is under way. */
  ghost predicate Held(w: World) {
    w.holder.Some? ==> w.holder.value.id in w.t.releases && UnderWay(w.t.releases[w.holder.value.id].status)
  }

  ghost predicate Run(worlds: seq<World>, moves: seq<Move>) {
    && |worlds| == |moves| + 1 && worlds[0] == World(Tables(map[], map[]), None, multiset{})
    && forall i :: 0 <= i < |moves| ==> Takes(worlds[i], moves[i], worlds[i + 1])
  }

  /** What the registering update of a stray must meet: a release that holds its images, or has none. */
  predicate Harmless(w: World, m: Move) {
    m.StrayRegisters? && m.id in w.t.releases ==> Holds(w.t.releases[m.id].status) || w.t.releases[m.id].ids == []
  }

  ghost predicate AllHarmless(worlds: seq<World>, moves: seq<Move>, n: nat)
    requires n <= |moves| <= |worlds|
  {
    forall i :: 0 <= i < n ==> Harmless(worlds[i], moves[i])
  }

  lemma StoreKeepsOwnership(t: Tables, id: ReleaseId, r: Release)
    requires Owns(t) && id !in t.releases && r.status == Preview
    ensures Owns(t.(releases := t.releases[id := r]))
  {
  }

  lemma CancelKeepsOwnership(t: Tables, id: ReleaseId)
    requires Owns(t) && id in t.releases
    ensures Owns(AfterCancel(t, id))
  {
    hide Keys;
  }

  lemma ConfirmKeepsOwnership(t: Tables, id: ReleaseId)
    requires Owns(t) && id in t.releases && Confirmable(t.releases[id].status) && Free(t.members, t.releases[id], id)
    ensures Owns(AfterConfirm(t, id))
  {
    var u := AfterConfirm(t, id);
    assert Keys(u.releases[id]) == Keys(t.releases[id]);
    forall k | k in u.members
      ensures u.members[k] in u.releases && Holds(u.releases[u.members[k]].status) && k in Keys(u.releases[u.members[k]])
    {
      if k !in Keys(t.releases[id]) { assert k in t.members; }
    }
  }

  /** A status update between holding statuses moves no image. */
  lemma MarkKeepsOwnership(t: Tables, id: ReleaseId, s: Status)
    requires Owns(t) && id in t.releases && Holds(t.releases[id].status) && Holds(s)
    ensures Owns(With(t, id, s))
  {
    assert Keys(With(t, id, s).releases[id]) == Keys(t.releases[id]);
    hide Keys;
  }

  /** A step keeps ownership in order exactly when it is not a stray update to a release that lost its images. */
  lemma StepKeepsOwnership(w: World, m: Move, v: World)
    requires Takes(w, m, v) && Owns(w.t) && Held(w)
    ensures Owns(v.t) <==> Harmless(w, m)
  {
    hide Owns;
    match m
    case Stores(id, r) => StoreKeepsOwnership(w.t, id, r);
    case Cancels(id) => CancelKeepsOwnership(w.t, id);
    case Confirms(id) => ConfirmKeepsOwnership(w.t, id);
    case Picks(id) => MarkKeepsOwnership(w.t, id, Building);
    case Registers => MarkKeepsOwnership(w.t, w.holder.value.id, Registering);
    case Settles(good) => MarkKeepsOwnership(w.t, w.holder.value.id, if good then Published else Failed);
    case StrayRegisters(id) => StrayUpdate(w.t, id);
    case _ =>
  }

  lemma {:induction false} RunIsHeld(worlds: seq<World>, moves: seq<Move>, i: nat)
    requires Run(worlds, moves) && i < |worlds|
    ensures Held(worlds[i])
  {
    if i > 0 {
      RunIsHeld(worlds, moves, i - 1);
      assert Takes(worlds[i - 1], moves[i - 1], worlds[i - 1 + 1]);
    }
  }

  /** Ownership is in order all the way exactly when every stray update meets a release that holds its images. */
  lemma {:induction false} RunOwns(worlds: seq<World>, moves: seq<Move>, i: nat)
    requires Run(worlds, moves) && i < |worlds|
    ensures (forall k :: 0 <= k <= i ==> Owns(worlds[k].t)) <==> AllHarmless(worlds, moves, i)
  {
    hide Takes, Owns, Held, Harmless;
    if i == 0 {
      NothingOwned();
    } else {
      RunOwns(worlds, moves, i - 1);
      RunIsHeld(worlds, moves, i - 1);
      assert Takes(worlds[i - 1], moves[i - 1], worlds[i - 1 + 1]);
      if Owns(worlds[i - 1].t) { StepKeepsOwnership(worlds[i - 1], moves[i - 1], worlds[i]); }
    }
  }

  lemma NothingOwned()
    ensures Owns(Tables(map[], map[]))
  {
  }

  /** No image of a source is in two releases that hold images; in particular not in two published ones. */
  lemma NoImageTwice(worlds: seq<World>, moves: seq<Move>, i: nat, a: ReleaseId, b: ReleaseId)
    requires Run(worlds, moves) && i < |worlds| && AllHarmless(worlds, moves, i)
    requires a in worlds[i].t.releases && b in worlds[i].t.releases && a != b
    requires Holds(worlds[i].t.releases[a].status) && Holds(worlds[i].t.releases[b].status)
    ensures Keys(worlds[i].t.releases[a]) !! Keys(worlds[i].t.releases[b])
  {
    RunOwns(worlds, moves, i);
    assert Owns(worlds[i].t);
    hide Keys;
  }

  predicate Ended(s: Status) { s == Published || s == Cancelled }

  ghost predicate StatusIs(w: World, id: ReleaseId, s: Status) { id in w.t.releases && w.t.releases[id].status == s }

  /**
   * A release never changes its images, and one that is published or cancelled stays so exactly until a stray makes
   * its registering update to it.
   */
  lemma {:induction false} EndsAreFinal(worlds: seq<World>, moves: seq<Move>, i: nat, j: nat, id: ReleaseId)
    requires Run(worlds, moves) && i <= j < |worlds| && id in worlds[i].t.releases
    ensures id in worlds[j].t.releases && Keys(worlds[j].t.releases[id]) == Keys(worlds[i].t.releases[id])
    ensures var s := worlds[i].t.releases[id].status;
      Ended(s) ==> ((forall k :: i <= k <= j ==> StatusIs(worlds[k], id, s)) <==> StrayRegisters(id) !in moves[i..j])
    decreases j
  {
    hide Takes;
    if i < j {
      EndsAreFinal(worlds, moves, i, j - 1, id);
      RunIsHeld(worlds, moves, j - 1);
      assert Takes(worlds[j - 1], moves[j - 1], worlds[j - 1 + 1]);
      StepKeepsEnds(worlds[j - 1], moves[j - 1], worlds[j], id);
      assert moves[i..j] == moves[i..j - 1] + [moves[j - 1]];
    }
  }

  lemma StepKeepsEnds(w: World, m: Move, v: World, id: ReleaseId)
    requires Takes(w, m, v) && Held(w) && id in w.t.releases
    ensures id in v.t.releases && v.t.releases[id].ids == w.t.releases[id].ids && v.t.releases[id].source == w.t.releases[id].source
    ensures Ended(w.t.releases[id].status) ==> (StatusIs(v, id, w.t.releases[id].status) <==> m != StrayRegisters(id))
  {
  }

  // ---- The update that does not check

  /**
   * The registering update carries no status guard. From tables in order, a stray's update leaves them in order
   * exactly when its release still holds its images, or has none to hold.
   */
  lemma StrayUpdate(t: Tables, id: ReleaseId)
    requires Owns(t) && id in t.releases
    ensures Owns(With(t, id, Registering)) <==> Holds(t.releases[id].status) || t.releases[id].ids == []
  {
    var r := t.releases[id];
    var u := With(t, id, Registering);
    assert Keys(u.releases[id]) == Keys(r);
    if Holds(r.status) {
      MarkKeepsOwnership(t, id, Registering);
    } else if r.ids == [] {
      assert Keys(r) == {};
      hide Keys;
    } else {
      var k := (r.source, r.ids[0]);
      assert k in Keys(r) && !(k in u.members && u.members[k] == id);
    }
  }

  const R := Release("annotation", ["x"], false, Preview)

  /**
   * A coordinator loses its session and another one takes over. That one fails and the release is cancelled, or it
   * succeeds; then the first build registers.
   */
  function StrayWorld(good: bool, i: nat): World {
    if i == 0 then World(Tables(map[], map[]), None, multiset{})
    else World(StrayTables(good, i), StrayHolder(good, i), if 4 <= i <= 7 then multiset{"a"} else multiset{})
  }

  function StrayTables(good: bool, i: nat): Tables {
    Tables(map["a" := R.(status := StrayStatus(good, i))],
           if i >= 2 && (good || i <= 6) then map[("annotation", "x") := "a"] else map[])
  }

  function StrayHolder(good: bool, i: nat): Option<Coordinator> {
    if i == 3 || i == 5 || (i == 6 && good) then Some(Coordinator("a", i == 6)) else None
  }

  function StrayStatus(good: bool, i: nat): Status {
    if i <= 1 then Preview else if i == 2 then Queued else if i <= 5 then Building
    else if i == 6 then if good then Registering else Failed
    else if i == 7 then if good then Published else Cancelled
    else Registering
  }

  function StrayMove(good: bool, i: nat): Move {
    if i == 0 then Stores("a", R) else if i == 1 then Confirms("a") else if i == 2 || i == 4 then Picks("a")
    else if i == 3 then LosesSession
    else if i == 5 then if good then Registers else Settles(false)
    else if i == 6 then if good then Settles(true) else Cancels("a")
    else StrayRegisters("a")
  }

  lemma StrayTablesNext(good: bool, i: nat)
    requires 1 <= i < 8
    ensures var t, s := StrayTables(good, i), StrayStatus(good, i + 1);
      StrayTables(good, i + 1) ==
      if i == 1 then AfterConfirm(t, "a") else if i == 6 && !good then AfterCancel(t, "a") else With(t, "a", s)
  {
    var t, u := StrayTables(good, i), StrayTables(good, i + 1);
    if i == 1 {
      assert ("annotation", "x") in Keys(R);
      assert AfterConfirm(t, "a").members == u.members;
    }
    if i == 6 && !good { assert AfterCancel(t, "a").members == u.members; }
  }

  lemma StrayStep(good: bool, i: nat)
    requires i < 8
    ensures Takes(StrayWorld(good, i), StrayMove(good, i), StrayWorld(good, i + 1))
  {
    if i > 0 {
      StrayTablesNext(good, i);
      hide AfterConfirm, AfterCancel, With;
    }
    assert StrayWorld(good, 4).strays == multiset{} + multiset{"a"};
    assert StrayWorld(good, 7).strays - multiset{"a"} == multiset{};
  }

  /**
   * After a lost session a published release can be under way again, and so can a cancelled one, which then owns
   * nothing of what it holds.
   */
  lemma LostSessionUndoesEnds(good: bool) returns (worlds: seq<World>, moves: seq<Move>)
    ensures Run(worlds, moves) && |moves| == 8
    ensures StatusIs(worlds[7], "a", if good then Published else Cancelled) && StatusIs(worlds[8], "a", Registering)
    ensures !good ==> !Owns(worlds[8].t)
  {
    worlds := seq(9, i requires 0 <= i < 9 => StrayWorld(good, i));
    moves := seq(8, i requires 0 <= i < 8 => StrayMove(good, i));
    assert ("annotation", "x") in Keys(worlds[8].t.releases["a"]);
    assert worlds[0] == StrayWorld(good, 0);
    hide Takes, StrayTables, StrayHolder;
    forall i | 0 <= i < 8 ensures Takes(worlds[i], moves[i], worlds[i + 1]) { StrayStep(good, i); }
  }
}
