/** The annotation queue of the platform: tasks, the worker's lease, human labels, and the memory outbox. */
module AnnotationTasks {
  import opened Options
  import opened Sets
  import opened Texts

  type TaskId = string
  type ProjectId = string
  type ClassId = string
  type Token = nat

  datatype Status = Fresh | Queued | Running | Suggested | Failed | Unknown | Confirmed

  datatype Result = Result(classIds: seq<ClassId>, body: string)

  const NO_RESULT := Result([], "")

  datatype Task = Task(project: ProjectId, order: int, sha: string, status: Status, tag: ClassId, actor: string,
                       token: Option<Token>, lease: Option<int>, result: Result, error: string)

  datatype Parcel = Parcel(delivered: bool, nextAt: int, attempts: nat)

  type Tasks = map<TaskId, Task>
  type Catalogs = map<ProjectId, seq<ClassId>>

  const MAX_RESULT := 128 * 1024
  const LEASE := 1200
  const BACKOFF := 60

  datatype Tables = Tables(tasks: Tasks, outbox: map<TaskId, Parcel>)

  // ---- Bulk updates

  /** The tasks for which `chosen` holds are queued; only fresh ones can be. */
  function Requeue(tasks: Tasks, chosen: set<TaskId>): Tasks {
    map id | id in tasks :: if id in chosen && tasks[id].status == Fresh then tasks[id].(status := Queued) else tasks[id]
  }

  predicate Lapsed(t: Task, now: int) { t.status == Running && t.lease.Some? && t.lease.value < now }

  /** A lapsed lease is quarantined: the provider may have been paid. */
  function Quarantine(tasks: Tasks, now: int): Tasks {
    map id | id in tasks ::
      if Lapsed(tasks[id], now) then tasks[id].(status := Unknown, error := "lease expired; outcome unknown") else tasks[id]
  }

  // ---- Single updates

  function Claimed(t: Task, token: Token, now: int): Task {
    t.(status := Running, token := Some(token), lease := Some(now + LEASE))
  }

  function Least(a: nat, b: nat): nat { if a < b then a else b }

  /** The result checks of `Finish`. */
  predicate Presentable(classes: seq<ClassId>, status: Status, ids: seq<ClassId>) {
    && (status == Suggested || status == Failed || status == Unknown)
    && (forall c :: c in ids ==> c in classes) && Distinct(ids)
    && |ids| <= 10 && (status == Suggested ==> |ids| == Least(10, |classes|))
  }

  predicate Live(t: Task, token: Token, now: int) {
    t.status == Running && t.token == Some(token) && t.lease.Some? && t.lease.value > now
  }

  function Finished(t: Task, status: Status, result: Result, message: string): Task {
    t.(status := status, result := result, error := message, lease := None)
  }

  /** A repeated report that the row already reflects. */
  predicate Reported(t: Task, token: Token, status: Status, result: Result, message: string) {
    t.token == Some(token) && t.status == status && t.result == result && t.error == message
  }

  predicate ActorOk(actor: string) { Trim(actor) != "" && Bytes(actor) <= 120 }

  /** A first confirmation: from any state in which no worker is involved. */
  predicate Confirmable(t: Task) { t.status != Running && t.status != Queued && t.status != Confirmed }

  // ---- The tables

  class TaskTable {
    const catalogs: Catalogs
    var tasks: Tasks
    var outbox: map<TaskId, Parcel>

    ghost function Contents(): Tables
      reads this
    {
      Tables(tasks, outbox)
    }

    constructor (catalogs: Catalogs)
      ensures Contents() == Tables(map[], map[]) && this.catalogs == catalogs
    {
      this.catalogs, tasks, outbox := catalogs, map[], map[];
    }

    /** One task an image in a project: the second upload of the same bytes finds the first. */
    method Add(uuid: TaskId, project: ProjectId, order: int, sha: string) returns (id: TaskId)
      requires uuid !in tasks
      modifies `tasks
      ensures id in tasks && tasks[id].project == project && tasks[id].sha == sha
      ensures if id in old(tasks) then tasks == old(tasks)
              else id == uuid && tasks == old(tasks)[uuid := NewTask(project, order, sha)]
                   && Takes(catalogs, old(Contents()), Adds(uuid, project, order, sha), Contents())
    {
      if k :| k in tasks && tasks[k].project == project && tasks[k].sha == sha { return k; }
      tasks := tasks[uuid := NewTask(project, order, sha)];
      id := uuid;
    }

    method Queue(project: ProjectId, ids: seq<TaskId>) returns (changed: Option<nat>)
      modifies `tasks
      ensures changed.Some? <==> 1 <= |ids| <= 100
      ensures changed.Some? ==> tasks == Requeue(old(tasks), set id | id in ids && id in old(tasks) && old(tasks)[id].project == project)
      ensures changed.Some? ==>
        changed.value == |set id | id in ids && id in old(tasks) && old(tasks)[id].project == project && old(tasks)[id].status == Fresh|
      ensures changed.None? ==> tasks == old(tasks)
      ensures changed.Some? ==> exists chosen :: Takes(catalogs, old(Contents()), Queues(chosen), Contents())
    {
      if |ids| < 1 || |ids| > 100 { return None; }
      ghost var chosen := set id | id in ids && id in tasks && tasks[id].project == project;
      changed := Some(|set id | id in ids && id in tasks && tasks[id].project == project && tasks[id].status == Fresh|);
      tasks := Requeue(tasks, set id | id in ids && id in tasks && tasks[id].project == project);
      assert Takes(catalogs, old(Contents()), Queues(chosen), Contents());
    }

    method QueueAll(project: ProjectId, through: int) returns (ok: bool)
      modifies `tasks
      ensures ok == (through >= 1)
      ensures tasks == if ok then Requeue(old(tasks), set id | id in old(tasks) && old(tasks)[id].project == project && old(tasks)[id].order <= through)
                       else old(tasks)
    {
      if through < 1 { return false; }
      tasks := Requeue(tasks, set id | id in tasks && tasks[id].project == project && tasks[id].order <= through);
      ok := true;
    }

    /** Lapsed leases first, then the earliest queued task. */
    method Claim(now: int, token: Token) returns (claimed: Option<TaskId>)
      modifies `tasks
      ensures claimed.Some? <==> exists id :: id in old(tasks) && old(tasks)[id].status == Queued
      ensures claimed.Some? ==>
        && claimed.value in old(tasks) && old(tasks)[claimed.value].status == Queued
        && (forall k :: k in old(tasks) && old(tasks)[k].status == Queued ==> old(tasks)[claimed.value].order <= old(tasks)[k].order)
        && tasks == Quarantine(old(tasks), now)[claimed.value := Claimed(old(tasks)[claimed.value], token, now)]
      ensures claimed.None? ==> tasks == Quarantine(old(tasks), now)
      ensures Takes(catalogs, old(Contents()), Claims(now, token, claimed), Contents())
    {
      tasks := Quarantine(tasks, now);
      claimed := None;
      assert forall k :: k in tasks <==> k in old(tasks);
      assert forall k :: k in tasks ==> (tasks[k].status == Queued <==> old(tasks)[k].status == Queued) && tasks[k].order == old(tasks)[k].order;
      var rest := set id | id in tasks && tasks[id].status == Queued;
      while rest != {}
        invariant rest <= set id | id in tasks && tasks[id].status == Queued
        invariant claimed.Some? ==> claimed.value in tasks && tasks[claimed.value].status == Queued
        invariant forall k :: k in tasks && tasks[k].status == Queued && k !in rest ==>
          claimed.Some? && tasks[claimed.value].order <= tasks[k].order
        decreases rest
      {
        var id :| id in rest;
        if claimed.None? || tasks[id].order < tasks[claimed.value].order { claimed := Some(id); }
        rest := rest - {id};
      }
      assert forall k :: k in old(tasks) && old(tasks)[k].status == Queued ==> k in tasks && tasks[k].status == Queued;
      if claimed.Some? { tasks := tasks[claimed.value := Claimed(tasks[claimed.value], token, now)]; }
    }

    /** `size` is the length of the report in bytes, `parsed` what it decodes to. */
    method Finish(id: TaskId, token: Token, status: Status, size: nat, parsed: Option<Result>, message: string, now: int)
      returns (ok: bool)
      modifies `tasks
      ensures ok <==> size <= MAX_RESULT && parsed.Some? && id in old(tasks) && old(tasks)[id].project in catalogs
                      && Presentable(catalogs[old(tasks)[id].project], status, parsed.value.classIds)
                      && (Live(old(tasks)[id], token, now) || Reported(old(tasks)[id], token, status, parsed.value, message))
      ensures tasks == if ok && Live(old(tasks)[id], token, now)
                       then old(tasks)[id := Finished(old(tasks)[id], status, parsed.value, message)] else old(tasks)
      ensures ok && Live(old(tasks)[id], token, now) ==>
        Takes(catalogs, old(Contents()), Finishes(id, token, status, parsed.value, message, now), Contents())
    {
      if status != Suggested && status != Failed && status != Unknown { return false; }
      if size > MAX_RESULT || parsed.None? { return false; }
      var result := parsed.value;
      if id !in tasks || tasks[id].project !in catalogs { return false; }
      var allowed := catalogs[tasks[id].project];
      var seen: set<ClassId> := {};
      for i := 0 to |result.classIds|
        invariant seen == set c | c in result.classIds[..i]
        invariant (forall c :: c in result.classIds[..i] ==> c in allowed) && Distinct(result.classIds[..i])
      {
        var c := result.classIds[i];
        assert result.classIds[..i + 1] == result.classIds[..i] + [c];
        if c !in allowed || c in seen {
          if c in seen {
            var k :| 0 <= k < i && result.classIds[k] == c;
          }
          return false;
        }
        seen := seen + {c};
      }
      assert result.classIds[..|result.classIds|] == result.classIds;
      if |result.classIds| > 10 || (status == Suggested && |result.classIds| != Least(10, |allowed|)) { return false; }
      if Live(tasks[id], token, now) {
        tasks := tasks[id := Finished(tasks[id], status, result, message)];
        return true;
      }
      ok := Reported(tasks[id], token, status, result, message);
    }

    /** A label and its outbox row are written together. */
    method Confirm(id: TaskId, tag: ClassId, actor: string) returns (ok: bool)
      modifies `tasks, `outbox
      ensures ok <==> ActorOk(actor) && id in old(tasks) && old(tasks)[id].project in catalogs
                      && tag in catalogs[old(tasks)[id].project]
                      && (Confirmable(old(tasks)[id]) || (old(tasks)[id].status == Confirmed && old(tasks)[id].tag == tag))
      ensures if ok && Confirmable(old(tasks)[id])
        then tasks == old(tasks)[id := old(tasks)[id].(status := Confirmed, tag := tag, actor := actor)]
             && outbox == (if id in old(outbox) then old(outbox) else old(outbox)[id := Parcel(false, 0, 0)])
        else Contents() == old(Contents())
      ensures ok && Confirmable(old(tasks)[id]) ==> Takes(catalogs, old(Contents()), Confirms(id, tag, actor), Contents())
    {
      if !ActorOk(actor) || id !in tasks || tasks[id].project !in catalogs { return false; }
      if tag !in catalogs[tasks[id].project] { return false; }
      if tasks[id].status == Running || tasks[id].status == Queued { return false; }
      if tasks[id].status == Confirmed { return tasks[id].tag == tag; }
      tasks := tasks[id := tasks[id].(status := Confirmed, tag := tag, actor := actor)];
      if id !in outbox { outbox := outbox[id := Parcel(false, 0, 0)]; }
      ok := true;
    }

    method MemoryAck(id: TaskId, indexed: bool, now: int)
      modifies `outbox
      ensures outbox == if id in old(outbox) && !old(outbox)[id].delivered
                        then old(outbox)[id := Parcel(indexed, now + 60, old(outbox)[id].attempts + 1)] else old(outbox)
      ensures outbox != old(outbox) ==> Takes(catalogs, old(Contents()), Acks(id, indexed, now), Contents())
    {
      if id in outbox && !outbox[id].delivered {
        outbox := outbox[id := Parcel(indexed, now + BACKOFF, outbox[id].attempts + 1)];
      }
    }
  }

  function NewTask(project: ProjectId, order: int, sha: string): Task {
    Task(project, order, sha, Fresh, "", "", None, None, NO_RESULT, "")
  }

  // ---- Every run

  datatype Move =
    | Adds(uuid: TaskId, project: ProjectId, order: int, sha: string)
    | Queues(chosen: set<TaskId>)
    | Claims(now: int, token: Token, claimed: Option<TaskId>)
    | Finishes(id: TaskId, token: Token, status: Status, result: Result, message: string, now: int)
    | Confirms(id: TaskId, tag: ClassId, actor: string)
    | Acks(id: TaskId, indexed: bool, now: int)

  /** A move that changes the tables; what a refused or repeated call does is to leave them. */
  ghost predicate Takes(catalogs: Catalogs, a: Tables, m: Move, b: Tables) {
    match m
    case Adds(uuid, project, order, sha) =>
      uuid !in a.tasks && b == a.(tasks := a.tasks[uuid := NewTask(project, order, sha)])
      && forall k :: k in a.tasks ==> a.tasks[k].project != project || a.tasks[k].sha != sha
    case Queues(chosen) => b == a.(tasks := Requeue(a.tasks, chosen))
    case Claims(now, token, claimed) =>
      if claimed.None? then b == a.(tasks := Quarantine(a.tasks, now))
      else claimed.value in a.tasks && a.tasks[claimed.value].status == Queued
           && b == a.(tasks := Quarantine(a.tasks, now)[claimed.value := Claimed(a.tasks[claimed.value], token, now)])
    case Finishes(id, token, status, result, message, now) =>
      id in a.tasks && a.tasks[id].project in catalogs && Presentable(catalogs[a.tasks[id].project], status, result.classIds)
      && Live(a.tasks[id], token, now) && b == a.(tasks := a.tasks[id := Finished(a.tasks[id], status, result, message)])
    case Confirms(id, tag, actor) =>
      id in a.tasks && a.tasks[id].project in catalogs && tag in catalogs[a.tasks[id].project] && Confirmable(a.tasks[id])
      && b == Tables(a.tasks[id := a.tasks[id].(status := Confirmed, tag := tag, actor := actor)],
                     if id in a.outbox then a.outbox else a.outbox[id := Parcel(false, 0, 0)])
    case Acks(id, indexed, now) =>
      id in a.outbox && !a.outbox[id].delivered
      && b == a.(outbox := a.outbox[id := Parcel(indexed, now + BACKOFF, a.outbox[id].attempts + 1)])
  }

  ghost predicate Run(catalogs: Catalogs, tables: seq<Tables>, moves: seq<Move>) {
    && |tables| == |moves| + 1 && tables[0] == Tables(map[], map[])
    && forall i :: 0 <= i < |moves| ==> Takes(catalogs, tables[i], moves[i], tables[i + 1])
  }

  function Stage(s: Status): nat {
    match s
    case Fresh => 0
    case Queued => 1
    case Running => 2
    case Suggested => 3
    case Failed => 3
    case Unknown => 3
    case Confirmed => 4
  }

  /** One task, before and after any one move: it only goes forward, and a confirmed one stands still. */
  ghost predicate Forward(t: Task, u: Task) {
    && u.project == t.project && u.sha == t.sha && u.order == t.order
    && Stage(t.status) <= Stage(u.status)
    && (t.status == Confirmed ==> u == t)
    && (t.status != Queued && u.status == Running ==> t.status == Running && u == t)
    && (Stage(t.status) == Stage(u.status) ==> u == t)
  }

  lemma StepForward(catalogs: Catalogs, a: Tables, m: Move, b: Tables, id: TaskId)
    requires Takes(catalogs, a, m, b) && id in a.tasks
    ensures id in b.tasks && Forward(a.tasks[id], b.tasks[id])
    ensures m.Claims? && m.claimed == Some(id) ==> a.tasks[id].status == Queued && b.tasks[id].status == Running
  {
  }

  lemma {:induction false} RunForward(catalogs: Catalogs, tables: seq<Tables>, moves: seq<Move>, i: nat, j: nat, id: TaskId)
    requires Run(catalogs, tables, moves) && i <= j < |tables| && id in tables[i].tasks
    ensures id in tables[j].tasks && Stage(tables[i].tasks[id].status) <= Stage(tables[j].tasks[id].status)
    ensures tables[i].tasks[id].status == Confirmed ==> tables[j].tasks[id] == tables[i].tasks[id]
    decreases j
  {
    hide Takes;
    if i < j {
      RunForward(catalogs, tables, moves, i, j - 1, id);
      assert Takes(catalogs, tables[j - 1], moves[j - 1], tables[j - 1 + 1]);
      StepForward(catalogs, tables[j - 1], moves[j - 1], tables[j], id);
    }
  }

  /** No task is handed to a worker twice: a failed or unknown paid call is never replayed by itself. */
  lemma RunsAtMostOnce(catalogs: Catalogs, tables: seq<Tables>, moves: seq<Move>, i: nat, j: nat, id: TaskId)
    requires Run(catalogs, tables, moves) && i <= j < |moves|
    requires moves[i].Claims? && moves[i].claimed == Some(id) && moves[j].Claims? && moves[j].claimed == Some(id)
    ensures i == j
  {
    hide Takes;
    assert Takes(catalogs, tables[i], moves[i], tables[i + 1]) && Takes(catalogs, tables[j], moves[j], tables[j + 1]);
    ClaimsQueued(catalogs, tables[i], moves[i], tables[i + 1], id);
    ClaimsQueued(catalogs, tables[j], moves[j], tables[j + 1], id);
    if i < j { RunForward(catalogs, tables, moves, i + 1, j, id); }
  }

  lemma ClaimsQueued(catalogs: Catalogs, a: Tables, m: Move, b: Tables, id: TaskId)
    requires Takes(catalogs, a, m, b) && m.Claims? && m.claimed == Some(id)
    ensures id in a.tasks && a.tasks[id].status == Queued && id in b.tasks && b.tasks[id].status == Running
  {
  }

  /** A human label is final. */
  lemma LabelIsFinal(catalogs: Catalogs, tables: seq<Tables>, moves: seq<Move>, i: nat, j: nat, id: TaskId)
    requires Run(catalogs, tables, moves) && i <= j < |tables|
    requires id in tables[i].tasks && tables[i].tasks[id].status == Confirmed
    ensures id in tables[j].tasks && tables[j].tasks[id].status == Confirmed && tables[j].tasks[id].tag == tables[i].tasks[id].tag
  {
    RunForward(catalogs, tables, moves, i, j, id);
  }

  /** What is true of the tables after any run. */
  ghost predicate Sane(catalogs: Catalogs, t: Tables) {
    Posted(t) && (forall id :: id in t.tasks ==> SaneTask(catalogs, t.tasks[id])) && OneTaskPerImage(t.tasks)
  }

  /** An outbox row for every confirmed task, and for no other. */
  ghost predicate Posted(t: Tables) {
    forall id :: id in t.outbox <==> id in t.tasks && t.tasks[id].status == Confirmed
  }

  ghost predicate OneTaskPerImage(tasks: Tasks) {
    forall i, j :: i in tasks && j in tasks && SameImage(tasks[i], tasks[j]) ==> i == j
  }

  predicate SaneTask(catalogs: Catalogs, t: Task) {
    && (t.status == Running ==> t.token.Some? && t.lease.Some?)
    && (t.status == Suggested ==> t.project in catalogs && Presentable(catalogs[t.project], Suggested, t.result.classIds))
    && (t.status == Confirmed ==> t.project in catalogs && t.tag in catalogs[t.project])
  }

  /** The parts of a task that identify its image. */
  predicate SameImage(t: Task, u: Task) { u.project == t.project && u.sha == t.sha }

  lemma ImagesKept(a: Tasks, b: Tasks)
    requires OneTaskPerImage(a) && b.Keys == a.Keys && forall id :: id in a ==> SameImage(a[id], b[id])
    ensures OneTaskPerImage(b)
  {
    forall i, j | i in b && j in b && SameImage(b[i], b[j]) ensures i == j {
      assert SameImage(a[i], a[j]);
    }
  }

  /** Any move that keeps images, confirmations and sane tasks keeps sane tables. */
  lemma StillSane(catalogs: Catalogs, a: Tables, b: Tables)
    requires Sane(catalogs, a) && b.tasks.Keys == a.tasks.Keys && b.outbox.Keys == a.outbox.Keys
    requires forall id :: id in a.tasks ==>
      SameImage(a.tasks[id], b.tasks[id]) && SaneTask(catalogs, b.tasks[id])
      && (a.tasks[id].status == Confirmed <==> b.tasks[id].status == Confirmed)
    ensures Sane(catalogs, b)
  {
    ImagesKept(a.tasks, b.tasks);
    hide SaneTask, SameImage, OneTaskPerImage;
  }

  lemma AddIsSane(catalogs: Catalogs, a: Tables, uuid: TaskId, project: ProjectId, order: int, sha: string, b: Tables)
    requires Takes(catalogs, a, Adds(uuid, project, order, sha), b) && Sane(catalogs, a)
    ensures Sane(catalogs, b)
  {
    assert SaneTask(catalogs, NewTask(project, order, sha));
    assert forall id :: id in b.tasks <==> id in a.tasks || id == uuid;
    forall i, j | i in b.tasks && j in b.tasks && SameImage(b.tasks[i], b.tasks[j]) ensures i == j {
      assert i in a.tasks && j in a.tasks ==> SameImage(a.tasks[i], a.tasks[j]);
    }
    hide SaneTask, SameImage;
  }

  lemma ConfirmIsSane(catalogs: Catalogs, a: Tables, id: TaskId, tag: ClassId, actor: string, b: Tables)
    requires Takes(catalogs, a, Confirms(id, tag, actor), b) && Sane(catalogs, a)
    ensures Sane(catalogs, b)
  {
    hide Presentable;
    assert SaneTask(catalogs, b.tasks[id]);
    assert b.tasks.Keys == a.tasks.Keys;
    ImagesKept(a.tasks, b.tasks);
    hide SaneTask, OneTaskPerImage;
  }

  lemma QueueIsSane(catalogs: Catalogs, a: Tables, chosen: set<TaskId>, b: Tables)
    requires Takes(catalogs, a, Queues(chosen), b) && Sane(catalogs, a)
    ensures Sane(catalogs, b)
  {
    hide Presentable;
    assert b.tasks.Keys == a.tasks.Keys;
    StillSane(catalogs, a, b);
  }

  lemma QuarantineIsSane(catalogs: Catalogs, a: Tables, now: int)
    requires Sane(catalogs, a)
    ensures Sane(catalogs, a.(tasks := Quarantine(a.tasks, now)))
  {
    hide Presentable;
    assert Quarantine(a.tasks, now).Keys == a.tasks.Keys;
    StillSane(catalogs, a, a.(tasks := Quarantine(a.tasks, now)));
  }

  lemma LeaseIsSane(catalogs: Catalogs, a: Tables, id: TaskId, token: Token, now: int)
    requires Sane(catalogs, a) && id in a.tasks && a.tasks[id].status == Queued
    ensures Sane(catalogs, a.(tasks := a.tasks[id := Claimed(a.tasks[id], token, now)]))
  {
    var b := a.(tasks := a.tasks[id := Claimed(a.tasks[id], token, now)]);
    hide Presentable;
    assert b.tasks.Keys == a.tasks.Keys;
    StillSane(catalogs, a, b);
  }

  lemma ClaimIsSane(catalogs: Catalogs, a: Tables, now: int, token: Token, claimed: Option<TaskId>, b: Tables)
    requires Takes(catalogs, a, Claims(now, token, claimed), b) && Sane(catalogs, a)
    ensures Sane(catalogs, b)
  {
    QuarantineIsSane(catalogs, a, now);
    if claimed.Some? {
      var swept := a.(tasks := Quarantine(a.tasks, now));
      assert swept.tasks[claimed.value] == a.tasks[claimed.value];
      LeaseIsSane(catalogs, swept, claimed.value, token, now);
    }
    hide Sane;
  }

  lemma FinishIsSane(catalogs: Catalogs, a: Tables, id: TaskId, token: Token, status: Status, result: Result, message: string,
                     now: int, b: Tables)
    requires Takes(catalogs, a, Finishes(id, token, status, result, message, now), b) && Sane(catalogs, a)
    ensures Sane(catalogs, b)
  {
    assert SaneTask(catalogs, b.tasks[id]);
    assert b.tasks.Keys == a.tasks.Keys;
    hide Presentable;
    StillSane(catalogs, a, b);
  }

  lemma StepIsSane(catalogs: Catalogs, a: Tables, m: Move, b: Tables)
    requires Takes(catalogs, a, m, b) && Sane(catalogs, a)
    ensures Sane(catalogs, b)
  {
    hide Sane;
    match m
    case Adds(uuid, project, order, sha) => AddIsSane(catalogs, a, uuid, project, order, sha, b);
    case Queues(chosen) => QueueIsSane(catalogs, a, chosen, b);
    case Claims(now, token, claimed) => ClaimIsSane(catalogs, a, now, token, claimed, b);
    case Finishes(id, token, status, result, message, now) => FinishIsSane(catalogs, a, id, token, status, result, message, now, b);
    case Confirms(id, tag, actor) => ConfirmIsSane(catalogs, a, id, tag, actor, b);
    case Acks(id, indexed, now) => AckIsSane(catalogs, a, id, indexed, now, b);
  }

  lemma AckIsSane(catalogs: Catalogs, a: Tables, id: TaskId, indexed: bool, now: int, b: Tables)
    requires Takes(catalogs, a, Acks(id, indexed, now), b) && Sane(catalogs, a)
    ensures Sane(catalogs, b)
  {
    StillSane(catalogs, a, b);
  }

  /** What the memory has indexed stays indexed. */
  lemma DeliveryIsFinal(catalogs: Catalogs, a: Tables, m: Move, b: Tables, id: TaskId)
    requires Takes(catalogs, a, m, b) && id in a.outbox && a.outbox[id].delivered
    ensures id in b.outbox && b.outbox[id] == a.outbox[id]
  {
  }

  lemma {:induction false} RunIsSane(catalogs: Catalogs, tables: seq<Tables>, moves: seq<Move>, i: nat)
    requires Run(catalogs, tables, moves) && i < |tables|
    ensures Sane(catalogs, tables[i])
  {
    hide Takes;
    if i > 0 {
      RunIsSane(catalogs, tables, moves, i - 1);
      assert Takes(catalogs, tables[i - 1], moves[i - 1], tables[i - 1 + 1]);
      StepIsSane(catalogs, tables[i - 1], moves[i - 1], tables[i]);
    }
  }

  // ---- What the updates mean

  /** The worker that claimed a task, and nobody else, may report on it, for twenty minutes. */
  lemma LeaseMeans(t: Task, token: Token, other: Token, now: int, later: int)
    requires now <= later
    ensures Live(Claimed(t, token, now), other, later) <==> other == token && later < now + 1200
    ensures Claimed(t, token, now) == t.(status := Running, token := Some(token), lease := Claimed(t, token, now).lease)
  {
  }

  /** A task whose worker is silent past its lease is set aside as unknown, never queued again; all others stay. */
  lemma LapseMeans(tasks: Tasks, now: int, id: TaskId)
    requires id in tasks
    ensures var t, u := tasks[id], Quarantine(tasks, now)[id];
      if t.status == Running && t.lease.Some? && t.lease.value < now then u == t.(status := Unknown, error := u.error) else u == t
  {
  }

  /** Only a fresh task can be queued. */
  lemma QueueMeans(tasks: Tasks, chosen: set<TaskId>, id: TaskId)
    requires id in tasks
    ensures Requeue(tasks, chosen)[id] ==
      if id in chosen && tasks[id].status == Fresh then tasks[id].(status := Queued) else tasks[id]
  {
  }

  /** A suggestion names ten classes of the catalog, or all of a smaller one, each once; other reports at most ten. */
  lemma PresentableMeans(classes: seq<ClassId>, status: Status, ids: seq<ClassId>)
    requires (forall c :: c in ids ==> c in classes) && (forall i, j :: 0 <= i < j < |ids| ==> ids[i] != ids[j])
    ensures Presentable(classes, Suggested, ids) <==> |ids| == if |classes| < 10 then |classes| else 10
    ensures status == Failed || status == Unknown ==> (Presentable(classes, status, ids) <==> |ids| <= 10)
  {
  }

  /** A report ends the lease and is there to be recognized when it comes again; a different one is not. */
  lemma ReportMeans(t: Task, token: Token, status: Status, result: Result, message: string, now: int,
                    again: Status, other: Result, text: string)
    requires Live(t, token, now) && status != Running
    ensures var u := Finished(t, status, result, message);
      && u == t.(status := status, result := result, error := message, lease := None)
      && !Live(u, token, now)
      && (Reported(u, token, again, other, text) <==> again == status && other == result && text == message)
  {
  }

  /** A label is taken on a task no worker is involved with, and once. */
  lemma ConfirmableMeans(t: Task)
    ensures Confirmable(t) <==> t.status in {Fresh, Suggested, Failed, Unknown}
  {
  }

  /** A running task is ended by its own worker within its lease, or set aside once that is over. */
  lemma RunningEnds(catalogs: Catalogs, a: Tables, m: Move, b: Tables, id: TaskId)
    requires Takes(catalogs, a, m, b) && id in a.tasks && a.tasks[id].status == Running && b.tasks[id] != a.tasks[id]
    ensures (m.Finishes? && m.id == id && a.tasks[id].token == Some(m.token) && a.tasks[id].lease.Some? && m.now < a.tasks[id].lease.value
             && b.tasks[id].status == m.status && b.tasks[id].result == m.result)
         || (m.Claims? && a.tasks[id].lease.Some? && a.tasks[id].lease.value < m.now && b.tasks[id].status == Unknown)
  {
  }
}
