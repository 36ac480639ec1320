/** The platform's operation table and the bridge that runs write tools behind it. */
module OperationStore {
  import opened Options
  import opened AgentTypes
  import opened OperationLedger

  type Key = (Owner, OpId)

  type Http = n: nat | IsHttp(n) witness 200

  /** What the surroundings decide in one invocation: whether the store is `down` for the registration, and whether it
      `landed` all the same; what the action answers; whether the platform is `stopped` before it could record that; and
      whether a business result is `visible` to a recovery. */
  datatype Chance = Chance(down: bool, landed: bool, status: Http, response: nat, stopped: bool, visible: bool)

  class MemoryStore {
    var rows: map<Key, Operation>

    function Entry(key: Key): Option<Operation> reads this {
      if key in rows then Some(rows[key]) else None
    }

    constructor ()
      ensures rows == map[]
    { rows := map[]; }

    method BeginOperation(actor: Owner, id: OpId, order: Order) returns (answer: BeginResult)
      modifies this
      ensures answer == Begin(old(Entry((actor, id))), order)
      ensures (actor, id) !in old(rows) ==> answer == Fresh(Operation(order, Pending, 0, 0))
      ensures (actor, id) in old(rows) ==>
        var o := old(rows)[(actor, id)]; answer == if o.order == order then Known(o) else Conflict
      ensures rows == if answer.Fresh? then old(rows)[(actor, id) := answer.op] else old(rows)
    {
      var key := (actor, id);
      if key in rows {
        var prior := rows[key];
        if prior.order != order {
          return Conflict;
        }
        return Known(prior);
      }
      var op := Operation(order, Pending, 0, 0);
      rows := rows[key := op];
      answer := Fresh(op);
    }

    method FinishOperation(actor: Owner, id: OpId, http: nat, response: nat) returns (fault: Option<Fault>)
      modifies this
      ensures fault.None? <==> Finish(old(Entry((actor, id))), http, response).Ok?
      ensures rows == match Finish(old(Entry((actor, id))), http, response)
                      case Ok(o) => old(rows)[(actor, id) := o]
                      case Err(_) => old(rows)
      ensures fault.None? <==> (actor, id) in old(rows) && (old(rows)[(actor, id)].phase == Pending || old(rows)[(actor, id)].http >= 500)
      ensures fault.None? ==> rows == old(rows)[(actor, id) := Operation(old(rows)[(actor, id)].order, Completed, http, response)]
    {
      var key := (actor, id);
      if key !in rows {
        return Some(Fault(404));
      }
      var op := rows[key];
      if op.phase != Pending && !(op.phase == Completed && op.http >= 500) {
        return Some(Fault(409));
      }
      rows := rows[key := op.(phase := Completed, http := http, response := response)];
      fault := None;
    }

    method GetOperation(actor: Owner, id: OpId) returns (found: Option<Operation>, outcome: Outcome)
      ensures found == Entry((actor, id))
      ensures outcome == if found.Some? then OutcomeOf(found.value.http) else OutcomePending
      ensures outcome == OutcomeSucceeded || outcome == OutcomeRejected <==> found.Some? && 0 < found.value.http < 500
      ensures outcome == OutcomeRejected ==> found.value.http >= 400
      ensures outcome == OutcomeSucceeded ==> found.value.http < 400
      ensures outcome == OutcomeUnknown <==> found.Some? && found.value.http >= 500
    {
      if (actor, id) !in rows {
        return None, OutcomePending;
      }
      var op := rows[(actor, id)];
      return Some(op), OutcomeOf(op.http);
    }
  }

  /** The write bridge. `executions` holds the business results, tagged with
      the operation that produced them: one entry each time an action really ran. */
  class Bridge {
    const store: MemoryStore
    var executions: multiset<Key>

    ghost predicate Valid() reads this, store {
      && (forall k :: executions[k] <= 1)
      && (forall k :: k in executions ==> k in store.rows)
      && (forall k :: k in store.rows && store.rows[k].phase.Completed? ==> k in executions)
    }

    constructor ()
      ensures Valid() && fresh(store) && executions == multiset{} && store.rows == map[]
    {
      store := new MemoryStore();
      executions := multiset{};
    }

    /** What a call may do to the table and to the world: nothing that was final changes, nothing runs twice. */
    twostate predicate Steady() reads this, store {
      && (forall k :: k in old(store.rows) ==> k in store.rows && store.rows[k].order == old(store.rows)[k].order)
      && (forall k :: k in old(store.rows) && Definite(old(store.rows)[k]) ==> store.rows[k] == old(store.rows)[k])
      && (forall k :: k in old(executions) ==> k in executions)
    }

    /** One invocation of a write tool, answered in one of six ways: without approval, with the store down, by a conflict,
        by a final record, by a record that is not final, or by running the action. `approved` is the verdict on the
        signed approval. */
    method Invoke(actor: Owner, id: OpId, order: Order, approved: bool, c: Chance) returns (http: nat, unclear: bool)
      requires Valid()
      modifies this, store
      ensures Valid() && Steady()
      ensures !approved ==> http == 403 && store.rows == old(store.rows) && executions == old(executions)
      ensures approved && c.down ==> http == 503 && executions == old(executions)
      ensures approved && c.down ==>
        store.rows == if c.landed && (actor, id) !in old(store.rows) then old(store.rows)[(actor, id) := Operation(order, Pending, 0, 0)]
                      else old(store.rows)
      ensures approved && !c.down && (actor, id) !in old(store.rows) ==>
        && executions == old(executions) + multiset{(actor, id)}
        && http == (if c.stopped then 503 else c.status) && unclear == (c.stopped || c.status >= 500)
        && store.rows == old(store.rows)[(actor, id) :=
             if c.stopped then Operation(order, Pending, 0, 0) else Operation(order, Completed, c.status, c.response)]
      ensures approved && !c.down && (actor, id) in old(store.rows) ==> executions == old(executions)
      ensures approved && !c.down && (actor, id) in old(store.rows) ==>
        var o := old(store.rows)[(actor, id)];
        if o.order != order then http == 409 && !unclear && store.rows == old(store.rows)
        else if o.phase == Completed && o.http < 500 then http == o.http && !unclear && store.rows == old(store.rows)
        else if c.visible && (actor, id) in executions then
          && http == (if order.kind == SubmitPlan then 202 else 200) && !unclear
          && store.rows == old(store.rows)[(actor, id) := Operation(order, Completed, http, c.response)]
        else http == (if o.phase == Completed then o.http else 409) && unclear && store.rows == old(store.rows)
    {
      if !approved {
        return 403, false;
      }
      if c.down {
        if c.landed { var _ := store.BeginOperation(actor, id, order); }
        return 503, false;
      }
      var begun := store.BeginOperation(actor, id, order);
      match begun {
        case Conflict =>
          return 409, false;
        case Known(op) =>
          http, unclear := Replay(actor, id, op, c);
        case Fresh(_) =>
          http, unclear := Perform(actor, id, c);
      }
    }

    /** A known operation: its final answer, or one that can be recovered. */
    method Replay(actor: Owner, id: OpId, op: Operation, c: Chance) returns (http: nat, unclear: bool)
      requires Valid() && (actor, id) in store.rows && store.rows[(actor, id)] == op
      modifies store
      ensures Valid() && Steady() && executions == old(executions)
      ensures if op.phase == Completed && op.http < 500 then http == op.http && !unclear && store.rows == old(store.rows)
              else if c.visible && (actor, id) in executions then
                && http == RecoveredHttp(op.order) && !unclear
                && store.rows == old(store.rows)[(actor, id) := Operation(op.order, Completed, http, c.response)]
              else http == (if op.phase == Completed then op.http else 409) && unclear && store.rows == old(store.rows)
    {
      if op.phase == Completed && op.http < 500 {
        return op.http, false;
      }
      var recovered, status := Recover(actor, id, c);
      if recovered {
        return status, false;
      }
      if op.phase == Completed {
        return op.http, true;
      }
      return 409, true;
    }

    /** A fresh operation: run the action, then record its answer. */
    method Perform(actor: Owner, id: OpId, c: Chance) returns (http: nat, unclear: bool)
      requires Valid() && (actor, id) in store.rows && store.rows[(actor, id)].phase == Pending && (actor, id) !in executions
      modifies this, store
      ensures Valid() && Steady()
      ensures executions == old(executions) + multiset{(actor, id)}
      ensures http == (if c.stopped then 503 else c.status) && unclear == (c.stopped || c.status >= 500)
      ensures store.rows == if c.stopped then old(store.rows)
        else old(store.rows)[(actor, id) := Operation(old(store.rows)[(actor, id)].order, Completed, c.status, c.response)]
    {
      var status, response := RunTool(actor, id, c);
      if c.stopped { return 503, true; }
      var fault := store.FinishOperation(actor, id, status, response);
      if fault.Some? { assert false; }
      return status, status >= 500;
    }

    /** The action itself. */
    method RunTool(actor: Owner, id: OpId, c: Chance) returns (http: nat, response: nat)
      requires Valid() && (actor, id) in store.rows && (actor, id) !in executions
      modifies this
      ensures Valid() && http == c.status && response == c.response
      ensures executions == old(executions) + multiset{(actor, id)}
    {
      executions := executions + multiset{(actor, id)};
      http, response := c.status, c.response;
    }

    /** Look up an existing business result; never run the action again. */
    method Recover(actor: Owner, id: OpId, c: Chance) returns (recovered: bool, http: nat)
      requires Valid() && (actor, id) in store.rows && !Definite(store.rows[(actor, id)])
      modifies store
      ensures Valid() && Steady() && executions == old(executions)
      ensures recovered <==> c.visible && (actor, id) in executions
      ensures http == if old(store.rows)[(actor, id)].order.kind == SubmitPlan then 202 else 200
      ensures store.rows == if !recovered then old(store.rows)
        else old(store.rows)[(actor, id) := Operation(old(store.rows)[(actor, id)].order, Completed, http, c.response)]
    {
      var key := (actor, id);
      http := RecoveredHttp(store.rows[key].order);
      recovered := false;
      if c.visible && key in executions {
        var fault := store.FinishOperation(actor, id, http, c.response);
        recovered := fault.None?;
      }
    }
  }
}
