/** From two model answers to the candidate list a task is finished with. */
module Prediction {
  import opened Options
  import opened AnnotationTasks
  import opened Sets

  /** An element of the answer's "class_ids" list. */
  datatype Item = Text(id: ClassId) | Other

  /** What `parse_json` finds: None for an answer that is not ok or holds no list. */
  type Answer = Option<seq<Item>>

  /** Where an item first mentions `c`. */
  function First(items: seq<Item>, c: ClassId): nat
    requires Text(c) in items
  {
    if items[0] == Text(c) then 0 else 1 + First(items[1..], c)
  }

  lemma {:induction false} FirstIsFirst(items: seq<Item>, c: ClassId, k: nat)
    requires k < |items| && items[k] == Text(c) && Text(c) !in items[..k]
    ensures First(items, c) == k
  {
    if k > 0 {
      assert items[0] in items[..k];
      assert items[1..][..k - 1] == items[..k][1..];
      FirstIsFirst(items[1..], c, k - 1);
    }
  }

  /** The usable ids of an answer, each once, in the order of their first mention. */
  ghost predicate Picks(answer: Answer, allowed: set<ClassId>, retained: seq<ClassId>, picked: seq<ClassId>) {
    && Distinct(picked)
    && (forall c :: c in picked <==> answer.Some? && Text(c) in answer.value && c in allowed && c !in retained)
    && (answer.Some? ==>
          forall i, j :: 0 <= i < j < |picked| ==> First(answer.value, picked[i]) < First(answer.value, picked[j]))
  }

  method Candidates(answer: Answer, allowed: set<ClassId>, retained: seq<ClassId>) returns (result: seq<ClassId>)
    ensures Picks(answer, allowed, retained, result)
  {
    result := [];
    if answer.None? { return; }
    var items := answer.value;
    var seen := set c | c in retained;
    for i := 0 to |items|
      invariant forall c :: c in seen <==> c in retained || c in result
      invariant Distinct(result)
      invariant forall c :: c in result <==> Text(c) in items[..i] && c in allowed && c !in retained
      invariant forall k :: 0 <= k < |result| ==> Text(result[k]) in items && First(items, result[k]) < i
      invariant forall j, k :: 0 <= j < k < |result| ==> First(items, result[j]) < First(items, result[k])
    {
      assert items[..i + 1] == items[..i] + [items[i]];
      var item := items[i];
      if item.Text? && item.id in allowed && item.id !in seen {
        FirstIsFirst(items, item.id, i);
        result := result + [item.id];
        seen := seen + {item.id};
      }
    }
    assert items[..|items|] == items;
  }

  datatype Predicted = Predicted(ok: bool, ids: seq<ClassId>)

  function Top(s: seq<ClassId>, n: nat): seq<ClassId> { if |s| <= n then s else s[..n] }

  /** What `predict` freezes: the first answer's picks, and the supplement's only when those fall short. */
  ghost predicate Assembled(classes: seq<ClassId>, first: Answer, extra: Answer, p: Predicted) {
    exists a, b :: AssembledFrom(classes, first, extra, p, a, b)
  }

  ghost predicate AssembledFrom(classes: seq<ClassId>, first: Answer, extra: Answer, p: Predicted, a: seq<ClassId>, b: seq<ClassId>) {
    && Picks(first, Members(classes), [], a) && Picks(extra, Members(classes), Top(a, 10), b)
    && p.ids == (if |Top(a, 10)| < Least(10, |classes|) then Top(Top(a, 10) + b, 10) else Top(a, 10))
    && (p.ok <==> |p.ids| == Least(10, |classes|))
  }

  /** The candidate part of `predict`. */
  method Assemble(classes: seq<ClassId>, first: Answer, extra: Answer) returns (p: Predicted)
    ensures Assembled(classes, first, extra, p)
  {
    var topK := Least(10, |classes|);
    var picked := Candidates(first, Members(classes), []);
    var ids := Top(picked, 10);
    var added := Candidates(extra, Members(classes), ids);
    if |ids| < topK { ids := Top(ids + added, 10); }
    p := Predicted(|ids| == topK, ids);
    assert AssembledFrom(classes, first, extra, p, picked, added);
  }

  /** For any two answers: distinct candidates of the catalog, ten at most, and "ok" exactly when none is missing. */
  lemma AssembledIsSound(classes: seq<ClassId>, first: Answer, extra: Answer, p: Predicted)
    requires Assembled(classes, first, extra, p)
    ensures Distinct(p.ids) && (forall c :: c in p.ids ==> c in classes) && |p.ids| <= Least(10, |classes|)
  {
    var a, b :| AssembledFrom(classes, first, extra, p, a, b);
    var top := Top(a, 10);
    assert forall c :: c in top ==> c in a;
    assert Distinct(top) && Distinct(b) && forall c :: c in b ==> c !in top;
    hide Picks;
    Joined(top, b);
    assert forall c :: c in p.ids ==> c in top + b;
    Bounded(p.ids, classes);
  }

  lemma Joined(a: seq<ClassId>, b: seq<ClassId>)
    requires Distinct(a) && Distinct(b) && forall c :: c in b ==> c !in a
    ensures Distinct(a + b)
  {
    forall i, j | 0 <= i < j < |a + b| ensures (a + b)[i] != (a + b)[j] {
      if i < |a| <= j { assert (a + b)[i] in a && (a + b)[j] in b; }
    }
  }

  /** A list of distinct classes is no longer than the catalog. */
  lemma Bounded(ids: seq<ClassId>, classes: seq<ClassId>)
    requires Distinct(ids) && (forall c :: c in ids ==> c in classes) && |ids| <= 10
    ensures |ids| <= Least(10, |classes|)
  {
    DistinctCount(ids);
    AtMost(classes);
    assert Members(ids) <= Members(classes);
    Smaller(Members(ids), Members(classes));
  }

  /** How the worker reports: a complete list is a suggestion; every exception comes without candidates. */
  datatype Ended = Predicts(p: Predicted) | CoolingDown | OutcomeUnknown | Blocked

  function Reports(e: Ended): (Status, seq<ClassId>) {
    match e
    case Predicts(p) => (if p.ok then Suggested else Failed, p.ids)
    case CoolingDown => (Failed, [])
    case OutcomeUnknown => (Unknown, [])
    case Blocked => (Failed, [])
  }

  /** Whatever the model said, the platform accepts the worker's report. */
  lemma ReportIsAccepted(classes: seq<ClassId>, first: Answer, extra: Answer, e: Ended)
    requires e.Predicts? ==> Assembled(classes, first, extra, e.p)
    ensures Presentable(classes, Reports(e).0, Reports(e).1)
  {
    if e.Predicts? { AssembledIsSound(classes, first, extra, e.p); }
  }

  /** Complete answers give a suggestion: ten usable ids, or the whole of a smaller catalog, leave nothing out. */
  lemma EnoughIsOk(classes: seq<ClassId>, first: Answer, extra: Answer, p: Predicted)
    requires Distinct(classes) && Assembled(classes, first, extra, p)
    requires first.Some? && extra.Some?
    requires forall c :: c in classes ==> Text(c) in first.value || Text(c) in extra.value
    ensures p.ok
  {
    var a, b :| AssembledFrom(classes, first, extra, p, a, b);
    AssembledIsSound(classes, first, extra, p);
    if |a| <= 10 {
      assert Top(a, 10) == a;
      assert Members(a + b) == Members(classes) by {
        forall c ensures c in Members(a + b) <==> c in Members(classes) {
          assert c in a + b <==> c in a || c in b;
        }
      }
      AtMost(a + b);
      DistinctCount(classes);
    }
  }

  /** A complete prediction, and nothing else, is reported as a suggestion, with its candidates. */
  lemma CompleteIsSuggested(classes: seq<ClassId>, first: Answer, extra: Answer, e: Ended)
    requires e.Predicts? ==> Assembled(classes, first, extra, e.p)
    ensures Reports(e).0 == Suggested <==> e.Predicts? && |e.p.ids| == Least(10, |classes|)
    ensures e.Predicts? ==> Reports(e).1 == e.p.ids
    ensures Reports(e).0 == Unknown <==> e == OutcomeUnknown
    ensures !e.Predicts? ==> Reports(e).1 == []
  {
  }

  /** Answers that name the whole catalog, or ten classes of it at once, end in a suggestion of ten, or of all there are. */
  lemma EnoughIsSuggested(classes: seq<ClassId>, first: Answer, extra: Answer, p: Predicted)
    requires Distinct(classes) && Assembled(classes, first, extra, p) && first.Some? && extra.Some?
    requires forall c :: c in classes ==> Text(c) in first.value || Text(c) in extra.value
    ensures Reports(Predicts(p)).0 == Suggested && |Reports(Predicts(p)).1| == if |classes| < 10 then |classes| else 10
  {
    EnoughIsOk(classes, first, extra, p);
  }

  /** The first answer's usable ids come first, in its own order; the supplement's only follow. */
  lemma FirstAnswerLeads(classes: seq<ClassId>, first: Answer, extra: Answer, p: Predicted, picked: seq<ClassId>)
    requires Assembled(classes, first, extra, p) && Picks(first, Members(classes), [], picked)
    ensures |picked| <= 10 ==> picked <= p.ids
    ensures |picked| > 10 ==> p.ids == picked[..10]
  {
    var a, b :| AssembledFrom(classes, first, extra, p, a, b);
    PicksAreUnique(first, Members(classes), [], a, picked);
  }

  /** An answer has one list of usable ids. */
  lemma PicksAreUnique(answer: Answer, allowed: set<ClassId>, retained: seq<ClassId>, a: seq<ClassId>, b: seq<ClassId>)
    requires Picks(answer, allowed, retained, a) && Picks(answer, allowed, retained, b)
    ensures a == b
  {
    if answer.None? {
      assert forall c :: c in a <==> c in b;
      assert Members(a) == {} && Members(b) == {};
      DistinctCount(a);
      DistinctCount(b);
    } else {
      SameOrder(answer.value, a, b);
    }
  }

  /** Two lists of the same ids, both in the order of first mention. */
  lemma {:induction false} SameOrder(items: seq<Item>, a: seq<ClassId>, b: seq<ClassId>)
    requires forall c :: c in a <==> c in b
    requires forall c :: c in a ==> Text(c) in items
    requires forall i, j :: 0 <= i < j < |a| ==> First(items, a[i]) < First(items, a[j])
    requires forall i, j :: 0 <= i < j < |b| ==> First(items, b[i]) < First(items, b[j])
    ensures a == b
  {
    if a == [] {
      assert forall k :: 0 <= k < |b| ==> b[k] in b;
    } else {
      assert a[0] in b;
      var k :| 0 <= k < |b| && b[k] == a[0];
      assert b[0] in a;
      var j :| 0 <= j < |a| && a[j] == b[0];
      assert a[0] == b[0];
      Rests(items, a, b);
      SameOrder(items, a[1..], b[1..]);
    }
  }

  lemma Rests(items: seq<Item>, a: seq<ClassId>, b: seq<ClassId>)
    requires a != [] && b != [] && a[0] == b[0] && (forall c :: c in a <==> c in b) && forall c :: c in a ==> Text(c) in items
    requires forall i, j :: 0 <= i < j < |a| ==> First(items, a[i]) < First(items, a[j])
    requires forall i, j :: 0 <= i < j < |b| ==> First(items, b[i]) < First(items, b[j])
    ensures forall c :: c in a[1..] <==> c in b[1..]
    ensures forall c :: c in a[1..] ==> Text(c) in items
  {
    forall c ensures c in a[1..] <==> c in b[1..] {
      if c in a[1..] {
        var k :| 1 <= k < |a| && a[k] == c;
        assert c in b && c != b[0];
      }
      if c in b[1..] {
        var k :| 1 <= k < |b| && b[k] == c;
        assert c in a && c != a[0];
      }
    }
  }
}
