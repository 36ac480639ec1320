/** Reciprocal-rank fusion of reference rankings. */
module Fusion {
  import opened Sets
  import opened TopLists

  /** Labels are numbered in alphabetical order. */
  type Label = nat

  datatype Row = Row(tag: Label, similarity: real, source: string)

  datatype View = View(name: string, rows: seq<Row>)

  datatype Item = Item(score: real, best: Row, views: seq<string>)

  // ---- One view

  function Labels(rows: seq<Row>): set<Label> { set r | r in rows :: r.tag }

  /** The first row of a class: the only one that counts. */
  function FirstRow(rows: seq<Row>, l: Label): Row
    requires l in Labels(rows)
  {
    if rows[0].tag == l then rows[0] else FirstRow(rows[1..], l)
  }

  /** How many classes come before `l` in the ranking. */
  function Before(rows: seq<Row>, l: Label): set<Label> {
    if rows == [] || rows[0].tag == l then {} else {rows[0].tag} + Before(rows[1..], l)
  }

  function Rank(rows: seq<Row>, l: Label): nat { |Before(rows, l)| + 1 }

  /** A class's vote in a view: by its rank among classes, whatever the number of its rows. */
  function Vote(rows: seq<Row>, l: Label): real {
    if l in Labels(rows) then 1.0 / (60 + Rank(rows, l)) as real else 0.0
  }

  // ---- All views

  function AllLabels(views: seq<View>): set<Label> {
    if views == [] then {} else AllLabels(views[..|views| - 1]) + Labels(views[|views| - 1].rows)
  }

  function Score(views: seq<View>, l: Label): real {
    if views == [] then 0.0 else Score(views[..|views| - 1], l) + Vote(views[|views| - 1].rows, l)
  }

  function Best(views: seq<View>, l: Label): Row
    requires l in AllLabels(views)
  {
    var n := |views| - 1;
    var rows := views[n].rows;
    if l !in Labels(rows) then Best(views[..n], l)
    else if l in AllLabels(views[..n]) && FirstRow(rows, l).similarity <= Best(views[..n], l).similarity then Best(views[..n], l)
    else FirstRow(rows, l)
  }

  function Names(views: seq<View>, l: Label): seq<string> {
    if views == [] then []
    else
      var n := |views| - 1;
      Names(views[..n], l) + if l in Labels(views[n].rows) then [views[n].name] else []
  }

  function ItemOf(views: seq<View>, l: Label): Item
    requires l in AllLabels(views)
  {
    Item(Score(views, l), Best(views, l), Names(views, l))
  }

  // ---- The dictionary loop

  type Classes = map<Label, Item>

  ghost predicate Gathered(views: seq<View>, classes: Classes) {
    classes.Keys == AllLabels(views) && forall l :: l in classes ==> classes[l] == ItemOf(views, l)
  }

  /** Halfway through a view: the classes seen so far have voted, the others have not. */
  ghost predicate Gathering(views: seq<View>, v: View, seen: set<Label>, classes: Classes) {
    && classes.Keys == AllLabels(views) + seen && seen <= Labels(v.rows)
    && forall l :: l in classes ==>
         if l in seen then classes[l] == ItemOf(views + [v], l) else l in AllLabels(views) && classes[l] == ItemOf(views, l)
  }

  /** What one voting row makes of the class's entry. */
  function Voted(classes: Classes, v: View, row: Row, rank: nat): Item {
    var item := if row.tag in classes then classes[row.tag] else Item(0.0, row, []);
    Item(item.score + 1.0 / (60 + rank) as real, if row.similarity > item.best.similarity then row else item.best,
         item.views + [v.name])
  }

  method Gather(views: seq<View>) returns (classes: Classes)
    ensures Gathered(views, classes)
  {
    hide Gathered;
    classes := map[];
    NothingGathered();
    for k := 0 to |views|
      invariant Gathered(views[..k], classes)
    {
      classes := GatherView(views[..k], views[k], classes);
      assert views[..k + 1] == views[..k] + [views[k]];
    }
    assert views[..|views|] == views;
  }

  /** The inner loop, over the rows of one view. */
  method GatherView(ghost views: seq<View>, v: View, before: Classes) returns (classes: Classes)
    requires Gathered(views, before)
    ensures Gathered(views + [v], classes)
  {
    hide Gathered, Gathering, Voted;
    var seen: set<Label> := {};
    classes := before;
    StartView(views, v, classes);
    for i := 0 to |v.rows|
      invariant seen == Labels(v.rows[..i])
      invariant Gathering(views, v, seen, classes)
    {
      assert v.rows[..i + 1] == v.rows[..i] + [v.rows[i]];
      var row := v.rows[i];
      if row.tag in seen { continue; }
      RowVotes(views, v, i, seen, classes);
      seen := seen + {row.tag};
      classes := classes[row.tag := Voted(classes, v, row, |seen|)];
    }
    assert v.rows[..|v.rows|] == v.rows;
    EndView(views, v, classes);
  }

  lemma NothingGathered()
    ensures Gathered([], map[])
  {
  }

  lemma StartView(views: seq<View>, v: View, classes: Classes)
    requires Gathered(views, classes)
    ensures Gathering(views, v, {}, classes)
  {
  }

  lemma EndView(views: seq<View>, v: View, classes: Classes)
    requires Gathering(views, v, Labels(v.rows), classes)
    ensures Gathered(views + [v], classes)
  {
    var all := views + [v];
    assert all[..|all| - 1] == views;
  }

  lemma {:induction false} FirstSeen(rows: seq<Row>, i: nat)
    requires i < |rows| && rows[i].tag !in Labels(rows[..i])
    ensures rows[i].tag in Labels(rows)
    ensures FirstRow(rows, rows[i].tag) == rows[i]
    ensures Before(rows, rows[i].tag) == Labels(rows[..i])
  {
    if i > 0 {
      assert rows[0] in rows[..i];
      assert rows[1..][..i - 1] == rows[..i][1..];
      assert rows[..i] == [rows[0]] + rows[1..][..i - 1];
      FirstSeen(rows[1..], i - 1);
    }
  }

  /** The first row of a class in a view turns the class's entry into what the view's votes make of it. */
  lemma VoteCounts(views: seq<View>, v: View, row: Row, rank: nat, classes: Classes)
    requires row.tag in Labels(v.rows) && FirstRow(v.rows, row.tag) == row && Rank(v.rows, row.tag) == rank
    requires row.tag in classes <==> row.tag in AllLabels(views)
    requires row.tag in classes ==> classes[row.tag] == ItemOf(views, row.tag)
    ensures row.tag in AllLabels(views + [v]) && Voted(classes, v, row, rank) == ItemOf(views + [v], row.tag)
  {
    var l, all := row.tag, views + [v];
    assert all[..|all| - 1] == views;
    hide FirstRow, Rank, Labels;
    if l !in classes { NoVotes(views, l); }
  }

  lemma AllLabelsMore(views: seq<View>, v: View)
    ensures AllLabels(views + [v]) == AllLabels(views) + Labels(v.rows)
  {
    assert (views + [v])[..|views + [v]| - 1] == views;
  }

  lemma Entered(views: seq<View>, v: View, seen: set<Label>, classes: Classes, l: Label, item: Item)
    requires Gathering(views, v, seen, classes) && l in Labels(v.rows) && l !in seen
    requires l in AllLabels(views + [v]) && item == ItemOf(views + [v], l)
    ensures Gathering(views, v, seen + {l}, classes[l := item])
  {
    AllLabelsMore(views, v);
    hide ItemOf, AllLabels, Labels;
    var next := classes[l := item];
    forall m | m in next
      ensures if m in seen + {l} then next[m] == ItemOf(views + [v], m) else m in AllLabels(views) && next[m] == ItemOf(views, m)
    {
      if m != l { assert m in classes; }
    }
  }

  lemma RowVotes(views: seq<View>, v: View, i: nat, seen: set<Label>, classes: Classes)
    requires i < |v.rows| && seen == Labels(v.rows[..i]) && v.rows[i].tag !in seen
    requires Gathering(views, v, seen, classes)
    ensures var l := v.rows[i].tag;
      Gathering(views, v, seen + {l}, classes[l := Voted(classes, v, v.rows[i], |seen + {l}|)])
  {
    var l := v.rows[i].tag;
    FirstSeen(v.rows, i);
    assert |seen + {l}| == |seen| + 1;
    hide ItemOf, Voted, FirstRow, Before, AllLabels, Labels;
    VoteCounts(views, v, v.rows[i], |seen + {l}|, classes);
    Entered(views, v, seen, classes, l, Voted(classes, v, v.rows[i], |seen + {l}|));
  }

  lemma {:induction false} NoVotes(views: seq<View>, l: Label)
    requires l !in AllLabels(views)
    ensures Score(views, l) == 0.0 && Names(views, l) == []
  {
    if views != [] { NoVotes(views[..|views| - 1], l); }
  }

  // ---- The fused list

  /** What the dictionary holds in the end. */
  ghost function Fused(views: seq<View>): Classes {
    map l | l in AllLabels(views) :: ItemOf(views, l)
  }

  /** The sort key: score, then similarity, both descending; then the label. */
  predicate Leads(classes: Classes, l: Label, m: Label) {
    && l in classes && m in classes
    && var a, b := classes[l], classes[m];
       a.score > b.score
       || (a.score == b.score && (a.best.similarity > b.best.similarity
                                  || (a.best.similarity == b.best.similarity && l < m)))
  }

  function Order(classes: Classes): (Label, Label) -> bool { (l: Label, m: Label) => Leads(classes, l, m) }

  lemma OrderIsTotal(classes: Classes)
    ensures Total(classes.Keys, Order(classes))
  {
  }

  method FuseReferences(views: seq<View>, limit: nat) returns (out: seq<Label>, classes: Classes)
    ensures classes == Fused(views)
    ensures TopOf(AllLabels(views), Order(Fused(views)), limit, out)
  {
    classes := Gather(views);
    assert classes == Fused(views);
    var labels := Listed(classes.Keys);
    OrderIsTotal(classes);
    SortedTop(labels, Order(classes), limit);
    out := Sorted(labels, Order(classes))[..Min(limit, |labels|)];
  }

  method Listed(s: set<Label>) returns (list: seq<Label>)
    ensures Distinct(list) && Members(list) == s
  {
    list := [];
    var todo := s;
    while todo != {}
      invariant Distinct(list) && Members(list) !! todo && Members(list) + todo == s
      decreases todo
    {
      var l :| l in todo;
      assert l !in Members(list);
      assert Members(list + [l]) == Members(list) + {l};
      list, todo := list + [l], todo - {l};
    }
  }

  // ---- Repeated rows

  /** Two lists of rows that rank the same classes alike, by the same first rows. */
  ghost predicate SameRanking(a: seq<Row>, b: seq<Row>) {
    && Labels(a) == Labels(b)
    && forall l :: l in Labels(a) ==> FirstRow(a, l) == FirstRow(b, l) && Before(a, l) == Before(b, l)
  }

  lemma {:induction false} FirstIndex(rows: seq<Row>, l: Label) returns (k: nat)
    requires l in Labels(rows)
    ensures k < |rows| && rows[k].tag == l && l !in Labels(rows[..k])
  {
    if rows[0].tag == l {
      k := 0;
    } else {
      assert rows == [rows[0]] + rows[1..];
      k := FirstIndex(rows[1..], l);
      k := k + 1;
      assert rows[..k] == [rows[0]] + rows[1..][..k - 1];
    }
  }

  /** A later row of a class can be left out. */
  lemma RepeatIsIgnored(rows: seq<Row>, i: nat)
    requires i < |rows| && rows[i].tag in Labels(rows[..i])
    ensures SameRanking(rows, rows[..i] + rows[i + 1..])
  {
    var less := rows[..i] + rows[i + 1..];
    SameLabels(rows, i);
    forall l | l in Labels(rows) ensures FirstRow(rows, l) == FirstRow(less, l) && Before(rows, l) == Before(less, l) {
      RepeatIgnoredFor(rows, i, l);
    }
  }

  lemma RepeatIgnoredFor(rows: seq<Row>, i: nat, l: Label)
    requires i < |rows| && rows[i].tag in Labels(rows[..i]) && l in Labels(rows)
    requires Labels(rows) == Labels(rows[..i] + rows[i + 1..])
    ensures FirstRow(rows, l) == FirstRow(rows[..i] + rows[i + 1..], l)
    ensures Before(rows, l) == Before(rows[..i] + rows[i + 1..], l)
  {
    var less := rows[..i] + rows[i + 1..];
    var k := FirstIndex(rows, l);
    hide FirstRow, Before;
    if k < i { FirstComesBefore(rows, i, k); } else { FirstComesAfter(rows, i, k); }
  }

  lemma FirstComesBefore(rows: seq<Row>, i: nat, k: nat)
    requires k < i < |rows| && rows[k].tag !in Labels(rows[..k])
    ensures var less, l := rows[..i] + rows[i + 1..], rows[k].tag;
      l in Labels(rows) && l in Labels(less) && FirstRow(rows, l) == FirstRow(less, l) && Before(rows, l) == Before(less, l)
  {
    var less := rows[..i] + rows[i + 1..];
    assert less[..k] == rows[..k] && less[k] == rows[k];
    hide FirstRow, Before, Labels;
    FirstSeen(rows, k);
    FirstSeen(less, k);
  }

  lemma FirstComesAfter(rows: seq<Row>, i: nat, k: nat)
    requires i < k < |rows| && rows[k].tag !in Labels(rows[..k]) && rows[i].tag in Labels(rows[..i])
    ensures var less, l := rows[..i] + rows[i + 1..], rows[k].tag;
      l in Labels(rows) && l in Labels(less) && FirstRow(rows, l) == FirstRow(less, l) && Before(rows, l) == Before(less, l)
  {
    var less := rows[..i] + rows[i + 1..];
    assert rows[..k][..i] == rows[..i];
    assert less[..k - 1] == rows[..k][..i] + rows[..k][i + 1..] && less[k - 1] == rows[k];
    SameLabels(rows[..k], i);
    hide FirstRow, Before, Labels;
    FirstSeen(rows, k);
    FirstSeen(less, k - 1);
  }

  lemma SameLabels(rows: seq<Row>, i: nat)
    requires i < |rows| && rows[i].tag in Labels(rows[..i])
    ensures Labels(rows) == Labels(rows[..i] + rows[i + 1..])
  {
    var less := rows[..i] + rows[i + 1..];
    assert rows == rows[..i] + [rows[i]] + rows[i + 1..];
    assert forall r :: r in rows <==> r in rows[..i] || r == rows[i] || r in rows[i + 1..];
    assert forall r :: r in less <==> r in rows[..i] || r in rows[i + 1..];
  }

  ghost predicate SameViews(a: seq<View>, b: seq<View>) {
    && |a| == |b|
    && forall k :: 0 <= k < |a| ==> a[k].name == b[k].name && SameRanking(a[k].rows, b[k].rows)
  }

  /** Neighbours of one class cannot multiply its vote: only the ranking of classes in each view matters. */
  lemma {:induction false} RepeatsDoNotVote(a: seq<View>, b: seq<View>)
    requires SameViews(a, b)
    ensures AllLabels(a) == AllLabels(b)
    ensures forall l :: l in AllLabels(a) ==> ItemOf(a, l) == ItemOf(b, l)
    ensures Fused(a) == Fused(b)
  {
    if a != [] {
      var n := |a| - 1;
      RepeatsDoNotVote(a[..n], b[..n]);
      assert SameRanking(a[n].rows, b[n].rows);
      forall l | l in AllLabels(a) ensures ItemOf(a, l) == ItemOf(b, l) {
        if l in AllLabels(a[..n]) { assert ItemOf(a[..n], l) == ItemOf(b[..n], l); } else { NoVotes(a[..n], l); NoVotes(b[..n], l); }
      }
    }
  }

  // ---- The order of the views

  lemma {:induction false} ScoreOfSplit(a: seq<View>, b: seq<View>, l: Label)
    ensures Score(a + b, l) == Score(a, l) + Score(b, l)
  {
    if b == [] {
      assert a + b == a;
    } else {
      var n := |b| - 1;
      assert (a + b)[..|a + b| - 1] == a + b[..n];
      ScoreOfSplit(a, b[..n], l);
    }
  }

  /** A view can be taken out of the list, with its vote. */
  lemma TakenOut(b: seq<View>, j: nat, l: Label)
    requires j < |b|
    ensures multiset(b[..j] + b[j + 1..]) == multiset(b) - multiset{b[j]}
    ensures Score(b, l) == Score(b[..j] + b[j + 1..], l) + Vote(b[j].rows, l)
  {
    var p, q := b[..j], b[j + 1..];
    assert b == p + [b[j]] + q;
    ScoreOfSplit(p, q, l);
    ScoreOfSplit(p + [b[j]], q, l);
    ScoreOfSplit(p, [b[j]], l);
    assert [b[j]][..0] == [];
  }

  lemma {:induction false} ScoreIgnoresOrder(a: seq<View>, b: seq<View>, l: Label)
    requires multiset(a) == multiset(b)
    ensures Score(a, l) == Score(b, l)
  {
    if a == [] {
      assert |b| == |multiset(b)| == 0;
    } else {
      var n := |a| - 1;
      assert a[n] in multiset(a);
      var j :| 0 <= j < |b| && b[j] == a[n];
      TakenOut(a, n, l);
      TakenOut(b, j, l);
      assert a[..n] + a[n + 1..] == a[..n];
      ScoreIgnoresOrder(a[..n], b[..j] + b[j + 1..], l);
    }
  }

  lemma {:induction false} LabelsOfAll(views: seq<View>, l: Label)
    ensures l in AllLabels(views) <==> exists v :: v in views && l in Labels(v.rows)
  {
    if views != [] {
      var n := |views| - 1;
      LabelsOfAll(views[..n], l);
      assert views == views[..n] + [views[n]];
    }
  }

  /** The kept row is a first row of some view, and none is more similar. */
  lemma {:induction false} BestIsBest(views: seq<View>, l: Label)
    requires l in AllLabels(views)
    ensures exists v :: v in views && l in Labels(v.rows) && FirstRow(v.rows, l) == Best(views, l)
    ensures forall v :: v in views && l in Labels(v.rows) ==> FirstRow(v.rows, l).similarity <= Best(views, l).similarity
  {
    var n := |views| - 1;
    assert views == views[..n] + [views[n]];
    if l in AllLabels(views[..n]) {
      BestIsBest(views[..n], l);
      var v :| v in views[..n] && l in Labels(v.rows) && FirstRow(v.rows, l) == Best(views[..n], l);
      assert v in views && views[n] in views;
    } else {
      LabelsOfAll(views[..n], l);
      assert views[n] in views;
    }
  }

  /** The same views in another order give the same labels, in the same places, with the same scores. */
  lemma ViewOrderIsIrrelevant(a: seq<View>, b: seq<View>, limit: nat, out: seq<Label>, out': seq<Label>)
    requires multiset(a) == multiset(b)
    requires TopOf(AllLabels(a), Order(Fused(a)), limit, out) && TopOf(AllLabels(b), Order(Fused(b)), limit, out')
    ensures out == out'
    ensures forall l :: l in out ==> Fused(a)[l].score == Fused(b)[l].score && Fused(a)[l].best.similarity == Fused(b)[l].best.similarity
  {
    SameKeys(a, b);
    assert AllLabels(a) == Fused(a).Keys && AllLabels(b) == Fused(b).Keys;
    OrderIsTotal(Fused(a));
    SameTop(Fused(a), Fused(b), limit, out');
    TopIsUnique(AllLabels(a), Order(Fused(a)), limit, out, out');
  }

  lemma SameKeys(a: seq<View>, b: seq<View>)
    requires multiset(a) == multiset(b)
    ensures AllLabels(a) == AllLabels(b)
    ensures forall l :: l in AllLabels(a) ==> Score(a, l) == Score(b, l) && Best(a, l).similarity == Best(b, l).similarity
  {
    assert forall v :: v in a <==> v in multiset(a);
    assert forall v :: v in b <==> v in multiset(b);
    forall l ensures l in AllLabels(a) <==> l in AllLabels(b) {
      LabelsOfAll(a, l);
      LabelsOfAll(b, l);
    }
    forall l | l in AllLabels(a) ensures Score(a, l) == Score(b, l) && Best(a, l).similarity == Best(b, l).similarity {
      ScoreIgnoresOrder(a, b, l);
      BestIsBest(a, l);
      BestIsBest(b, l);
    }
  }

  lemma SameTop(p: Classes, q: Classes, limit: nat, out: seq<Label>)
    requires p.Keys == q.Keys && TopOf(q.Keys, Order(q), limit, out)
    requires forall l :: l in p ==> p[l].score == q[l].score && p[l].best.similarity == q[l].best.similarity
    ensures TopOf(p.Keys, Order(p), limit, out)
  {
    assert forall l, m :: Leads(p, l, m) <==> Leads(q, l, m);
  }
}
