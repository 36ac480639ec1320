/** What the fused lists mean for a class: its votes by rank, and who comes before whom. */
module FusionLaws {
  import opened Sets
  import opened TopLists
  import opened Fusion
  import LabelFusion

  /** A class votes by the number of distinct classes down to its first row. */
  lemma VoteByRank(rows: seq<Row>, k: nat)
    requires k < |rows| && forall j :: 0 <= j < k ==> rows[j].tag != rows[k].tag
    ensures Vote(rows, rows[k].tag) == 1.0 / (60 + |set r | r in rows[..k + 1] :: r.tag|) as real
  {
    assert rows[k].tag !in Labels(rows[..k]);
    FirstSeen(rows, k);
    OneMoreLabel(rows, k);
    hide Before, FirstRow, Labels;
  }

  lemma OneMoreLabel(rows: seq<Row>, k: nat)
    requires k < |rows| && rows[k].tag !in Labels(rows[..k])
    ensures |set r | r in rows[..k + 1] :: r.tag| == |Labels(rows[..k])| + 1
  {
    assert rows[..k + 1] == rows[..k] + [rows[k]];
    assert (set r | r in rows[..k + 1] :: r.tag) == Labels(rows[..k]) + {rows[k].tag};
  }

  /** In a view, `l` comes before `m`, or `m` does not come at all. */
  predicate Precedes(rows: seq<Row>, l: Label, m: Label) {
    exists k :: 0 <= k < |rows| && rows[k].tag == l && forall j :: 0 <= j <= k ==> rows[j].tag != m
  }

  /** The earlier class of a view has the larger vote. */
  lemma EarlierVotesMore(rows: seq<Row>, l: Label, m: Label)
    requires Precedes(rows, l, m)
    ensures Vote(rows, l) > Vote(rows, m) >= 0.0
  {
    EarlierRanks(rows, l, m);
    hide Before, Labels, Precedes;
    Quotients(60 + Rank(rows, l), 60 + if m in Labels(rows) then Rank(rows, m) else Rank(rows, l));
  }

  lemma EarlierRanks(rows: seq<Row>, l: Label, m: Label)
    requires Precedes(rows, l, m)
    ensures l in Labels(rows) && (m in Labels(rows) ==> Rank(rows, l) < Rank(rows, m))
  {
    LabelIn(rows, l, m);
    if m in Labels(rows) {
      var i, j := FirstIndices(rows, l, m);
      FirstSeen(rows, i);
      FirstSeen(rows, j);
      MoreBefore(rows, i, j);
      hide Before, FirstRow, Labels, Precedes;
    }
  }

  lemma FirstIndices(rows: seq<Row>, l: Label, m: Label) returns (i: nat, j: nat)
    requires Precedes(rows, l, m) && l in Labels(rows) && m in Labels(rows)
    ensures i < j < |rows| && rows[i].tag == l && rows[j].tag == m
    ensures l !in Labels(rows[..i]) && m !in Labels(rows[..j])
  {
    var k :| 0 <= k < |rows| && rows[k].tag == l && forall n :: 0 <= n <= k ==> rows[n].tag != m;
    i := FirstIndex(rows, l);
    j := FirstIndex(rows, m);
    forall n | 0 <= n < i ensures rows[n].tag != l { assert rows[..i][n] in rows[..i]; }
  }

  lemma MoreBefore(rows: seq<Row>, i: nat, j: nat)
    requires i < j < |rows| && rows[i].tag !in Labels(rows[..i])
    ensures |Labels(rows[..i])| < |Labels(rows[..j])|
  {
    assert rows[i] in rows[..j] && forall r :: r in rows[..i] ==> r in rows[..j];
    assert Labels(rows[..i]) + {rows[i].tag} <= Labels(rows[..j]);
    Smaller(Labels(rows[..i]) + {rows[i].tag}, Labels(rows[..j]));
  }

  lemma Quotients(a: nat, b: nat)
    requires 0 < a <= b
    ensures 1.0 / a as real >= 1.0 / b as real > 0.0 && (a < b ==> 1.0 / a as real > 1.0 / b as real)
  {
    var x, y := 1.0 / a as real, 1.0 / b as real;
    assert x * a as real == 1.0 && y * b as real == 1.0;
    var more := y * (b - a) as real / a as real;
    assert x == y + more;
  }

  /** Ahead of the other in every view, ahead of it in the fused list. */
  lemma {:induction false} ScoresMore(views: seq<View>, l: Label, m: Label)
    requires views != [] && forall v :: v in views ==> Precedes(v.rows, l, m)
    ensures Score(views, l) > Score(views, m)
  {
    var n := |views| - 1;
    assert views == views[..n] + [views[n]];
    EarlierVotesMore(views[n].rows, l, m);
    if n > 0 {
      ScoresMore(views[..n], l, m);
    } else {
      assert views[..n] == [];
    }
  }

  lemma UnanimousComesFirst(views: seq<View>, limit: nat, out: seq<Label>, l: Label, m: Label)
    requires TopOf(AllLabels(views), Order(Fused(views)), limit, out)
    requires views != [] && (forall v :: v in views ==> Precedes(v.rows, l, m)) && m in out
    ensures exists i, j :: 0 <= i < j < |out| && out[i] == l && out[j] == m
  {
    ScoresMore(views, l, m);
    var n := |views| - 1;
    assert views[n] in views;
    LabelIn(views[n].rows, l, m);
    assert l in AllLabels(views) && m in AllLabels(views);
    assert Leads(Fused(views), l, m) && !Leads(Fused(views), m, l);
    hide AllLabels, Score, Leads, Fused, Precedes, Labels;
    AheadComesFirst(AllLabels(views), Order(Fused(views)), limit, out, l, m);
  }

  lemma AheadComesFirst(s: set<Label>, ahead: (Label, Label) -> bool, limit: nat, out: seq<Label>, l: Label, m: Label)
    requires TopOf(s, ahead, limit, out) && l in s && m in out && ahead(l, m) && !ahead(m, l)
    ensures exists i, j :: 0 <= i < j < |out| && out[i] == l && out[j] == m
  {
    var j :| 0 <= j < |out| && out[j] == m;
    assert l !in out ==> ahead(m, l);
    var i :| 0 <= i < |out| && out[i] == l;
    assert forall a, b :: 0 <= a < b < |out| ==> ahead(out[a], out[b]);
  }

  lemma LabelIn(rows: seq<Row>, l: Label, m: Label)
    requires Precedes(rows, l, m)
    ensures l in Labels(rows)
  {
    var k :| 0 <= k < |rows| && rows[k].tag == l && forall j :: 0 <= j <= k ==> rows[j].tag != m;
    assert rows[k] in rows;
  }

  /** The list descends by score, then by similarity, then by name; and what was cut off would come after it. */
  lemma ListDescends(views: seq<View>, limit: nat, out: seq<Label>, i: nat, m: Label)
    requires TopOf(AllLabels(views), Order(Fused(views)), limit, out) && i < |out|
    requires m in AllLabels(views) && (m !in out || (exists j :: i < j < |out| && out[j] == m))
    ensures out[i] in AllLabels(views)
    ensures var a, b := ItemOf(views, out[i]), ItemOf(views, m);
      || a.score > b.score
      || (a.score == b.score && a.best.similarity > b.best.similarity)
      || (a.score == b.score && a.best.similarity == b.best.similarity && out[i] < m)
  {
    assert out[i] in out;
    assert Order(Fused(views))(out[i], m);
    hide AllLabels, ItemOf;
  }

  /** The views recorded with a class are those it occurs in. */
  lemma {:induction false} NamesOfVoters(views: seq<View>, l: Label, name: string)
    ensures name in Names(views, l) <==> exists v :: v in views && v.name == name && exists r :: r in v.rows && r.tag == l
  {
    if views != [] {
      var n := |views| - 1;
      assert views == views[..n] + [views[n]];
      NamesOfVoters(views[..n], l, name);
      assert l in Labels(views[n].rows) <==> exists r :: r in views[n].rows && r.tag == l;
    }
  }

  // ---- Two branches

  /** Where a label first appears in a branch's answer. */
  predicate FirstAt(labels: seq<nat>, l: nat, k: nat) { k < |labels| && labels[k] == l && l !in labels[..k] }

  /** A branch ranks its labels by first appearance and keeps ten. */
  lemma BranchByFirstAppearance(labels: seq<nat>, i: nat, j: nat, a: nat, b: nat)
    requires var u := LabelFusion.Unique(labels); i < j < |u| && FirstAt(labels, u[i], a) && FirstAt(labels, u[j], b)
    ensures a < b
    ensures LabelFusion.Branch(labels) == LabelFusion.Unique(labels)[..if |LabelFusion.Unique(labels)| < 10 then |LabelFusion.Unique(labels)| else 10]
  {
    UniqueByFirst(labels, i, j, a, b);
  }

  lemma {:induction false} UniqueByFirst(labels: seq<nat>, i: nat, j: nat, a: nat, b: nat)
    requires var u := LabelFusion.Unique(labels); i < j < |u| && FirstAt(labels, u[i], a) && FirstAt(labels, u[j], b)
    ensures a < b
  {
    var n := |labels| - 1;
    var before := labels[..n];
    var u, w := LabelFusion.Unique(labels), LabelFusion.Unique(before);
    assert labels == before + [labels[n]];
    if j < |w| {
      assert w[i] in Sets.Members(before) && w[j] in Sets.Members(before);
      SameFirst(labels, u[i], a);
      SameFirst(labels, u[j], b);
      UniqueByFirst(before, i, j, a, b);
    } else {
      assert u[i] == w[i] && w[i] in Sets.Members(w);
      assert w[i] in before;
      SameFirst(labels, u[i], a);
      assert u[j] == labels[n] && labels[n] !in Sets.Members(w);
      assert forall k :: 0 <= k < n ==> labels[k] in before;
    }
  }

  lemma SameFirst(labels: seq<nat>, l: nat, k: nat)
    requires FirstAt(labels, l, k) && l in labels[..|labels| - 1]
    ensures k < |labels| - 1 && FirstAt(labels[..|labels| - 1], l, k)
  {
    var before := labels[..|labels| - 1];
    assert labels[..|before|] == before;
    assert k < |before| ==> before[..k] == labels[..k];
  }

  /** In a branch, `l` has the better place, or `m` has none. */
  predicate Better(branch: seq<nat>, l: nat, m: nat) {
    exists k :: 0 <= k < |branch| && branch[k] == l && m !in branch[..k + 1]
  }

  /** A label with the better place in both branches comes first, and among equals the image branch decides. */
  lemma BetterComesFirst(imageLabels: seq<nat>, textLabels: seq<nat>, i: nat, j: nat)
    requires var out := LabelFusion.FuseLabels(imageLabels, textLabels); i < |out| && j < |out|
    requires var image, text := LabelFusion.Branch(imageLabels), LabelFusion.Branch(textLabels);
      var out := LabelFusion.FuseLabels(imageLabels, textLabels);
      Better(image, out[i], out[j]) && Better(text, out[i], out[j])
    ensures i < j
  {
    var image, text := LabelFusion.Branch(imageLabels), LabelFusion.Branch(textLabels);
    var out := LabelFusion.FuseLabels(imageLabels, textLabels);
    LabelFusion.FusedLabelsAreOrdered(imageLabels, textLabels);
    BetterScores(image, out[i], out[j]);
    BetterScores(text, out[i], out[j]);
    assert !LabelFusion.Order(image, text)(out[j], out[i]);
    hide LabelFusion.FuseLabels, LabelFusion.Part, Better;
    if i == j { assert false; }
  }

  lemma BetterScores(branch: seq<nat>, l: nat, m: nat)
    requires Sets.Distinct(branch) && Better(branch, l, m)
    ensures LabelFusion.Part(branch, l) > LabelFusion.Part(branch, m)
  {
    var k :| 0 <= k < |branch| && branch[k] == l && m !in branch[..k + 1];
    var r := LabelFusion.Rank(branch, l);
    assert r - 1 == k;
    Quotients(60 + r, 60 + r);
    if m in branch {
      var q := LabelFusion.Rank(branch, m);
      assert forall n :: 0 <= n <= k ==> branch[n] in branch[..k + 1];
      Quotients(60 + r, 60 + q);
    }
  }

  /** The place of a label in a branch, and a place behind all others for one that is absent. */
  predicate PlacedAt(branch: seq<nat>, l: nat, place: nat) {
    if l in branch then 1 <= place <= |branch| && branch[place - 1] == l else place == 1_000_000_000
  }

  /** Labels of equal score are told apart by the image branch, then by the text branch, then by name. */
  lemma TiesAreBroken(imageLabels: seq<nat>, textLabels: seq<nat>, i: nat, j: nat, p: nat, q: nat, r: nat, t: nat)
    requires var out := LabelFusion.FuseLabels(imageLabels, textLabels); i < j < |out|
    requires var image, text := LabelFusion.Branch(imageLabels), LabelFusion.Branch(textLabels);
      var out := LabelFusion.FuseLabels(imageLabels, textLabels);
      && PlacedAt(image, out[i], p) && PlacedAt(image, out[j], q) && PlacedAt(text, out[i], r) && PlacedAt(text, out[j], t)
    ensures var image, text := LabelFusion.Branch(imageLabels), LabelFusion.Branch(textLabels);
      var l, m := LabelFusion.FuseLabels(imageLabels, textLabels)[i], LabelFusion.FuseLabels(imageLabels, textLabels)[j];
      LabelFusion.Score(image, text, l) > LabelFusion.Score(image, text, m)
      || (LabelFusion.Score(image, text, l) == LabelFusion.Score(image, text, m)
          && (p < q || (p == q && (r < t || (r == t && l < m)))))
  {
    var image, text := LabelFusion.Branch(imageLabels), LabelFusion.Branch(textLabels);
    var out := LabelFusion.FuseLabels(imageLabels, textLabels);
    LabelFusion.FusedLabelsAreOrdered(imageLabels, textLabels);
    assert LabelFusion.Order(image, text)(out[i], out[j]);
    hide LabelFusion.FuseLabels, LabelFusion.Score, LabelFusion.Branch;
    PlaceIsRank(image, out[i], p);
    PlaceIsRank(image, out[j], q);
    PlaceIsRank(text, out[i], r);
    PlaceIsRank(text, out[j], t);
  }

  lemma PlaceIsRank(branch: seq<nat>, l: nat, place: nat)
    requires Sets.Distinct(branch) && PlacedAt(branch, l, place)
    ensures LabelFusion.RankOr(branch, l) == place
  {
    if l in branch { assert branch[LabelFusion.Rank(branch, l) - 1] == l; }
  }
}
