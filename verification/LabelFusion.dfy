/** Equal reciprocal-rank fusion of the image and the text branch's labels. */
module LabelFusion {
  import opened Sets
  import opened TopLists

  /** Labels are numbered in alphabetical order. */
  type Label = nat

  const BRANCH_TOP := 10
  const ABSENT := 1_000_000_000

  /** `dict.fromkeys`: each label where it first appears. */
  function Unique(labels: seq<Label>): (u: seq<Label>)
    ensures Distinct(u) && Members(u) == Members(labels) && |u| <= |labels|
  {
    if labels == [] then []
    else
      var n := |labels| - 1;
      var u := Unique(labels[..n]);
      assert labels == labels[..n] + [labels[n]];
      assert Members(labels) == Members(labels[..n]) + {labels[n]};
      if labels[n] in u then
        assert labels[n] in Members(u);
        u
      else
        assert Members(u + [labels[n]]) == Members(u) + {labels[n]};
        u + [labels[n]]
  }

  function Branch(labels: seq<Label>): (b: seq<Label>)
    ensures Distinct(b) && |b| <= BRANCH_TOP
  {
    var u := Unique(labels);
    if |u| <= BRANCH_TOP then u else u[..BRANCH_TOP]
  }

  /** The 1-based rank of a label of the branch. */
  function Rank(branch: seq<Label>, l: Label): (r: nat)
    requires l in branch
    ensures 1 <= r <= |branch| && branch[r - 1] == l
  {
    if branch[0] == l then 1
    else
      assert l in branch[1..];
      1 + Rank(branch[1..], l)
  }

  function Part(branch: seq<Label>, l: Label): real {
    if l in branch then 1.0 / (60 + Rank(branch, l)) as real else 0.0
  }

  function Score(image: seq<Label>, text: seq<Label>, l: Label): real { Part(image, l) + Part(text, l) }

  function RankOr(branch: seq<Label>, l: Label): nat { if l in branch then Rank(branch, l) else ABSENT }

  predicate Leads(image: seq<Label>, text: seq<Label>, l: Label, m: Label) {
    var s, t := Score(image, text, l), Score(image, text, m);
    s > t
    || (s == t && (RankOr(image, l) < RankOr(image, m)
                   || (RankOr(image, l) == RankOr(image, m)
                       && (RankOr(text, l) < RankOr(text, m) || (RankOr(text, l) == RankOr(text, m) && l < m)))))
  }

  function Order(image: seq<Label>, text: seq<Label>): (Label, Label) -> bool {
    (l: Label, m: Label) => Leads(image, text, l, m)
  }

  lemma OrderIsTotal(image: seq<Label>, text: seq<Label>, s: set<Label>)
    ensures Total(s, Order(image, text))
  {
    hide Score, RankOr;
  }

  /** The labels of either branch, each once. */
  function Both(image: seq<Label>, text: seq<Label>): seq<Label> { Unique(image + text) }

  function FuseLabels(imageLabels: seq<Label>, textLabels: seq<Label>): seq<Label> {
    var image, text := Branch(imageLabels), Branch(textLabels);
    Sorted(Both(image, text), Order(image, text))
  }

  /** All labels of the two branches, in order of the key; twenty at most. */
  lemma FusedLabelsAreOrdered(imageLabels: seq<Label>, textLabels: seq<Label>)
    ensures var image, text := Branch(imageLabels), Branch(textLabels);
      var out := FuseLabels(imageLabels, textLabels);
      && Members(out) == Members(image) + Members(text)
      && InOrder(out, Order(image, text)) && Distinct(out) && |out| <= 2 * BRANCH_TOP
  {
    var image, text := Branch(imageLabels), Branch(textLabels);
    var all, out := Both(image, text), FuseLabels(imageLabels, textLabels);
    assert Members(image + text) == Members(image) + Members(text);
    OrderIsTotal(image, text, Members(all));
    SortedInOrder(all, Members(all), Order(image, text));
    assert Members(out) == Members(all);
    OrderedCount(out, Members(all), Order(image, text));
  }

  lemma UniqueOfDistinct(labels: seq<Label>)
    requires Distinct(labels)
    ensures Unique(labels) == labels
  {
    if labels != [] {
      var n := |labels| - 1;
      UniqueOfDistinct(labels[..n]);
      assert labels == labels[..n] + [labels[n]];
    }
  }

  /** Repeating a label in a branch changes nothing. */
  lemma RepeatsDoNotCount(imageLabels: seq<Label>, textLabels: seq<Label>)
    ensures FuseLabels(Unique(imageLabels), Unique(textLabels)) == FuseLabels(imageLabels, textLabels)
  {
    UniqueOfDistinct(Unique(imageLabels));
    UniqueOfDistinct(Unique(textLabels));
  }

  lemma PartBounds(branch: seq<Label>, l: Label)
    requires |branch| <= BRANCH_TOP
    ensures l in branch ==> 1.0 / 70.0 <= Part(branch, l) <= 1.0 / 61.0
    ensures l !in branch ==> Part(branch, l) == 0.0
  {
    if l in branch { Reciprocal(60 + Rank(branch, l)); }
  }

  lemma Reciprocal(d: nat)
    requires 61 <= d <= 70
    ensures 1.0 / 70.0 <= 1.0 / d as real <= 1.0 / 61.0
  {
    var r := 1.0 / d as real;
    assert r * d as real == 1.0;
  }

  /** A label both branches found comes before every label only one of them found, whatever their ranks. */
  lemma AgreementComesFirst(imageLabels: seq<Label>, textLabels: seq<Label>, i: nat, j: nat)
    requires var out := FuseLabels(imageLabels, textLabels); i < |out| && j < |out|
    requires var image, text := Branch(imageLabels), Branch(textLabels);
      var out := FuseLabels(imageLabels, textLabels);
      out[i] in image && out[i] in text && !(out[j] in image && out[j] in text)
    ensures i < j
  {
    var image, text := Branch(imageLabels), Branch(textLabels);
    var out := FuseLabels(imageLabels, textLabels);
    FusedLabelsAreOrdered(imageLabels, textLabels);
    PartBounds(image, out[i]);
    PartBounds(text, out[i]);
    PartBounds(image, out[j]);
    PartBounds(text, out[j]);
    hide Part, RankOr;
    assert Score(image, text, out[i]) > Score(image, text, out[j]);
    assert !Order(image, text)(out[j], out[i]);
  }
}
