/** What a split plan does to the images a labelled build adds, in plain counts. */
module LabeledLaws {
  import opened Datasets
  import opened Splits
  import opened SeenImages
  import opened LabeledBuild
  import opened LabeledArchive
  import opened Sets

  /** The places of an archive that hold images of a label in a split. */
  function Places(entries: seq<Entry>, split: string, tag: string): set<nat> {
    set k: nat | k < |entries| && entries[k].sample.split == split && entries[k].sample.tag == tag
  }

  lemma {:induction false} TallyCounts(entries: seq<Entry>, split: string, tag: string)
    ensures Tally(entries, split, tag) == |Places(entries, split, tag)|
  {
    if entries == [] {
      assert Places(entries, split, tag) == {};
    } else {
      var n := |entries| - 1;
      TallyCounts(entries[..n], split, tag);
      var here := if entries[n].sample.split == split && entries[n].sample.tag == tag then {n} else {};
      assert Places(entries, split, tag) == Places(entries[..n], split, tag) + here;
    }
  }

  /** The digests a batch brings in under a label. */
  function NewDigests(samples: seq<Sample>, images: seq<LabeledImage>, tag: string): set<Digest> {
    set im | im in images && im.tag == tag && (forall s :: s in samples ==> s.digest != im.digest) :: im.digest
  }

  lemma NewIsGroup(samples: seq<Sample>, images: seq<LabeledImage>, tag: string)
    ensures NewDigests(samples, images, tag) == Group(samples, images, tag)
  {
  }

  /** A build for training only adds to train only. */
  lemma TrainOnlyTrains(samples: seq<Sample>, images: seq<LabeledImage>, plan: SplitPlan, rank: Ranking, out: Archive, e: Entry)
    requires plan.Valid() && Rebuilt(samples, images, plan, true, rank, out) && e in out.entries[|samples|..]
    ensures e.sample.split == "train"
  {
    var g, d := Group(samples, images, e.sample.tag), e.sample.digest;
    assert InPlace(samples, images, plan, true, rank, e);
    assert d in g && d !in Below(g, d, plan.seed, rank);
    Smaller(Below(g, d, plan.seed, rank), g - {d});
  }

  /** The images of a label in the three splits, as an archive has them. */
  function Shared(entries: seq<Entry>, tag: string): (c: (nat, nat, nat)) {
    (|Places(entries, "train", tag)|, |Places(entries, "val", tag)|, |Places(entries, "test", tag)|)
  }

  lemma PlacesAreShares(samples: seq<Sample>, images: seq<LabeledImage>, plan: SplitPlan, rank: Ranking, out: Archive,
                        tag: string, split: string)
    requires plan.Valid() && Rebuilt(samples, images, plan, false, rank, out)
    ensures |Places(out.entries[|samples|..], split, tag)| == ShareOf(Share(|Group(samples, images, tag)|, plan, false), split)
  {
    var kept, more := out.entries[..|samples|], out.entries[|samples|..];
    assert out.entries == kept + more;
    hide Share, ShareOf, Adds, Keeps, Places, Group, Fresh;
    TallyConcat(kept, more, split, tag);
    TallyCounts(more, split, tag);
    hide Tally;
    assert CountOf(out.counts, split, tag) == Tally(out.entries, split, tag);
  }

  lemma SharesAreAllocated(samples: seq<Sample>, images: seq<LabeledImage>, plan: SplitPlan, rank: Ranking, out: Archive, tag: string)
    requires plan.Valid() && Rebuilt(samples, images, plan, false, rank, out)
    ensures var a := Allocation(|NewDigests(samples, images, tag)|, plan);
      Shared(out.entries[|samples|..], tag) == (a[0], a[1], a[2])
  {
    NewIsGroup(samples, images, tag);
    PlacesAreShares(samples, images, plan, rank, out, tag, "train");
    PlacesAreShares(samples, images, plan, rank, out, tag, "val");
    PlacesAreShares(samples, images, plan, rank, out, tag, "test");
    hide Rebuilt, Allocation, Places, NewDigests, Group;
  }

  /**
   * Otherwise a label with n new digests is divided by the plan: nothing is lost, an unwanted split gets nothing, train
   * gets something, each split gets its quota rounded down or up, and only val can get one less, in the one case where
   * it alone can feed train.
   */
  lemma ClassIsShared(samples: seq<Sample>, images: seq<LabeledImage>, plan: SplitPlan, rank: Ranking, out: Archive, tag: string)
    requires plan.Valid() && Rebuilt(samples, images, plan, false, rank, out)
    ensures var n, (train, val, test) := |NewDigests(samples, images, tag)|, Shared(out.entries[|samples|..], tag);
      && train + val + test == n
      && (plan.val == 0 ==> val == 0) && (plan.test == 0 ==> test == 0) && (n > 0 ==> train >= 1)
      && n * plan.train / 100 <= train && 100 * train < n * plan.train + 100
      && n * plan.val / 100 <= val + 1 && 100 * val < n * plan.val + 100
      && n * plan.test / 100 <= test && 100 * test < n * plan.test + 100
      && (val < n * plan.val / 100 <==>
            n * plan.train / 100 == 0 && n == n * plan.val / 100 + n * plan.test / 100 + 1 && n * plan.val / 100 >= 1
            && n * plan.test % 100 > n * plan.val % 100 && n * plan.test % 100 > n * plan.train % 100)
  {
    SharesAreAllocated(samples, images, plan, rank, out, tag);
    var n := |NewDigests(samples, images, tag)|;
    AllocationIsSound(n, plan);
    var c := Allocation(n, plan);
    RoundedUp(n * plan.train, c[0]);
    RoundedUp(n * plan.val, c[1]);
    RoundedUp(n * plan.test, c[2]);
    hide Allocation, Rebuilt, Shared, NewDigests;
  }

  lemma RoundedUp(quota: nat, c: nat)
    requires c <= quota / 100 + if quota % 100 > 0 then 1 else 0
    ensures 100 * c < quota + 100
  {
  }

  /** When train has a share of its own, what is left over goes to the larger remainders, and among equals to the earlier split. */
  lemma LargerRemaindersFirst(samples: seq<Sample>, images: seq<LabeledImage>, plan: SplitPlan, rank: Ranking, out: Archive, tag: string,
                              i: nat, j: nat)
    requires plan.Valid() && Rebuilt(samples, images, plan, false, rank, out) && i < 3 && j < 3
    requires |NewDigests(samples, images, tag)| * plan.train >= 100
    ensures var n, (train, val, test) := |NewDigests(samples, images, tag)|, Shared(out.entries[|samples|..], tag);
      var c, w := [train, val, test], [plan.train, plan.val, plan.test];
      c[i] > n * w[i] / 100 && c[j] == n * w[j] / 100 ==>
        n * w[i] % 100 > n * w[j] % 100 || (n * w[i] % 100 == n * w[j] % 100 && i < j)
  {
    SharesAreAllocated(samples, images, plan, rank, out, tag);
    var n := |NewDigests(samples, images, tag)|;
    hide Rebuilt, Shared, NewDigests;
    LargestFirst(n, plan, i, j);
    var c, a := Allocation(n, plan), Shared(out.entries[|samples|..], tag);
    assert [a.0, a.1, a.2] == c;
  }

  lemma LargestFirst(n: nat, plan: SplitPlan, i: nat, j: nat)
    requires plan.Valid() && n * plan.train >= 100 && i < 3 && j < 3
    ensures var c, w := Allocation(n, plan), [plan.train, plan.val, plan.test];
      c[i] > n * w[i] / 100 && c[j] == n * w[j] / 100 ==>
        n * w[i] % 100 > n * w[j] % 100 || (n * w[i] % 100 == n * w[j] % 100 && i < j)
  {
    var c, f, r := Apportion(n, plan), Floors(n, plan), Rests(n, plan);
    var left: nat :| left <= 2 && HandsOut(f, r, left, c) && c[0] + c[1] + c[2] == n;
    assert c[0] == f[0] || c[0] == f[0] + 1;
    assert c[i] == f[i] || c[i] == f[i] + 1;
    assert c[i] == f[i] + 1 && c[j] == f[j] ==> Before(r, i, j);
  }

  function Place(split: string): nat { if split == "train" then 0 else if split == "val" then 1 else 2 }

  /** Within a label the splits follow the rank: train has the lowest ranks, test the highest. */
  lemma SplitsFollowRank(samples: seq<Sample>, images: seq<LabeledImage>, plan: SplitPlan, trainOnly: bool, rank: Ranking,
                         out: Archive, e: Entry, f: Entry)
    requires plan.Valid() && Rebuilt(samples, images, plan, trainOnly, rank, out)
    requires e in out.entries[|samples|..] && f in out.entries[|samples|..] && e.sample.tag == f.sample.tag
    requires rank(plan.seed, e.sample.digest) < rank(plan.seed, f.sample.digest)
    ensures Place(e.sample.split) <= Place(f.sample.split)
  {
    var g := Group(samples, images, e.sample.tag);
    assert InPlace(samples, images, plan, trainOnly, rank, e) && InPlace(samples, images, plan, trainOnly, rank, f);
    Smaller(Below(g, e.sample.digest, plan.seed, rank), Below(g, f.sample.digest, plan.seed, rank));
  }
}
