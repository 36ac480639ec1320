/** What holds of a dataset from version to version, whichever builder made each of them. */
module Versions {
  import opened Options
  import opened Datasets
  import opened Splits
  import opened SeenImages
  import opened LabeledBuild
  import opened MergeBuild
  import LabeledLaws
  import opened Scanner
  import opened Sequences

  /** How a version came from the one before. */
  datatype Change =
    | Annotated(images: seq<LabeledImage>, plan: SplitPlan, trainOnly: bool)
    | Expanded(uploads: seq<Upload>, feedback: seq<Feedback>)

  ghost predicate Leads(prior: Snapshot, change: Change, next: Snapshot, rank: Ranking) {
    && BaseOk(prior)
    && match change
       case Annotated(images, plan, trainOnly) =>
         Acceptable(Some(prior), images, plan)
         && exists out :: Rebuilt(BaseSamples(prior), images, plan, trainOnly, rank, out) && Scanned(out.entries, next)
       case Expanded(uploads, feedback) =>
         Mergeable(prior, uploads, feedback)
         && exists out :: MergedFrom(BaseSamples(prior), BaseNames(prior), Offers(uploads, feedback), out)
                          && Scanned(out.entries, next)
  }

  ghost predicate History(versions: seq<Snapshot>, changes: seq<Change>, rank: Ranking) {
    && |versions| == |changes| + 1 && BaseOk(versions[0])
    && forall i :: 0 <= i < |changes| ==> Leads(versions[i], changes[i], versions[i + 1], rank)
  }

  /** No image is both trained on and evaluated on. */
  ghost predicate Separate(samples: seq<Sample>) {
    forall s, t :: s in samples && t in samples && s.digest == t.digest ==> (s.split == "train" <==> t.split == "train")
  }

  /** No image has two labels. */
  ghost predicate Consistent(samples: seq<Sample>) {
    forall s, t :: s in samples && t in samples && s.digest == t.digest ==> s.tag == t.tag
  }

  ghost predicate SameEvaluation(a: seq<Sample>, b: seq<Sample>) {
    forall s: Sample :: s.split != "train" ==> multiset(a)[s] == multiset(b)[s]
  }

  /** What one builder does, as far as the next version can tell: it adds samples of digests not held before. */
  ghost predicate Extends(a: seq<Sample>, b: seq<Sample>, more: seq<Sample>) {
    && multiset(b) == multiset(a) + multiset(more)
    && (forall s :: s in more ==> !Holds(a, s.digest))
    && forall i, j :: 0 <= i < j < |more| ==> more[i].digest != more[j].digest
  }

  lemma InExtension(a: seq<Sample>, b: seq<Sample>, more: seq<Sample>, s: Sample)
    requires Extends(a, b, more)
    ensures s in b <==> s in a || s in more
  {
    assert multiset(b)[s] == multiset(a)[s] + multiset(more)[s];
    assert s in b <==> s in multiset(b);
    assert s in a <==> s in multiset(a);
    assert s in more <==> s in multiset(more);
  }

  lemma Preserved(a: seq<Sample>, b: seq<Sample>, more: seq<Sample>)
    requires Extends(a, b, more)
    ensures multiset(a) <= multiset(b)
    ensures Separate(a) ==> Separate(b)
    ensures Consistent(a) ==> Consistent(b)
    ensures (forall s :: s in more ==> s.split == "train") ==> SameEvaluation(a, b)
  {
    forall s, t | s in b && t in b && s.digest == t.digest
      ensures s == t || (s in a && t in a)
    {
      InExtension(a, b, more, s);
      InExtension(a, b, more, t);
      if s in more && t in more {
        var i :| 0 <= i < |more| && more[i] == s;
        var j :| 0 <= j < |more| && more[j] == t;
      }
    }
    if forall s :: s in more ==> s.split == "train" {
      forall s: Sample | s.split != "train" ensures multiset(a)[s] == multiset(b)[s] {
        assert s !in multiset(more);
      }
    }
  }

  lemma SplitOff(entries: seq<Entry>, n: nat)
    requires n <= |entries|
    ensures Samples(entries) == Samples(entries[..n]) + Samples(entries[n..])
  {
    assert entries == entries[..n] + entries[n..];
  }

  lemma LabelledExtends(samples: seq<Sample>, images: seq<LabeledImage>, plan: SplitPlan, trainOnly: bool, rank: Ranking,
                        out: Archive, b: seq<Sample>)
    requires plan.Valid() && Rebuilt(samples, images, plan, trainOnly, rank, out)
    requires multiset(b) == multiset(Samples(out.entries))
    ensures Extends(samples, b, Samples(out.entries[|samples|..]))
    ensures trainOnly ==> forall s :: s in Samples(out.entries[|samples|..]) ==> s.split == "train"
  {
    hide InPlace, FiledImage, Filed, Fresh, Group, Tally, CountOf, Holds, Extends, Samples;
    if trainOnly { AllTrain(samples, images, plan, rank, out); }
    AllNew(samples, images, plan, trainOnly, rank, out);
    EntriesExtend(samples, out.entries, b);
  }

  lemma EntriesExtend(samples: seq<Sample>, entries: seq<Entry>, b: seq<Sample>)
    requires |samples| <= |entries| && Samples(entries[..|samples|]) == samples && NoRepeats(entries[|samples|..])
    requires forall s :: s in Samples(entries[|samples|..]) ==> !Holds(samples, s.digest)
    requires multiset(b) == multiset(Samples(entries))
    ensures Extends(samples, b, Samples(entries[|samples|..]))
  {
    SplitOff(entries, |samples|);
  }

  lemma AllNew(samples: seq<Sample>, images: seq<LabeledImage>, plan: SplitPlan, trainOnly: bool, rank: Ranking, out: Archive)
    requires plan.Valid() && Rebuilt(samples, images, plan, trainOnly, rank, out)
    ensures forall s :: s in Samples(out.entries[|samples|..]) ==> !Holds(samples, s.digest)
  {
    var added := out.entries[|samples|..];
    forall s | s in Samples(added) ensures !Holds(samples, s.digest) {
      var k :| 0 <= k < |added| && added[k].sample == s;
      assert added[k] in added && InPlace(samples, images, plan, trainOnly, rank, added[k]);
    }
  }

  lemma AllTrain(samples: seq<Sample>, images: seq<LabeledImage>, plan: SplitPlan, rank: Ranking, out: Archive)
    requires plan.Valid() && Rebuilt(samples, images, plan, true, rank, out)
    ensures forall s :: s in Samples(out.entries[|samples|..]) ==> s.split == "train"
  {
    var added := out.entries[|samples|..];
    forall s | s in Samples(added) ensures s.split == "train" {
      var k :| 0 <= k < |added| && added[k].sample == s;
      LabeledLaws.TrainOnlyTrains(samples, images, plan, rank, out, added[k]);
    }
  }

  lemma AppendedTrains(samples: seq<Sample>, offers: seq<Addition>, more: seq<Entry>)
    requires Appends(samples, offers, more)
    ensures forall s :: s in Samples(more) ==> !Holds(samples, s.digest) && s.split == "train"
    ensures forall i, j :: 0 <= i < j < |more| ==> Samples(more)[i].digest != Samples(more)[j].digest
  {
    hide AddedName;
    forall s | s in Samples(more) ensures !Holds(samples, s.digest) && s.split == "train" {
      var k :| 0 <= k < |more| && more[k].sample == s;
      assert more[k] in more && FromOffer(offers, more[k]);
      assert s.digest in Novelties(samples, offers);
    }
  }

  lemma MergeExtends(samples: seq<Sample>, names: seq<string>, offers: seq<Addition>, out: Merged, b: seq<Sample>)
    requires MergedFrom(samples, names, offers, out)
    requires multiset(b) == multiset(Samples(out.entries))
    ensures Extends(samples, b, Samples(out.entries[|samples|..]))
    ensures forall s :: s in Samples(out.entries[|samples|..]) ==> s.split == "train"
  {
    var more := out.entries[|samples|..];
    AppendedTrains(samples, offers, more);
    hide Appends, SafePath, Filed, Tally, CountOf;
    SplitOff(out.entries, |samples|);
    assert multiset(samples + Samples(more)) == multiset(samples) + multiset(Samples(more));
  }

  lemma LabelledIsReadBack(samples: seq<Sample>, images: seq<LabeledImage>, plan: SplitPlan, trainOnly: bool, rank: Ranking,
                           out: Archive, next: Snapshot)
    requires plan.Valid() && Rebuilt(samples, images, plan, trainOnly, rank, out) && samples != []
    requires Scanned(out.entries, next)
    ensures ReadBack(out.entries, next)
  {
    hide Scanned;
    FiledIsReadBack(out.entries, next);
  }

  lemma MergeIsReadBack(samples: seq<Sample>, names: seq<string>, offers: seq<Addition>, out: Merged, next: Snapshot)
    requires MergedFrom(samples, names, offers, out) && samples != []
    requires Scanned(out.entries, next)
    ensures ReadBack(out.entries, next)
  {
    hide Scanned;
    FiledIsReadBack(out.entries, next);
  }

  lemma StepPreserves(prior: Snapshot, change: Change, next: Snapshot, rank: Ranking)
    requires Leads(prior, change, next, rank)
    ensures BaseOk(next)
    ensures var a, b := BaseSamples(prior), BaseSamples(next);
      && multiset(a) <= multiset(b)
      && (Separate(a) ==> Separate(b))
      && (Consistent(a) ==> Consistent(b))
      && (change.Expanded? || change.trainOnly ==> SameEvaluation(a, b))
  {
    hide Acceptable, Rebuilt, MergedFrom, Separate, Consistent, SameEvaluation, SourcesOk, BaseMergeable, Scanned;
    assert BaseSamples(prior) != [];
    hide BaseOk;
    match change
    case Annotated(images, plan, trainOnly) =>
      ValidPlan(prior, images, plan);
      var out :| Rebuilt(BaseSamples(prior), images, plan, trainOnly, rank, out) && Scanned(out.entries, next);
      LabelledIsReadBack(BaseSamples(prior), images, plan, trainOnly, rank, out, next);
      LabelledExtends(BaseSamples(prior), images, plan, trainOnly, rank, out, BaseSamples(next));
      Preserved(BaseSamples(prior), BaseSamples(next), Samples(out.entries[|BaseSamples(prior)|..]));
    case Expanded(uploads, feedback) =>
      var out :| MergedFrom(BaseSamples(prior), BaseNames(prior), Offers(uploads, feedback), out) && Scanned(out.entries, next);
      MergeIsReadBack(BaseSamples(prior), BaseNames(prior), Offers(uploads, feedback), out, next);
      MergeExtends(BaseSamples(prior), BaseNames(prior), Offers(uploads, feedback), out, BaseSamples(next));
      Preserved(BaseSamples(prior), BaseSamples(next), Samples(out.entries[|BaseSamples(prior)|..]));
  }

  lemma ValidPlan(prior: Snapshot, images: seq<LabeledImage>, plan: SplitPlan)
    requires Acceptable(Some(prior), images, plan)
    ensures plan.Valid()
  {
  }

  /** Along any chain of versions no sample is lost, moved or relabelled, and evaluation stays apart from training. */
  lemma {:induction false} HistoryPreserves(versions: seq<Snapshot>, changes: seq<Change>, rank: Ranking, i: nat, j: nat)
    requires History(versions, changes, rank) && i <= j < |versions|
    ensures BaseOk(versions[i]) && BaseOk(versions[j])
    ensures var a, b := BaseSamples(versions[i]), BaseSamples(versions[j]);
      && multiset(a) <= multiset(b)
      && (Separate(a) ==> Separate(b))
      && (Consistent(a) ==> Consistent(b))
      && ((forall k :: i <= k < j ==> changes[k].Expanded? || changes[k].trainOnly) ==> SameEvaluation(a, b))
    decreases j - i, j
  {
    hide Separate, Consistent, BaseOk, Leads;
    if i == j {
      Readable(versions, changes, rank, i);
    } else {
      HistoryPreserves(versions, changes, rank, i, j - 1);
      assert Leads(versions[j - 1], changes[j - 1], versions[j - 1 + 1], rank);
      StepPreserves(versions[j - 1], changes[j - 1], versions[j], rank);
    }
  }

  lemma Readable(versions: seq<Snapshot>, changes: seq<Change>, rank: Ranking, i: nat)
    requires History(versions, changes, rank) && i < |versions|
    ensures BaseOk(versions[i])
  {
    if i > 0 {
      assert Leads(versions[i - 1], changes[i - 1], versions[i - 1 + 1], rank);
      StepPreserves(versions[i - 1], changes[i - 1], versions[i], rank);
    }
  }

  // ---- Upload order

  lemma SameMembers(a: seq<LabeledImage>, b: seq<LabeledImage>)
    requires multiset(a) == multiset(b)
    ensures |a| == |b| && forall im :: im in a <==> im in b
  {
    assert |a| == |multiset(a)| && |b| == |multiset(b)|;
    assert forall im :: im in a <==> im in multiset(a);
    assert forall im :: im in b <==> im in multiset(b);
  }

  lemma {:induction false} WeighInAnyOrder(a: seq<LabeledImage>, b: seq<LabeledImage>)
    requires multiset(a) == multiset(b)
    ensures Weigh(a) == Weigh(b)
    decreases |a|
  {
    hide Without, Weigh;
    if a == [] {
      assert |b| == |multiset(b)|;
    } else {
      assert a[0] in multiset(b);
      var k: nat :| k < |b| && b[k] == a[0];
      Removed(a, 0);
      Removed(b, k);
      WeighInAnyOrder(Without(a, 0), Without(b, k));
      WeighWithout(a, 0);
      WeighWithout(b, k);
    }
  }

  lemma {:induction false} WeighWithout(b: seq<LabeledImage>, k: nat)
    requires k < |b|
    ensures Weigh(b) == Size(b[k]) + Weigh(Without(b, k))
  {
    if k == 0 {
      assert Without(b, k) == b[1..];
    } else {
      WeighWithout(b[1..], k - 1);
      assert Without(b, k)[1..] == Without(b[1..], k - 1);
    }
  }

  /** A batch is accepted or refused alike in every order. */
  lemma AcceptanceIgnoresOrder(base: Option<Snapshot>, images: seq<LabeledImage>, other: seq<LabeledImage>, plan: SplitPlan)
    requires multiset(images) == multiset(other)
    ensures Acceptable(base, images, plan) <==> Acceptable(base, other, plan)
  {
    SameMembers(images, other);
    WeighInAnyOrder(images, other);
    if Usable(base) {
      assert Fresh(Baseline(base), images) == Fresh(Baseline(base), other);
    }
  }

  /** Each digest goes to the same split, with the same label, in every order; the tallies agree too. */
  lemma SplitsIgnoreOrder(samples: seq<Sample>, images: seq<LabeledImage>, other: seq<LabeledImage>, plan: SplitPlan,
                          trainOnly: bool, rank: Ranking, out: Archive, out': Archive)
    requires plan.Valid() && multiset(images) == multiset(other) && OneLabel(images)
    requires Rebuilt(samples, images, plan, trainOnly, rank, out) && Rebuilt(samples, other, plan, trainOnly, rank, out')
    ensures forall e, f :: e in out.entries[|samples|..] && f in out'.entries[|samples|..] && e.sample.digest == f.sample.digest ==>
      e.sample == f.sample
    ensures forall e :: e in out.entries[|samples|..] ==> Archived(out'.entries[|samples|..], e.sample.digest)
    ensures out.added == out'.added && out.duplicates == out'.duplicates
  {
    SameMembers(images, other);
    assert Fresh(samples, images) == Fresh(samples, other);
    var a, b := out.entries[|samples|..], out'.entries[|samples|..];
    forall e, f | e in a && f in b && e.sample.digest == f.sample.digest ensures e.sample == f.sample {
      SamePlace(samples, images, other, plan, trainOnly, rank, e, f);
    }
    forall e | e in a ensures Archived(b, e.sample.digest) {
      assert InPlace(samples, images, plan, trainOnly, rank, e);
      assert e.sample.digest in Fresh(samples, images);
    }
  }

  lemma SamePlace(samples: seq<Sample>, images: seq<LabeledImage>, other: seq<LabeledImage>, plan: SplitPlan,
                  trainOnly: bool, rank: Ranking, e: Entry, f: Entry)
    requires plan.Valid() && (forall im :: im in images <==> im in other) && OneLabel(images)
    requires InPlace(samples, images, plan, trainOnly, rank, e) && InPlace(samples, other, plan, trainOnly, rank, f)
    requires e.sample.digest == f.sample.digest
    ensures e.sample == f.sample
  {
    hide Placed;
    assert Group(samples, images, e.sample.tag) == Group(samples, other, e.sample.tag);
  }

  // ---- Every submitted image

  /** An accepted image is in the new version under its label, and nowhere under another; no image is lost. */
  lemma EveryImageIsFiled(samples: seq<Sample>, images: seq<LabeledImage>, plan: SplitPlan, trainOnly: bool, rank: Ranking,
                          out: Archive, im: LabeledImage)
    requires plan.Valid() && Rebuilt(samples, images, plan, trainOnly, rank, out)
    requires NoLeak(samples, images) && OneLabel(images) && im in images
    ensures Archived(out.entries, im.digest)
    ensures forall e :: e in out.entries && e.sample.digest == im.digest ==> e.sample.tag == im.tag
  {
    var n := |samples|;
    assert out.entries == out.entries[..n] + out.entries[n..];
    assert Repeatable(samples, im.digest, im.tag);
    forall e | e in out.entries && e.sample.digest == im.digest ensures e.sample.tag == im.tag {
      if e in out.entries[..n] {
        KeptSample(samples, out.entries, e);
      } else {
        assert InPlace(samples, images, plan, trainOnly, rank, e);
      }
    }
    if Holds(samples, im.digest) {
      var s :| s in samples && s.digest == im.digest;
      var k :| 0 <= k < n && samples[k] == s;
      assert out.entries[..n][k] in out.entries;
      assert Samples(out.entries[..n])[k] == s;
    } else {
      assert im.digest in Fresh(samples, images);
      var e :| e in out.entries[n..] && e.sample.digest == im.digest;
      assert e in out.entries;
    }
  }

  lemma KeptSample(samples: seq<Sample>, entries: seq<Entry>, e: Entry)
    requires Keeps(samples, entries) && e in entries[..|samples|]
    ensures e.sample in samples
  {
    var k :| 0 <= k < |samples| && entries[..|samples|][k] == e;
    assert Samples(entries[..|samples|])[k] == e.sample;
  }
}
