/** Ranking, splitting and writing the new images of a labelled build, and the build itself. */
module LabeledArchive {
  import opened Options
  import opened Datasets
  import opened SeenImages
  import opened Splits
  import opened LabeledBuild
  import opened Sets

  // ---- Ranking a class

  predicate InRank(list: seq<LabeledImage>, seed: int, rank: Ranking) {
    forall i, j :: 0 <= i < j < |list| ==> rank(seed, list[i].digest) < rank(seed, list[j].digest)
  }

  function Insert(im: LabeledImage, list: seq<LabeledImage>, seed: int, rank: Ranking): (r: seq<LabeledImage>)
    ensures |r| == |list| + 1 && forall x :: x in r <==> x == im || x in list
  {
    if list == [] || rank(seed, im.digest) < rank(seed, list[0].digest) then [im] + list
    else
      var rest := Insert(im, list[1..], seed, rank);
      assert list == [list[0]] + list[1..];
      [list[0]] + rest
  }

  /** The class by rank; rank decides the order because no two digests share one. */
  function Ranked(list: seq<LabeledImage>, seed: int, rank: Ranking): (r: seq<LabeledImage>)
    ensures |r| == |list| && forall x :: x in r <==> x in list
  {
    if list == [] then []
    else
      assert list == [list[0]] + list[1..];
      Insert(list[0], Ranked(list[1..], seed, rank), seed, rank)
  }

  lemma {:induction false} InsertKeepsRank(im: LabeledImage, list: seq<LabeledImage>, seed: int, rank: Ranking)
    requires Injective(rank) && InRank(list, seed, rank) && forall x :: x in list ==> x.digest != im.digest
    ensures InRank(Insert(im, list, seed, rank), seed, rank)
  {
    if list == [] {
    } else if rank(seed, im.digest) < rank(seed, list[0].digest) {
      Prepended(im, list, seed, rank);
    } else {
      assert list[0] in list;
      InsertKeepsRank(im, list[1..], seed, rank);
      var rest := Insert(im, list[1..], seed, rank);
      forall x | x in rest ensures rank(seed, list[0].digest) < rank(seed, x.digest) {
        if x in list[1..] {
          var k :| 0 <= k < |list[1..]| && list[1..][k] == x;
          assert list[k + 1] == x;
        }
      }
      Prepended(list[0], rest, seed, rank);
    }
  }

  lemma Prepended(im: LabeledImage, rest: seq<LabeledImage>, seed: int, rank: Ranking)
    requires InRank(rest, seed, rank)
    requires rest != [] ==> rank(seed, im.digest) < rank(seed, rest[0].digest)
    ensures InRank([im] + rest, seed, rank)
  {
  }

  lemma {:induction false} RankedInRank(list: seq<LabeledImage>, seed: int, rank: Ranking)
    requires Injective(rank)
    requires forall i, j :: 0 <= i < j < |list| ==> list[i].digest != list[j].digest
    ensures InRank(Ranked(list, seed, rank), seed, rank)
  {
    if list != [] {
      RankedInRank(list[1..], seed, rank);
      InsertKeepsRank(list[0], Ranked(list[1..], seed, rank), seed, rank);
    }
  }

  lemma {:induction false} RankedWeighs(list: seq<LabeledImage>, seed: int, rank: Ranking)
    ensures Weigh(Ranked(list, seed, rank)) == Weigh(list)
  {
    if list != [] {
      RankedWeighs(list[1..], seed, rank);
      InsertWeighs(list[0], Ranked(list[1..], seed, rank), seed, rank);
    }
  }

  lemma {:induction false} InsertWeighs(im: LabeledImage, list: seq<LabeledImage>, seed: int, rank: Ranking)
    ensures Weigh(Insert(im, list, seed, rank)) == Size(im) + Weigh(list)
  {
    var r := Insert(im, list, seed, rank);
    if list == [] || rank(seed, im.digest) < rank(seed, list[0].digest) {
      assert r[0] == im && r[1..] == list;
    } else {
      InsertWeighs(im, list[1..], seed, rank);
      assert r[0] == list[0] && r[1..] == Insert(im, list[1..], seed, rank);
    }
  }

  function DigestsOf(list: seq<LabeledImage>): set<Digest> { set im | im in list :: im.digest }

  lemma {:induction false} DigestsCount(list: seq<LabeledImage>, seed: int, rank: Ranking)
    requires InRank(list, seed, rank)
    ensures |DigestsOf(list)| == |list|
  {
    if list != [] {
      var n := |list| - 1;
      DigestsCount(list[..n], seed, rank);
      assert list == list[..n] + [list[n]];
      assert DigestsOf(list) == DigestsOf(list[..n]) + {list[n].digest};
      assert list[n].digest !in DigestsOf(list[..n]);
    }
  }

  /** The k-th of a ranked class has exactly k of the class below it. */
  lemma RankIsPosition(list: seq<LabeledImage>, g: set<Digest>, k: nat, seed: int, rank: Ranking)
    requires InRank(list, seed, rank) && DigestsOf(list) == g && k < |list|
    ensures |Below(g, list[k].digest, seed, rank)| == k
  {
    DigestsCount(list[..k], seed, rank);
    var below := Below(g, list[k].digest, seed, rank);
    assert below == DigestsOf(list[..k]) by {
      forall d | d in below ensures d in DigestsOf(list[..k]) {
        var j :| 0 <= j < |list| && list[j].digest == d;
        assert list[j] in list[..k];
      }
    }
  }

  // ---- Writing a class

  function NewEntry(im: LabeledImage, tag: string, split: string): Entry {
    Entry(split + "/" + tag + "/" + im.digest + Ext(im.filename), Sample(tag, split, im.digest))
  }

  /** The first `k` of a ranked class, split by position. */
  function GroupEntries(tag: string, list: seq<LabeledImage>, c: seq<nat>, k: nat): (es: seq<Entry>)
    requires Triple(c) && k <= |list|
    ensures |es| == k && forall i :: 0 <= i < k ==> es[i] == NewEntry(list[i], tag, PartOf(c, i))
  {
    seq(k, i requires 0 <= i < k => NewEntry(list[i], tag, PartOf(c, i)))
  }

  method WriteGroup(writer: ArchiveWriter, tag: string, list: seq<LabeledImage>, c: seq<nat>) returns (ok: bool)
    requires writer.Valid() && Triple(c)
    modifies writer
    ensures writer.Valid()
    ensures ok <==>
      |old(writer.entries)| + |list| <= MAX_UPLOAD_IMAGES && old(writer.total) + Weigh(list) <= MAX_UPLOAD_BYTES
    ensures ok ==> writer.entries == old(writer.entries) + GroupEntries(tag, list, c, |list|)
    ensures ok ==> writer.total == old(writer.total) + Weigh(list)
  {
    assert Weigh([]) == 0 && |writer.entries| <= MAX_UPLOAD_IMAGES && writer.total <= MAX_UPLOAD_BYTES;
    hide Weigh, Ext, Size, Tally, CountOf, ArchiveWriter.Valid;
    for i := 0 to |list|
      invariant writer.Valid() && writer.total == old(writer.total) + Weigh(list[..i])
      invariant writer.entries == old(writer.entries) + GroupEntries(tag, list, c, i)
    {
      var partition := "test";
      if i < c[0] { partition := "train"; } else if i < c[0] + c[1] { partition := "val"; }
      var name := partition + "/" + tag + "/" + list[i].digest + Ext(list[i].filename);
      WeighMore(list[..i], list[i]);
      assert list[..i + 1] == list[..i] + [list[i]];
      WeighPrefix(list, i + 1);
      ok := writer.Write(name, Sample(tag, partition, list[i].digest), Size(list[i]));
      if !ok { return; }
      assert GroupEntries(tag, list, c, i + 1) == GroupEntries(tag, list, c, i) + [NewEntry(list[i], tag, PartOf(c, i))];
    }
    assert list[..|list|] == list;
    ok := true;
  }

  lemma {:induction false} TallyConcat(a: seq<Entry>, b: seq<Entry>, split: string, tag: string)
    ensures Tally(a + b, split, tag) == Tally(a, split, tag) + Tally(b, split, tag)
  {
    if b == [] {
      assert a + b == a;
    } else {
      var n := |b| - 1;
      TallyConcat(a, b[..n], split, tag);
      assert (a + b)[..|a + b| - 1] == a + b[..n];
    }
  }

  function Upto(k: nat, lo: nat, width: nat): nat {
    if k <= lo then 0 else if k <= lo + width then k - lo else width
  }

  lemma {:induction false} TallyPrefix(tag: string, list: seq<LabeledImage>, c: seq<nat>, k: nat, split: string, other: string)
    requires Triple(c) && k <= |list| == c[0] + c[1] + c[2]
    ensures Tally(GroupEntries(tag, list, c, k), split, other) ==
      if other != tag then 0
      else if split == "train" then Upto(k, 0, c[0])
      else if split == "val" then Upto(k, c[0], c[1])
      else if split == "test" then Upto(k, c[0] + c[1], c[2])
      else 0
  {
    if k > 0 {
      TallyPrefix(tag, list, c, k - 1, split, other);
      var es := GroupEntries(tag, list, c, k);
      assert es[..k - 1] == GroupEntries(tag, list, c, k - 1);
      assert es[k - 1].sample == Sample(tag, PartOf(c, k - 1), list[k - 1].digest);
    }
  }

  // ---- Writing every class

  /** What is on disk once the classes in `done` are written; `written` are their digests. */
  ghost predicate Progress(samples: seq<Sample>, images: seq<LabeledImage>, plan: SplitPlan, trainOnly: bool,
                           rank: Ranking, done: set<string>, written: set<Digest>, added: seq<Entry>)
    requires plan.Valid()
  {
    && Covers(samples, images, done, written)
    && (forall e :: e in added ==> FiledImage(e) && InPlace(samples, images, plan, trainOnly, rank, e))
    && OneEach(written, added)
  }

  ghost predicate Covers(samples: seq<Sample>, images: seq<LabeledImage>, done: set<string>, written: set<Digest>) {
    forall d :: d in written <==> exists tag :: tag in done && d in Group(samples, images, tag)
  }

  ghost predicate Tallied(samples: seq<Sample>, images: seq<LabeledImage>, plan: SplitPlan, trainOnly: bool,
                          done: set<string>, added: seq<Entry>)
    requires plan.Valid()
  {
    forall split, tag :: Tally(added, split, tag) ==
      if tag in done then ShareOf(Share(|Group(samples, images, tag)|, plan, trainOnly), split) else 0
  }

  /** A class written by rank: every entry sits where its digest's place among the class puts it. */
  lemma GroupIsPlaced(samples: seq<Sample>, images: seq<LabeledImage>, plan: SplitPlan, trainOnly: bool, rank: Ranking,
                      tag: string, list: seq<LabeledImage>)
    requires plan.Valid() && InRank(list, plan.seed, rank) && DigestsOf(list) == Group(samples, images, tag)
    requires AllUnder(list, tag)
    ensures |list| == |Group(samples, images, tag)|
    ensures forall e :: e in GroupEntries(tag, list, Share(|list|, plan, trainOnly), |list|) ==>
      FiledImage(e) && InPlace(samples, images, plan, trainOnly, rank, e)
  {
    DigestsCount(list, plan.seed, rank);
    var c := Share(|list|, plan, trainOnly);
    var es := GroupEntries(tag, list, c, |list|);
    hide Group, InPlace, FiledImage, InRank, DigestsOf;
    forall e | e in es ensures FiledImage(e) && InPlace(samples, images, plan, trainOnly, rank, e) {
      var k :| 0 <= k < |es| && es[k] == e;
      OneIsPlaced(samples, images, plan, trainOnly, rank, tag, list, k);
    }
  }

  lemma OneIsPlaced(samples: seq<Sample>, images: seq<LabeledImage>, plan: SplitPlan, trainOnly: bool, rank: Ranking,
                    tag: string, list: seq<LabeledImage>, k: nat)
    requires plan.Valid() && InRank(list, plan.seed, rank) && DigestsOf(list) == Group(samples, images, tag) && k < |list|
    requires |list| == |Group(samples, images, tag)| && ImageOk(list[k]) && list[k].tag == tag
    ensures var e := NewEntry(list[k], tag, PartOf(Share(|list|, plan, trainOnly), k));
      FiledImage(e) && InPlace(samples, images, plan, trainOnly, rank, e)
  {
    var e := NewEntry(list[k], tag, PartOf(Share(|list|, plan, trainOnly), k));
    RankIsPosition(list, Group(samples, images, tag), k, plan.seed, rank);
    assert list[k].digest in DigestsOf(list);
    FiledNew(list[k], PartOf(Share(|list|, plan, trainOnly), k));
  }

  lemma ImageExtIsPlain(filename: string)
    requires ImageExtension(filename)
    ensures '/' !in Ext(filename) && '\\' !in Ext(filename)
  {
    ExtIsTail(filename);
    var ext := Ext(filename);
    assert forall k :: 0 <= k < |ext| && !('A' <= ext[k] <= 'Z') ==> Lower(ext)[k] == ext[k];
  }

  lemma FiledNew(im: LabeledImage, split: string)
    requires ImageOk(im) && IsSplit(split)
    ensures FiledImage(NewEntry(im, im.tag, split))
  {
    ImageExtIsPlain(im.filename);
    var file := im.digest + Ext(im.filename);
    assert SafePart(file) by { assert |file| > 2; }
    hide Ext;
    FileIn(Sample(im.tag, split, im.digest), file);
    var name := split + "/" + im.tag + "/" + im.digest;
    assert split + "/" + im.tag + "/" + file == NewEntry(im, im.tag, split).name == name + Ext(im.filename);
    ImageNameAppended(name, Ext(im.filename));
  }

  lemma GroupsApart(samples: seq<Sample>, images: seq<LabeledImage>, a: string, b: string, d: Digest)
    requires OneLabel(images) && a != b && d in Group(samples, images, a)
    ensures d !in Group(samples, images, b)
  {
  }

  lemma ProgressStep(samples: seq<Sample>, images: seq<LabeledImage>, plan: SplitPlan, trainOnly: bool, rank: Ranking,
                     done: set<string>, written: set<Digest>, added: seq<Entry>, tag: string, list: seq<LabeledImage>)
    requires plan.Valid() && OneLabel(images) && tag !in done
    requires Progress(samples, images, plan, trainOnly, rank, done, written, added)
    requires InRank(list, plan.seed, rank) && DigestsOf(list) == Group(samples, images, tag) && AllUnder(list, tag)
    ensures Progress(samples, images, plan, trainOnly, rank, done + {tag}, written + DigestsOf(list),
                     added + GroupEntries(tag, list, Share(|list|, plan, trainOnly), |list|))
  {
    hide InPlace, FiledImage, Covers, OneEach, Share, Group, OneLabel, AllUnder;
    GroupIsPlaced(samples, images, plan, trainOnly, rank, tag, list);
    CoversMore(samples, images, done, written, tag);
    OneEachOf(tag, list, Share(|list|, plan, trainOnly), plan.seed, rank);
    OneEachUnion(written, added, DigestsOf(list), GroupEntries(tag, list, Share(|list|, plan, trainOnly), |list|));
    hide GroupEntries, InRank, DigestsOf;
  }

  lemma CoversMore(samples: seq<Sample>, images: seq<LabeledImage>, done: set<string>, written: set<Digest>, tag: string)
    requires OneLabel(images) && tag !in done && Covers(samples, images, done, written)
    ensures written !! Group(samples, images, tag)
    ensures Covers(samples, images, done + {tag}, written + Group(samples, images, tag))
  {
    forall d | d in written ensures d !in Group(samples, images, tag) {
      var other :| other in done && d in Group(samples, images, other);
      GroupsApart(samples, images, other, tag, d);
    }
    hide Group;
    forall d ensures d in written + Group(samples, images, tag) <==>
                     exists t :: t in done + {tag} && d in Group(samples, images, t)
    {
      if d in written {
        var other :| other in done && d in Group(samples, images, other);
        assert other in done + {tag};
      }
    }
  }

  lemma OneEachOf(tag: string, list: seq<LabeledImage>, c: seq<nat>, seed: int, rank: Ranking)
    requires Triple(c) && InRank(list, seed, rank)
    ensures OneEach(DigestsOf(list), GroupEntries(tag, list, c, |list|))
  {
    var es := GroupEntries(tag, list, c, |list|);
    DigestsCount(list, seed, rank);
    forall e | e in es ensures e.sample.digest in DigestsOf(list) {
      var k :| 0 <= k < |es| && es[k] == e;
      assert list[k] in list;
    }
    forall d | d in DigestsOf(list) ensures Archived(es, d) {
      var k :| 0 <= k < |list| && list[k].digest == d;
      assert es[k] in es;
    }
  }

  lemma TalliedStep(samples: seq<Sample>, images: seq<LabeledImage>, plan: SplitPlan, trainOnly: bool,
                    done: set<string>, added: seq<Entry>, tag: string, list: seq<LabeledImage>)
    requires plan.Valid() && tag !in done && |list| == |Group(samples, images, tag)|
    requires Tallied(samples, images, plan, trainOnly, done, added)
    ensures Tallied(samples, images, plan, trainOnly, done + {tag},
                    added + GroupEntries(tag, list, Share(|list|, plan, trainOnly), |list|))
  {
    var c := Share(|list|, plan, trainOnly);
    var es := GroupEntries(tag, list, c, |list|);
    hide Share, Group;
    forall split, other
      ensures Tally(added + es, split, other) ==
        if other in done + {tag} then ShareOf(Share(|Group(samples, images, other)|, plan, trainOnly), split) else 0
    {
      TallyConcat(added, es, split, other);
      TallyPrefix(tag, list, c, |list|, split, other);
    }
  }

  lemma RankedLists(list: seq<LabeledImage>, g: set<Digest>, seed: int, rank: Ranking)
    requires Injective(rank) && Lists(list, g)
    ensures InRank(Ranked(list, seed, rank), seed, rank) && DigestsOf(Ranked(list, seed, rank)) == g
  {
    RankedInRank(list, seed, rank);
  }

  lemma WrittenIsFresh(samples: seq<Sample>, images: seq<LabeledImage>, done: set<string>, written: set<Digest>, groups: Groups)
    requires Covers(samples, images, done, written)
    requires Grouped(groups, samples, images)
    ensures written <= Fresh(samples, images)
    ensures groups.Keys <= done ==> written == Fresh(samples, images)
  {
    if groups.Keys <= done {
      forall d | d in Fresh(samples, images) ensures d in written {
        var im :| im in images && im.digest == d && !Holds(samples, d);
        assert d in Group(samples, images, im.tag);
        assert Lists(ListOf(groups, im.tag), Group(samples, images, im.tag));
        assert im.tag in groups;
      }
    }
  }

  lemma RoomFor(samples: seq<Sample>, images: seq<LabeledImage>, written: set<Digest>, g: set<Digest>)
    requires written <= Fresh(samples, images) && g <= Fresh(samples, images) && written !! g
    ensures |written| + |g| <= |Fresh(samples, images)|
  {
    assert |written + g| == |written| + |g|;
    Smaller(written + g, Fresh(samples, images));
  }

  lemma NothingYet(samples: seq<Sample>, images: seq<LabeledImage>, plan: SplitPlan, trainOnly: bool, rank: Ranking)
    requires plan.Valid()
    ensures Progress(samples, images, plan, trainOnly, rank, {}, {}, [])
    ensures Tallied(samples, images, plan, trainOnly, {}, [])
  {
  }

  /** Before a class is written: it is disjoint from what is written, and both fit among the new digests. */
  lemma ClassFits(samples: seq<Sample>, images: seq<LabeledImage>, plan: SplitPlan, trainOnly: bool, rank: Ranking,
                  done: set<string>, written: set<Digest>, more: seq<Entry>, groups: Groups, tag: string, list: seq<LabeledImage>)
    requires plan.Valid() && OneLabel(images) && tag !in done && Grouped(groups, samples, images)
    requires Progress(samples, images, plan, trainOnly, rank, done, written, more)
    requires InRank(list, plan.seed, rank) && DigestsOf(list) == Group(samples, images, tag)
    ensures |more| + |list| <= |Fresh(samples, images)|
  {
    hide InPlace, FiledImage;
    CoversMore(samples, images, done, written, tag);
    DigestsCount(list, plan.seed, rank);
    WrittenIsFresh(samples, images, done, written, groups);
    RoomFor(samples, images, written, DigestsOf(list));
  }

  lemma AllWritten(samples: seq<Sample>, images: seq<LabeledImage>, plan: SplitPlan, trainOnly: bool, rank: Ranking,
                   done: set<string>, written: set<Digest>, more: seq<Entry>, groups: Groups)
    requires plan.Valid() && done == groups.Keys && Grouped(groups, samples, images)
    requires Progress(samples, images, plan, trainOnly, rank, done, written, more)
    ensures written == Fresh(samples, images) && |more| == |Fresh(samples, images)|
  {
    hide InPlace, FiledImage;
    WrittenIsFresh(samples, images, done, written, groups);
  }

  lemma LabelWritten(samples: seq<Sample>, images: seq<LabeledImage>, plan: SplitPlan, trainOnly: bool, rank: Ranking,
                     done: set<string>, written: set<Digest>, more: seq<Entry>, tag: string, list: seq<LabeledImage>)
    requires plan.Valid() && OneLabel(images) && tag !in done
    requires Progress(samples, images, plan, trainOnly, rank, done, written, more)
    requires Tallied(samples, images, plan, trainOnly, done, more)
    requires InRank(list, plan.seed, rank) && DigestsOf(list) == Group(samples, images, tag) && AllUnder(list, tag)
    ensures var es := GroupEntries(tag, list, Share(|list|, plan, trainOnly), |list|);
      Progress(samples, images, plan, trainOnly, rank, done + {tag}, written + DigestsOf(list), more + es)
      && Tallied(samples, images, plan, trainOnly, done + {tag}, more + es)
  {
    hide Progress, Tallied, Share, GroupEntries;
    ProgressStep(samples, images, plan, trainOnly, rank, done, written, more, tag, list);
    DigestsCount(list, plan.seed, rank);
    TalliedStep(samples, images, plan, trainOnly, done, more, tag, list);
  }

  method Allocate(n: nat, plan: SplitPlan, trainOnly: bool) returns (c: seq<nat>)
    requires plan.Valid()
    ensures c == Share(n, plan, trainOnly)
  {
    c := SplitLabels(n, plan);
    if trainOnly { c := [n, 0, 0]; }
  }

  /** One turn of the label loop: rank the class, split it, write it. */
  method WriteLabel(writer: ArchiveWriter, tag: string, groups: Groups,
                    ghost samples: seq<Sample>, ghost images: seq<LabeledImage>,
                    plan: SplitPlan, trainOnly: bool, rank: Ranking,
                    ghost done: set<string>, ghost written: set<Digest>, ghost more: seq<Entry>)
    returns (ok: bool, ghost es: seq<Entry>)
    requires writer.Valid() && plan.Valid() && Injective(rank)
    requires OneLabel(images) && Grouped(groups, samples, images) && tag in groups && tag !in done
    requires AllUnder(groups[tag], tag)
    requires Progress(samples, images, plan, trainOnly, rank, done, written, more)
    requires Tallied(samples, images, plan, trainOnly, done, more)
    modifies writer
    ensures writer.Valid()
    ensures |more| + |groups[tag]| <= |Fresh(samples, images)|
    ensures ok <==>
      |old(writer.entries)| + |groups[tag]| <= MAX_UPLOAD_IMAGES && old(writer.total) + Weigh(groups[tag]) <= MAX_UPLOAD_BYTES
    ensures ok ==> writer.total == old(writer.total) + Weigh(groups[tag])
    ensures ok ==> writer.entries == old(writer.entries) + es && |es| == |groups[tag]|
    ensures ok ==> Progress(samples, images, plan, trainOnly, rank, done + {tag}, written + Group(samples, images, tag), more + es)
    ensures ok ==> Tallied(samples, images, plan, trainOnly, done + {tag}, more + es)
  {
    assert Lists(ListOf(groups, tag), Group(samples, images, tag));
    hide Progress, Tallied, Group, Fresh, Share, Lists, InRank, DigestsOf, OneLabel, Tally, CountOf, Grouped;
    RankedLists(groups[tag], Group(samples, images, tag), plan.seed, rank);
    RankedWeighs(groups[tag], plan.seed, rank);
    var list := Ranked(groups[tag], plan.seed, rank);
    var allocation := Allocate(|list|, plan, trainOnly);
    ClassFits(samples, images, plan, trainOnly, rank, done, written, more, groups, tag, list);
    ok := WriteGroup(writer, tag, list, allocation);
    LabelWritten(samples, images, plan, trainOnly, rank, done, written, more, tag, list);
    es := GroupEntries(tag, list, allocation, |list|);
  }

  lemma {:induction false} WeighApart(images: seq<LabeledImage>, todo: set<string>, tag: string)
    ensures WeighTags(images, todo) <= Weigh(images)
    ensures tag in todo ==> WeighTags(images, todo) == WeighTags(images, {tag}) + WeighTags(images, todo - {tag})
  {
    if images != [] { WeighApart(images[1..], todo, tag); }
  }

  /**
   * The label loop. What was collected fits in bytes, so only the number of images can stop it. The source visits
   * labels in alphabetical order; any order gives the same files.
   */
  method WriteAll(writer: ArchiveWriter, groups: Groups, ghost samples: seq<Sample>, ghost images: seq<LabeledImage>,
                  plan: SplitPlan, trainOnly: bool, rank: Ranking) returns (ok: bool, added: nat, ghost more: seq<Entry>)
    requires writer.Valid() && plan.Valid() && Injective(rank)
    requires OneLabel(images) && Grouped(groups, samples, images)
    requires Fits(groups, images) && writer.total + Weigh(images) <= MAX_UPLOAD_BYTES
    modifies writer
    ensures writer.Valid()
    ensures ok <==> |old(writer.entries)| + |Fresh(samples, images)| <= MAX_UPLOAD_IMAGES
    ensures ok ==> writer.entries == old(writer.entries) + more && added == |more| == |Fresh(samples, images)|
    ensures ok ==> Progress(samples, images, plan, trainOnly, rank, groups.Keys, Fresh(samples, images), more)
    ensures ok ==> Tallied(samples, images, plan, trainOnly, groups.Keys, more)
  {
    hide Progress, Tallied, Group, Fresh, OneLabel, Tally, CountOf, Grouped, Weigh, WeighTags;
    added := 0;
    more := [];
    ghost var start := writer.entries;
    ghost var done: set<string>, written: set<Digest> := {}, {};
    var todo := groups.Keys;
    NothingYet(samples, images, plan, trainOnly, rank);
    WeighApart(images, todo, "");
    while todo != {}
      invariant writer.Valid() && writer.entries == start + more && added == |more|
      invariant todo <= groups.Keys && done == groups.Keys - todo
      invariant writer.total + WeighTags(images, todo) <= MAX_UPLOAD_BYTES
      invariant Progress(samples, images, plan, trainOnly, rank, done, written, more)
      invariant Tallied(samples, images, plan, trainOnly, done, more)
    {
      var tag :| tag in todo;
      WeighApart(images, todo, tag);
      assert Weigh(ListOf(groups, tag)) <= WeighTags(images, {tag}) && AllUnder(ListOf(groups, tag), tag);
      var wrote, es := WriteLabel(writer, tag, groups, samples, images, plan, trainOnly, rank, done, written, more);
      if !wrote { return false, added, more; }
      more := more + es;
      written := written + Group(samples, images, tag);
      added := added + |groups[tag]|;
      done, todo := done + {tag}, todo - {tag};
    }
    AllWritten(samples, images, plan, trainOnly, rank, done, written, more, groups);
    ok := true;
  }

  // ---- The build

  method BuildLabeledArchive(base: Option<Snapshot>, images: seq<LabeledImage>, plan: SplitPlan, trainOnly: bool, rank: Ranking)
    returns (r: Result<Archive>)
    requires Injective(rank)
    ensures r.Ok? <==> Acceptable(base, images, plan)
    ensures r.Ok? ==> Rebuilt(Baseline(base), images, plan, trainOnly, rank, r.value)
  {
    if !plan.Valid() { return Err(Invalid); }
    if images == [] || |images| > MAX_BATCH { return Err(Invalid); }
    var writer := new ArchiveWriter();
    var seen: map<Digest, Identity> := map[];
    if base.Some? {
      var copied, noted := CopyBaseline(base.value, writer);
      if !copied { return Err(InvalidArchive); }
      seen := noted;
    }
    ghost var samples := Baseline(base);
    ghost var kept := writer.entries;
    var fault, groups, duplicates := Collect(images, seen, writer.total, samples);
    if fault.Some? { return Err(fault.value); }
    var wrote, added, more := WriteAll(writer, groups, samples, images, plan, trainOnly, rank);
    if !wrote { return Err(InvalidArchive); }
    if added == 0 { return Err(Invalid); }
    var out := Archive(writer.entries, writer.counts, added, duplicates);
    Assembled(samples, images, plan, trainOnly, rank, groups, kept, more, out);
    r := Ok(out);
  }

  lemma Assembled(samples: seq<Sample>, images: seq<LabeledImage>, plan: SplitPlan, trainOnly: bool, rank: Ranking,
                  groups: Groups, kept: seq<Entry>, more: seq<Entry>, out: Archive)
    requires plan.Valid() && Grouped(groups, samples, images)
    requires Samples(kept) == samples && (forall e :: e in kept ==> Filed(e)) && out.entries == kept + more
    requires Progress(samples, images, plan, trainOnly, rank, groups.Keys, Fresh(samples, images), more)
    requires Tallied(samples, images, plan, trainOnly, groups.Keys, more)
    requires forall split, tag :: CountOf(out.counts, split, tag) == Tally(out.entries, split, tag)
    requires out.added == |more| == |Fresh(samples, images)| && out.added + out.duplicates == |images|
    ensures Rebuilt(samples, images, plan, trainOnly, rank, out)
  {
    assert |kept| == |samples| && out.entries[|kept|..] == more && out.entries[..|kept|] == kept;
    assert Keeps(samples, out.entries) && Adds(samples, images, plan, trainOnly, rank, more) by {
      hide InPlace, Filed, ImageExtension, Covers, Grouped, Tallied;
    }
    hide Keeps, Adds, Progress, Share, Group, Fresh, Grouped, Samples;
    forall split, tag
      ensures Tally(out.entries, split, tag) == Tally(kept, split, tag)
              + ShareOf(Share(|Group(samples, images, tag)|, plan, trainOnly), split)
    {
      TallyConcat(kept, more, split, tag);
      EmptyClass(samples, images, plan, trainOnly, groups, tag, split);
    }
  }

  lemma EmptyClass(samples: seq<Sample>, images: seq<LabeledImage>, plan: SplitPlan, trainOnly: bool,
                   groups: Groups, tag: string, split: string)
    requires plan.Valid() && Grouped(groups, samples, images)
    ensures tag !in groups ==> ShareOf(Share(|Group(samples, images, tag)|, plan, trainOnly), split) == 0
  {
    if tag !in groups {
      assert Lists(ListOf(groups, tag), Group(samples, images, tag));
      assert Group(samples, images, tag) == {};
    }
  }
}
