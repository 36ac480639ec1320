/** The labelled build: a new version from a baseline plus images whose labels people confirmed. */
module LabeledBuild {
  import opened Options
  import opened Datasets
  import opened SeenImages
  import opened Splits

  const MAX_BATCH := 10_000

  /** `stored` fails when the object store cannot produce bytes of that size and digest. */
  datatype LabeledImage = LabeledImage(id: string, tag: string, filename: string, digest: Digest, sizeBytes: int, stored: bool)

  datatype Archive = Archive(entries: seq<Entry>, counts: map<(string, string), nat>, added: nat, duplicates: nat)

  /** SHA-256 of "seed:digest", as a number: no two digests share a place. */
  type Ranking = (int, Digest) -> nat

  ghost predicate Injective(rank: Ranking) {
    forall seed, d, e :: rank(seed, d) == rank(seed, e) ==> d == e
  }

  /** Why an image is refused by its description. */
  function Fault(im: LabeledImage): Option<Error> {
    if !SafePart(im.tag) || !ImageExtension(im.filename) then Some(Invalid)
    else if !ImageSize(im.sizeBytes) || |im.digest| != 64 then Some(InvalidArchive)
    else None
  }

  predicate Hexadecimal(d: Digest) { forall c :: c in d ==> '0' <= c <= '9' || 'a' <= c <= 'f' }

  /** Bytes are handed out when their computed sum, in hexadecimal, is the one asked for. */
  predicate Materializes(im: LabeledImage) { im.stored && Hexadecimal(im.digest) }

  predicate ImageOk(im: LabeledImage) { Fault(im).None? && Materializes(im) }

  function Size(im: LabeledImage): nat { if im.sizeBytes < 0 then 0 else im.sizeBytes }

  function Weigh(images: seq<LabeledImage>): nat {
    if images == [] then 0 else Size(images[0]) + Weigh(images[1..])
  }

  predicate AllOk(images: seq<LabeledImage>) { forall im :: im in images ==> ImageOk(im) }

  /** No image the baseline evaluates on, or holds under another label. */
  predicate NoLeak(samples: seq<Sample>, images: seq<LabeledImage>) {
    forall im :: im in images ==> Repeatable(samples, im.digest, im.tag)
  }

  predicate OneLabel(images: seq<LabeledImage>) {
    forall a, b :: a in images && b in images && a.digest == b.digest ==> a.tag == b.tag
  }

  /** The digests a batch brings in, and those it brings in under one label. */
  function Fresh(samples: seq<Sample>, images: seq<LabeledImage>): set<Digest> {
    set im | im in images && !Holds(samples, im.digest) :: im.digest
  }

  function Group(samples: seq<Sample>, images: seq<LabeledImage>, tag: string): set<Digest> {
    set im | im in images && im.tag == tag && !Holds(samples, im.digest) :: im.digest
  }

  ghost predicate Usable(base: Option<Snapshot>) { base.Some? ==> BaseOk(base.value) }

  ghost function Baseline(base: Option<Snapshot>): seq<Sample>
    requires Usable(base)
  {
    if base.None? then [] else BaseSamples(base.value)
  }

  function BaselineBytes(base: Option<Snapshot>): nat { if base.None? then 0 else BaseBytes(base.value) }

  /** Exactly the requests a build accepts. It looks at the images as a set: their order is irrelevant. */
  ghost predicate Acceptable(base: Option<Snapshot>, images: seq<LabeledImage>, plan: SplitPlan) {
    && plan.Valid() && 0 < |images| <= MAX_BATCH
    && Usable(base)
    && AllOk(images) && NoLeak(Baseline(base), images) && OneLabel(images)
    && |Baseline(base)| + |Fresh(Baseline(base), images)| <= MAX_UPLOAD_IMAGES
    && BaselineBytes(base) + Weigh(images) <= MAX_UPLOAD_BYTES
    && Fresh(Baseline(base), images) != {}
  }

  /** The place of `d` in its class: how many of the class's digests rank below it. */
  function Below(g: set<Digest>, d: Digest, seed: int, rank: Ranking): set<Digest> {
    set e | e in g && rank(seed, e) < rank(seed, d)
  }

  ghost function Share(n: nat, plan: SplitPlan, trainOnly: bool): (c: seq<nat>)
    requires plan.Valid()
    ensures Triple(c) && c[0] + c[1] + c[2] == n
  {
    if trainOnly then [n, 0, 0] else Allocation(n, plan)
  }

  function PartOf(c: seq<nat>, k: nat): string
    requires Triple(c)
  {
    if k < c[0] then "train" else if k < c[0] + c[1] then "val" else "test"
  }

  function ShareOf(c: seq<nat>, split: string): nat
    requires Triple(c)
  {
    if split == "train" then c[0] else if split == "val" then c[1] else if split == "test" then c[2] else 0
  }

  /** The split a new digest of a class goes to: a function of the set of the class's new digests. */
  ghost function Placed(g: set<Digest>, d: Digest, plan: SplitPlan, trainOnly: bool, rank: Ranking): string
    requires plan.Valid()
  {
    PartOf(Share(|g|, plan, trainOnly), |Below(g, d, plan.seed, rank)|)
  }

  /** What an accepted build puts in the archive. */
  ghost predicate Rebuilt(samples: seq<Sample>, images: seq<LabeledImage>, plan: SplitPlan, trainOnly: bool,
                          rank: Ranking, out: Archive)
    requires plan.Valid()
  {
    && Keeps(samples, out.entries)
    && Adds(samples, images, plan, trainOnly, rank, out.entries[|samples|..])
    && out.added == |out.entries| - |samples| == |Fresh(samples, images)|
    && out.added + out.duplicates == |images|
    && (forall split, tag :: CountOf(out.counts, split, tag)
                             == Tally(out.entries, split, tag)
                             == Tally(out.entries[..|samples|], split, tag)
                                + ShareOf(Share(|Group(samples, images, tag)|, plan, trainOnly), split))
  }

  /** Every baseline sample, unchanged and in place; and every image filed where it is read back. */
  ghost predicate Keeps(samples: seq<Sample>, entries: seq<Entry>) {
    && |samples| <= |entries|
    && Samples(entries[..|samples|]) == samples
    && forall e :: e in entries ==> Filed(e)
  }

  /** Filed under a name the scanner takes for an image's. */
  predicate FiledImage(e: Entry) { Filed(e) && ImageExtension(e.name) }

  /** Every new digest exactly once, under its own label, in the split its rank gives it. */
  ghost predicate Adds(samples: seq<Sample>, images: seq<LabeledImage>, plan: SplitPlan, trainOnly: bool,
                       rank: Ranking, added: seq<Entry>)
    requires plan.Valid()
  {
    && (forall e :: e in added ==> FiledImage(e) && InPlace(samples, images, plan, trainOnly, rank, e))
    && NoRepeats(added)
    && (forall d :: d in Fresh(samples, images) ==> Archived(added, d))
  }

  ghost predicate InPlace(samples: seq<Sample>, images: seq<LabeledImage>, plan: SplitPlan, trainOnly: bool,
                          rank: Ranking, e: Entry)
    requires plan.Valid()
  {
    var g := Group(samples, images, e.sample.tag);
    e.sample.digest in g && e.sample.split == Placed(g, e.sample.digest, plan, trainOnly, rank)
  }

  // ---- The baseline loop

  method CopyBaseline(base: Snapshot, writer: ArchiveWriter) returns (ok: bool, seen: map<Digest, Identity>)
    requires writer.Valid() && writer.entries == [] && writer.total == 0
    modifies writer
    ensures writer.Valid()
    ensures ok <==> BaseOk(base) && |base.rows.value| <= MAX_UPLOAD_IMAGES && BaseBytes(base) <= MAX_UPLOAD_BYTES
    ensures ok ==> writer.total == BaseBytes(base)
    ensures ok ==> Samples(writer.entries) == BaseSamples(base) && forall e :: e in writer.entries ==> Filed(e)
    ensures ok ==> Summarizes(seen, BaseSamples(base))
  {
    ok, seen := false, map[];
    if base.rows.None? || base.rows.value == [] { return; }
    hide Filed, Ext, Summarizes, RowOk, CopiedRows, BaseOk, BaseSamples, RowBytes, ArchiveWriter.Valid;
    EmptySummary();
    NothingCopied(base);
    var rows := base.rows.value;
    for i := 0 to |rows|
      invariant writer.Valid() && |writer.entries| == i && writer.total == BytesUpto(base, i)
      invariant CopiedRows(base, writer.entries)
      invariant forall e :: e in writer.entries ==> Filed(e)
      invariant Summarizes(seen, Samples(writer.entries))
    {
      if !RowOk(base, rows[i]) {
        BadRow(base, i);
        return;
      }
      var s := RowSample(base, rows[i]);
      RowParts(base, rows[i]);
      ghost var before := writer.entries;
      BytesGrow(base, i + 1);
      var written, noted := CopySample(s, i, Ext(rows[i].path), RowBytes(base, rows[i]), writer, seen);
      if !written { return; }
      CopiedMore(base, before, writer.entries[i]);
      seen := noted;
    }
    AllCopied(base, writer.entries);
    ok := true;
  }

  ghost predicate CopiedRows(base: Snapshot, entries: seq<Entry>) {
    && base.rows.Some? && |entries| <= |base.rows.value|
    && forall k :: 0 <= k < |entries| ==> RowOk(base, base.rows.value[k]) && entries[k].sample == RowSample(base, base.rows.value[k])
  }

  lemma NothingCopied(base: Snapshot)
    requires base.rows.Some?
    ensures CopiedRows(base, [])
  {
  }

  lemma BadRow(base: Snapshot, i: nat)
    requires base.rows.Some? && i < |base.rows.value| && !RowOk(base, base.rows.value[i])
    ensures !BaseOk(base)
  {
  }

  lemma RowParts(base: Snapshot, row: ManifestRow)
    requires RowOk(base, row)
    ensures SafePart(RowSample(base, row).tag) && IsSplit(RowSample(base, row).split)
    ensures '/' !in Ext(row.path) && '\\' !in Ext(row.path)
  {
    ExtIsTail(row.path);
  }

  lemma CopiedMore(base: Snapshot, entries: seq<Entry>, e: Entry)
    requires CopiedRows(base, entries) && |entries| < |base.rows.value| && RowOk(base, base.rows.value[|entries|])
    requires e.sample == RowSample(base, base.rows.value[|entries|])
    ensures CopiedRows(base, entries + [e])
  {
  }

  lemma AllCopied(base: Snapshot, entries: seq<Entry>)
    requires CopiedRows(base, entries) && |entries| == |base.rows.value| && entries != []
    ensures BaseOk(base) && Samples(entries) == BaseSamples(base)
  {
  }

  /** One turn of the baseline loop. */
  method CopySample(s: Sample, i: nat, ext: string, size: nat, writer: ArchiveWriter, seen: map<Digest, Identity>)
    returns (ok: bool, noted: map<Digest, Identity>)
    requires writer.Valid() && SafePart(s.tag) && IsSplit(s.split) && '/' !in ext && '\\' !in ext
    requires forall e :: e in writer.entries ==> Filed(e)
    requires Summarizes(seen, Samples(writer.entries))
    modifies writer
    ensures writer.Valid()
    ensures ok == (|old(writer.entries)| < MAX_UPLOAD_IMAGES && old(writer.total) + size <= MAX_UPLOAD_BYTES)
    ensures ok ==> writer.total == old(writer.total) + size
    ensures ok ==> writer.entries == old(writer.entries) + [Entry(BaseName(s.split, s.tag, i, ext), s)]
    ensures ok ==> (forall e :: e in writer.entries ==> Filed(e)) && Summarizes(noted, Samples(writer.entries))
  {
    hide Tally, CountOf;
    Noted(seen, Samples(writer.entries), s);
    noted := Note(seen, s);
    ok := writer.Write(BaseName(s.split, s.tag, i, ext), s, size);
    FiledBase(s, i, ext);
    hide Filed, Summarizes, BaseName;
    if ok {
      assert Samples(writer.entries) == Samples(old(writer.entries)) + [s];
    }
  }

  lemma EmptySummary()
    ensures Summarizes(map[], [])
  {
  }

  lemma PaddedDigits(i: nat)
    ensures forall c :: c in Padded(i) ==> '0' <= c <= '9'
  {
    DigitsAreDigits(i);
    assert forall c :: c in Padded(i) ==> c in Digits(i) || c == '0';
  }

  lemma FiledBase(s: Sample, i: nat, ext: string)
    requires SafePart(s.tag) && IsSplit(s.split) && '/' !in ext && '\\' !in ext
    ensures Filed(Entry(BaseName(s.split, s.tag, i, ext), s))
  {
    PaddedDigits(i);
    hide Padded;
    var file := "base-" + Padded(i) + ext;
    assert SafePart(file) by { assert |file| > 2; }
    FileIn(s, file);
    hide Filed;
    assert BaseName(s.split, s.tag, i, ext) == s.split + "/" + s.tag + "/" + file;
  }

  // ---- The incoming loop

  type Groups = map<string, seq<LabeledImage>>

  /** `list` holds one image for each digest of `g`. */
  ghost predicate Lists(list: seq<LabeledImage>, g: set<Digest>) {
    && (forall i, j :: 0 <= i < j < |list| ==> list[i].digest != list[j].digest)
    && (forall im :: im in list ==> im.digest in g)
    && (forall d :: d in g ==> exists im :: im in list && im.digest == d)
  }

  ghost predicate Grouped(groups: Groups, samples: seq<Sample>, images: seq<LabeledImage>) {
    forall tag :: Lists(ListOf(groups, tag), Group(samples, images, tag))
  }

  function ListOf(groups: Groups, tag: string): seq<LabeledImage> {
    if tag in groups then groups[tag] else []
  }

  /** `seen` after the batch `done`: the baseline's answers, and the label of every new digest. */
  ghost predicate Tracks(seen: map<Digest, Identity>, atBase: map<Digest, Identity>, done: seq<LabeledImage>) {
    && (forall d :: d in atBase ==> d in seen && seen[d] == atBase[d])
    && (forall im :: im in done && im.digest !in atBase ==> im.digest in seen && seen[im.digest] == Identity(im.tag, "new"))
    && (forall d :: d in seen && d !in atBase ==> exists im :: im in done && im.digest == d)
  }

  /** The weight of the images of some labels. */
  function WeighTags(images: seq<LabeledImage>, tags: set<string>): nat {
    if images == [] then 0
    else (if images[0].tag in tags then Size(images[0]) else 0) + WeighTags(images[1..], tags)
  }

  predicate AllUnder(list: seq<LabeledImage>, tag: string) { forall im :: im in list ==> ImageOk(im) && im.tag == tag }

  /** No group weighs more than what was sent under its label, or has an image that was not. */
  ghost predicate Fits(groups: Groups, images: seq<LabeledImage>) {
    forall tag :: Weigh(ListOf(groups, tag)) <= WeighTags(images, {tag}) && AllUnder(ListOf(groups, tag), tag)
  }

  lemma {:induction false} WeighMore(images: seq<LabeledImage>, im: LabeledImage)
    ensures Weigh(images + [im]) == Weigh(images) + Size(im)
  {
    if images == [] {
      assert [im][1..] == [];
    } else {
      WeighMore(images[1..], im);
      assert (images + [im])[1..] == images[1..] + [im];
    }
  }

  lemma {:induction false} WeighTagsMore(images: seq<LabeledImage>, im: LabeledImage, tags: set<string>)
    ensures WeighTags(images + [im], tags) == WeighTags(images, tags) + if im.tag in tags then Size(im) else 0
  {
    if images == [] {
      assert [im][1..] == [];
    } else {
      WeighTagsMore(images[1..], im, tags);
      assert (images + [im])[1..] == images[1..] + [im];
    }
  }

  lemma {:induction false} WeighPrefix(images: seq<LabeledImage>, i: nat)
    requires i <= |images|
    ensures Weigh(images[..i]) <= Weigh(images)
  {
    if i > 0 {
      WeighPrefix(images[1..], i - 1);
      assert images[..i][1..] == images[1..][..i - 1];
    }
  }

  /** A group takes the image or leaves it. */
  lemma FitsMore(groups: Groups, done: seq<LabeledImage>, im: LabeledImage)
    requires Fits(groups, done)
    ensures Fits(groups, done + [im])
    ensures ImageOk(im) ==> Fits(groups[im.tag := ListOf(groups, im.tag) + [im]], done + [im])
  {
    var next := groups[im.tag := ListOf(groups, im.tag) + [im]];
    WeighMore(ListOf(groups, im.tag), im);
    forall tag
      ensures Weigh(ListOf(groups, tag)) <= WeighTags(done + [im], {tag})
      ensures Weigh(ListOf(next, tag)) <= WeighTags(done + [im], {tag})
      ensures ImageOk(im) ==> AllUnder(ListOf(next, tag), tag)
    {
      WeighTagsMore(done, im, {tag});
      assert Weigh(ListOf(groups, tag)) <= WeighTags(done, {tag}) && AllUnder(ListOf(groups, tag), tag);
    }
  }

  /** `total` is what the baseline weighs. */
  method Collect(images: seq<LabeledImage>, atBase: map<Digest, Identity>, total: nat, ghost samples: seq<Sample>)
    returns (error: Option<Error>, groups: Groups, duplicates: nat)
    requires Summarizes(atBase, samples) && total <= MAX_UPLOAD_BYTES
    ensures error.None? <==>
      AllOk(images) && NoLeak(samples, images) && OneLabel(images) && total + Weigh(images) <= MAX_UPLOAD_BYTES
    ensures error.None? ==> Fits(groups, images)
    ensures error.None? ==> Grouped(groups, samples, images)
    ensures error.None? ==> duplicates + |Fresh(samples, images)| == |images|
  {
    hide Fault, Tracks, Grouped, Summarizes, Group, NoLeak, OneLabel, Fits, Weigh, ListOf;
    var seen, incoming: nat := atBase, 0;
    error, groups, duplicates := None, map[], 0;
    NothingCollected(samples, atBase);
    for i := 0 to |images|
      invariant AllOk(images[..i]) && NoLeak(samples, images[..i]) && OneLabel(images[..i])
      invariant Tracks(seen, atBase, images[..i])
      invariant Grouped(groups, samples, images[..i])
      invariant duplicates + |Fresh(samples, images[..i])| == i
      invariant Fits(groups, images[..i])
      invariant incoming == Weigh(images[..i]) && total + incoming <= MAX_UPLOAD_BYTES
    {
      ghost var done := images[..i];
      var im := images[i];
      assert images[..i + 1] == done + [im];
      PrefixRefused(samples, images, i + 1);
      error := Fault(im);
      if error.Some? {
        assert im in images && !ImageOk(im);
        return;
      }
      WeighMore(done, im);
      WeighPrefix(images, i + 1);
      FitsMore(groups, done, im);
      incoming := incoming + Size(im);
      if total + incoming > MAX_UPLOAD_BYTES { return Some(Invalid), groups, duplicates; }
      if !Materializes(im) {
        assert im in images && !ImageOk(im);
        return Some(Unavailable), groups, duplicates;
      }
      if im.digest in seen {
        Repeated(samples, done, im, seen, atBase);
        if seen[im.digest].tag != im.tag { return Some(Invalid), groups, duplicates; }
        if seen[im.digest].split == "val" || seen[im.digest].split == "test" { return Some(Invalid), groups, duplicates; }
        RepeatedGroups(samples, done, im, seen, atBase, groups);
        duplicates := duplicates + 1;
      } else {
        Novel(samples, done, im, seen, atBase);
        NovelTracks(done, im, seen, atBase);
        NovelGrouped(samples, done, im, groups);
        seen := seen[im.digest := Identity(im.tag, "new")];
        groups := groups[im.tag := ListOf(groups, im.tag) + [im]];
      }
    }
    assert images[..|images|] == images;
    error := None;
  }

  lemma NothingCollected(samples: seq<Sample>, atBase: map<Digest, Identity>)
    ensures Tracks(atBase, atBase, []) && Grouped(map[], samples, [])
    ensures NoLeak(samples, []) && OneLabel([]) && Fresh(samples, []) == {}
    ensures Fits(map[], []) && Weigh([]) == 0
  {
  }

  /** A refused prefix refuses the whole batch. */
  lemma PrefixRefused(samples: seq<Sample>, images: seq<LabeledImage>, i: nat)
    requires i <= |images|
    ensures NoLeak(samples, images) ==> NoLeak(samples, images[..i])
    ensures OneLabel(images) ==> OneLabel(images[..i])
  {
  }

  /** A digest already seen adds nothing, and its recorded identity decides whether it may be repeated. */
  lemma Repeated(samples: seq<Sample>, done: seq<LabeledImage>, im: LabeledImage,
                 seen: map<Digest, Identity>, atBase: map<Digest, Identity>)
    requires Summarizes(atBase, samples) && Tracks(seen, atBase, done) && im.digest in seen
    requires OneLabel(done) && NoLeak(samples, done) && ImageOk(im)
    ensures Fresh(samples, done + [im]) == Fresh(samples, done)
    ensures (seen[im.digest].tag == im.tag && seen[im.digest].split != "val" && seen[im.digest].split != "test")
            <==> OneLabel(done + [im]) && NoLeak(samples, done + [im])
    ensures seen[im.digest].tag == im.tag ==> Tracks(seen, atBase, done + [im])
  {
    var d, more := im.digest, done + [im];
    assert im in more && forall x :: x in more <==> x in done || x == im;
    assert Answers(atBase, samples, d);
    if d in atBase {
      Judges(atBase, samples, d, im.tag);
      OneLabelOfBase(samples, done, im);
    } else {
      var first :| first in done && first.digest == d;
      assert seen[d] == Identity(first.tag, "new");
      assert first in more;
    }
  }

  lemma RepeatedGroups(samples: seq<Sample>, done: seq<LabeledImage>, im: LabeledImage,
                       seen: map<Digest, Identity>, atBase: map<Digest, Identity>, groups: Groups)
    requires Summarizes(atBase, samples) && Tracks(seen, atBase, done) && im.digest in seen
    requires seen[im.digest].tag == im.tag && Grouped(groups, samples, done)
    ensures Grouped(groups, samples, done + [im])
  {
    assert im in done + [im] && forall x :: x in done + [im] <==> x in done || x == im;
    assert Answers(atBase, samples, im.digest);
    if im.digest !in atBase {
      var first :| first in done && first.digest == im.digest;
      assert seen[im.digest] == Identity(first.tag, "new");
    }
    hide Lists;
    forall tag ensures Lists(ListOf(groups, tag), Group(samples, done + [im], tag)) {
      assert Lists(ListOf(groups, tag), Group(samples, done, tag));
      assert Group(samples, done + [im], tag) == Group(samples, done, tag);
    }
  }

  lemma OneLabelOfBase(samples: seq<Sample>, done: seq<LabeledImage>, im: LabeledImage)
    requires Holds(samples, im.digest) && NoLeak(samples, done) && OneLabel(done)
    ensures Repeatable(samples, im.digest, im.tag) <==> OneLabel(done + [im]) && NoLeak(samples, done + [im])
    ensures Fresh(samples, done + [im]) == Fresh(samples, done)
  {
    var more := done + [im];
    assert im in more && forall x :: x in more <==> x in done || x == im;
    var s :| s in samples && s.digest == im.digest;
    forall x | x in done && x.digest == im.digest ensures s.tag == x.tag {
      assert Repeatable(samples, x.digest, x.tag);
    }
  }

  /** A digest not seen before is absent from the baseline and from the batch so far. */
  lemma Novel(samples: seq<Sample>, done: seq<LabeledImage>, im: LabeledImage,
              seen: map<Digest, Identity>, atBase: map<Digest, Identity>)
    requires Summarizes(atBase, samples) && Tracks(seen, atBase, done) && im.digest !in seen
    requires OneLabel(done) && NoLeak(samples, done)
    ensures !Holds(samples, im.digest) && forall x :: x in done ==> x.digest != im.digest || Holds(samples, x.digest)
    ensures |Fresh(samples, done + [im])| == |Fresh(samples, done)| + 1
    ensures OneLabel(done + [im]) && NoLeak(samples, done + [im])
  {
    var more := done + [im];
    assert im in more && forall x :: x in more <==> x in done || x == im;
    assert Answers(atBase, samples, im.digest);
    assert forall x :: x in done ==> x.digest != im.digest;
    assert Fresh(samples, more) == Fresh(samples, done) + {im.digest};
    hide Tracks, Summarizes;
  }

  lemma NovelTracks(done: seq<LabeledImage>, im: LabeledImage, seen: map<Digest, Identity>, atBase: map<Digest, Identity>)
    requires Tracks(seen, atBase, done) && im.digest !in seen
    ensures Tracks(seen[im.digest := Identity(im.tag, "new")], atBase, done + [im])
  {
    var more := done + [im];
    assert im in more && forall x :: x in more <==> x in done || x == im;
  }

  lemma NovelGrouped(samples: seq<Sample>, done: seq<LabeledImage>, im: LabeledImage, groups: Groups)
    requires !Holds(samples, im.digest) && forall x :: x in done ==> x.digest != im.digest || Holds(samples, x.digest)
    requires Grouped(groups, samples, done)
    ensures Grouped(groups[im.tag := ListOf(groups, im.tag) + [im]], samples, done + [im])
  {
    var more := done + [im];
    assert im in more && forall x :: x in more <==> x in done || x == im;
    hide Lists;
    var next := groups[im.tag := ListOf(groups, im.tag) + [im]];
    forall tag ensures Lists(ListOf(next, tag), Group(samples, more, tag)) {
      assert Lists(ListOf(groups, tag), Group(samples, done, tag));
      if tag == im.tag {
        assert Group(samples, more, tag) == Group(samples, done, tag) + {im.digest};
        Appended(ListOf(groups, tag), Group(samples, done, tag), im);
      } else {
        assert Group(samples, more, tag) == Group(samples, done, tag);
      }
    }
  }

  lemma Appended(list: seq<LabeledImage>, g: set<Digest>, im: LabeledImage)
    requires Lists(list, g) && im.digest !in g
    ensures Lists(list + [im], g + {im.digest})
  {
    var more := list + [im];
    assert im in more && forall x :: x in more <==> x in list || x == im;
    forall i, j | 0 <= i < j < |more| ensures more[i].digest != more[j].digest {
      assert more[i] in list;
    }
    forall d | d in g + {im.digest} ensures exists x :: x in more && x.digest == d {
      if d != im.digest {
        var x :| x in list && x.digest == d;
        assert x in more;
      }
    }
  }
}
