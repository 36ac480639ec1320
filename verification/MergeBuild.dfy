/** The merge: a published version plus uploaded or reviewed training images. */
module MergeBuild {
  import opened Options
  import opened Datasets
  import opened SeenImages

  /** A member of the uploaded archive. */
  datatype Upload = Upload(name: string, directory: bool, digest: Digest, size: nat, readable: bool)

  /** A reviewed image; `contentType` is there when it lies in the object store. */
  datatype Feedback = Feedback(tag: string, inputRef: string, contentType: Option<string>, digest: Digest, size: nat, available: bool)

  /** One image offered to the training split. */
  datatype Addition = Addition(tag: string, filename: string, digest: Digest, size: nat)

  datatype Merged = Merged(entries: seq<Entry>, counts: map<(string, string), nat>, added: nat, duplicates: nat)

  // ---- What is offered

  predicate Evaluation(part: string) { part == "val" || part == "test" }

  /** The error an uploaded member meets before its image is looked at. */
  function UploadFault(u: Upload): Option<Error> {
    var parts := Parts(u.name);
    if !SafePath(u.name) || u.directory || |parts| < 2 then Some(InvalidArchive)
    else if Evaluation(parts[0]) then Some(Invalid)
    else if parts[0] == "train" && |parts| < 3 then Some(InvalidArchive)
    else if !u.readable || !ImageSize(u.size) then Some(InvalidArchive)
    else None
  }

  function UploadTag(u: Upload): string
    requires UploadFault(u).None?
  {
    var parts := Parts(u.name);
    if parts[0] == "train" then parts[1] else parts[0]
  }

  function Offered(u: Upload): Addition
    requires UploadFault(u).None?
  {
    Addition(UploadTag(u), u.name, u.digest, u.size)
  }

  function ReviewName(f: Feedback): string {
    if f.contentType.None? || ImageExtension(f.inputRef) then f.inputRef
    else if f.contentType.value == "image/png" then "review.png"
    else if f.contentType.value == "image/jpeg" then "review.jpg"
    else if f.contentType.value == "image/webp" then "review.webp"
    else if f.contentType.value == "image/bmp" then "review.bmp"
    else f.inputRef
  }

  function Reviewed(f: Feedback): Addition { Addition(f.tag, ReviewName(f), f.digest, f.size) }

  predicate SourcesOk(uploads: seq<Upload>, feedback: seq<Feedback>) {
    && (forall u :: u in uploads ==> UploadFault(u).None?)
    && (forall f :: f in feedback ==> f.available && ImageSize(f.size))
  }

  /** Everything offered: the uploads in archive order, then the reviewed images. */
  function Offers(uploads: seq<Upload>, feedback: seq<Feedback>): (a: seq<Addition>)
    requires SourcesOk(uploads, feedback)
    ensures |a| == |uploads| + |feedback|
  {
    seq(|uploads|, k requires 0 <= k < |uploads| => Offered(uploads[k]))
    + seq(|feedback|, k requires 0 <= k < |feedback| => Reviewed(feedback[k]))
  }

  // ---- What is accepted

  /** A baseline image keeps its path when that path already names its split and label. */
  function KeptName(s: Sample, path: string, i: nat): string {
    if Folder(s) <= path then path else BaseName(s.split, s.tag, i, Lower(Ext(path)))
  }

  function AddedName(a: Addition): string {
    "train/" + a.tag + "/add-" + a.digest + Lower(Ext(a.filename))
  }

  ghost predicate MembersSafe(base: Snapshot) { forall n :: n in base.members ==> SafePath(n) }

  function BaseNames(base: Snapshot): (names: seq<string>)
    requires BaseOk(base)
    ensures |names| == |base.rows.value|
  {
    seq(|base.rows.value|, i requires 0 <= i < |base.rows.value| =>
      KeptName(RowSample(base, base.rows.value[i]), base.rows.value[i].path, i))
  }

  predicate Different(names: seq<string>) { forall i, j :: 0 <= i < j < |names| ==> names[i] != names[j] }

  ghost predicate BaseMergeable(base: Snapshot) {
    && MembersSafe(base) && BaseOk(base) && |base.rows.value| <= MAX_UPLOAD_IMAGES && BaseBytes(base) <= MAX_UPLOAD_BYTES
    && Different(BaseNames(base)) && forall n :: n in BaseNames(base) ==> SafePath(n)
  }

  predicate AdditionOk(a: Addition) { SafePart(a.tag) && ImageExtension(a.filename) }

  predicate Leakless(samples: seq<Sample>, offers: seq<Addition>) {
    forall a :: a in offers ==> Repeatable(samples, a.digest, a.tag)
  }

  predicate SameLabel(offers: seq<Addition>) {
    forall a, b :: a in offers && b in offers && a.digest == b.digest ==> a.tag == b.tag
  }

  /** The digests the baseline does not hold. */
  function Novelties(samples: seq<Sample>, offers: seq<Addition>): set<Digest> {
    set a | a in offers && !Holds(samples, a.digest) :: a.digest
  }

  predicate OfferedIn(offers: seq<Addition>, d: Digest) { exists a :: a in offers && a.digest == d }

  /** The bytes the offers add: those of the first offer of each digest the baseline does not hold. */
  function AddedBytes(samples: seq<Sample>, offers: seq<Addition>): nat {
    if offers == [] then 0
    else
      var before, a := offers[..|offers| - 1], offers[|offers| - 1];
      AddedBytes(samples, before) + if Holds(samples, a.digest) || OfferedIn(before, a.digest) then 0 else a.size
  }

  /** The first offer of each new digest is the one stored; its name must be free and safe. */
  predicate NamesFree(samples: seq<Sample>, taken: seq<string>, offers: seq<Addition>) {
    forall i :: 0 <= i < |offers| && !Holds(samples, offers[i].digest) && !OfferedIn(offers[..i], offers[i].digest) ==>
      AddedName(offers[i]) !in taken && SafePath(AddedName(offers[i]))
  }

  /** Exactly the merges that go through. */
  ghost predicate Mergeable(base: Snapshot, uploads: seq<Upload>, feedback: seq<Feedback>) {
    && BaseMergeable(base) && SourcesOk(uploads, feedback)
    && var samples, offers := BaseSamples(base), Offers(uploads, feedback);
      && (forall a :: a in offers ==> AdditionOk(a))
      && Leakless(samples, offers) && SameLabel(offers) && NamesFree(samples, BaseNames(base), offers)
      && |samples| + |Novelties(samples, offers)| <= MAX_UPLOAD_IMAGES
      && BaseBytes(base) + AddedBytes(samples, offers) <= MAX_UPLOAD_BYTES
      && Novelties(samples, offers) != {}
  }

  // ---- What is written

  /** Every baseline sample unchanged, then each new digest once, in train, under the label it was offered with. */
  ghost predicate MergedFrom(samples: seq<Sample>, names: seq<string>, offers: seq<Addition>, out: Merged) {
    && |names| == |samples| <= |out.entries|
    && Samples(out.entries[..|samples|]) == samples
    && (forall k :: 0 <= k < |samples| ==> out.entries[k].name == names[k])
    && (forall i, j :: 0 <= i < j < |out.entries| ==> out.entries[i].name != out.entries[j].name)
    && (forall e :: e in out.entries ==> Filed(e))
    && Appends(samples, offers, out.entries[|samples|..])
    && out.added == |out.entries| - |samples| && out.added + out.duplicates == |offers|
    && (forall split, tag :: CountOf(out.counts, split, tag) == Tally(out.entries, split, tag))
  }

  ghost predicate Appends(samples: seq<Sample>, offers: seq<Addition>, more: seq<Entry>) {
    && (forall e :: e in more ==> FromOffer(offers, e))
    && OneEach(Novelties(samples, offers), more)
  }

  ghost predicate FromOffer(offers: seq<Addition>, e: Entry) {
    exists a :: a in offers && e == Entry(AddedName(a), Sample(a.tag, "train", a.digest))
  }
}
