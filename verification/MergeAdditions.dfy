/** The two loops that add training images, and the merge itself. */
module MergeAdditions {
  import opened Options
  import opened Datasets
  import opened SeenImages
  import opened MergeBuild
  import opened MergeWrite
  import opened Sets

  /** The conditions an accepted prefix of the offers has met. */
  ghost predicate Accepted(samples: seq<Sample>, names: seq<string>, done: seq<Addition>) {
    && (forall a :: a in done ==> AdditionOk(a))
    && Leakless(samples, done) && SameLabel(done) && NamesFree(samples, names, done)
  }

  /** What the writer holds after the offers `done`. */
  ghost predicate Merging(samples: seq<Sample>, names: seq<string>, done: seq<Addition>, entries: seq<Entry>) {
    && Copied(samples, names, entries)
    && Appends(samples, done, entries[|samples|..])
  }

  /** SHA-256 sums are 64 hexadecimal digits. */
  predicate Summed(a: Addition) { |a.digest| == 64 }

  /** What decides an offer: the baseline's record, an earlier offer of the same bytes, or a free name. */
  ghost predicate Admits(samples: seq<Sample>, names: seq<string>, done: seq<Addition>, a: Addition) {
    && AdditionOk(a)
    && if Holds(samples, a.digest) then Repeatable(samples, a.digest, a.tag)
       else if OfferedIn(done, a.digest) then AgreesWith(done, a)
       else AddedName(a) !in names && SafePath(AddedName(a))
  }

  /** Admitting offer after offer is the same as accepting the whole list. */
  lemma AcceptedMore(samples: seq<Sample>, names: seq<string>, done: seq<Addition>, a: Addition)
    requires Accepted(samples, names, done)
    ensures Accepted(samples, names, done + [a]) <==> Admits(samples, names, done, a)
  {
    assert a in done + [a] && forall x :: x in done + [a] <==> x in done || x == a;
    hide SafePath, AddedName, AdditionOk, NamesFree, Leakless, SameLabel;
    NamesFreeMore(samples, names, done, a);
    LabelsMore(samples, done, a);
    if !Holds(samples, a.digest) { assert Repeatable(samples, a.digest, a.tag); }
  }

  lemma LabelsMore(samples: seq<Sample>, done: seq<Addition>, a: Addition)
    requires Leakless(samples, done) && SameLabel(done)
    ensures Leakless(samples, done + [a]) <==> Repeatable(samples, a.digest, a.tag)
    ensures SameLabel(done + [a]) <==> AgreesWith(done, a)
    ensures Holds(samples, a.digest) && Repeatable(samples, a.digest, a.tag) ==> AgreesWith(done, a)
    ensures !OfferedIn(done, a.digest) ==> AgreesWith(done, a)
  {
    assert a in done + [a] && forall x :: x in done + [a] <==> x in done || x == a;
    if s :| s in samples && s.digest == a.digest {
      assert forall x :: x in done && x.digest == a.digest ==> Repeatable(samples, x.digest, x.tag);
    }
  }

  predicate AgreesWith(done: seq<Addition>, a: Addition) {
    forall x :: x in done && x.digest == a.digest ==> x.tag == a.tag
  }

  lemma NamesFreeMore(samples: seq<Sample>, names: seq<string>, done: seq<Addition>, a: Addition)
    requires NamesFree(samples, names, done)
    ensures NamesFree(samples, names, done + [a]) <==>
      Holds(samples, a.digest) || OfferedIn(done, a.digest) || (AddedName(a) !in names && SafePath(AddedName(a)))
  {
    var more := done + [a];
    hide SafePath, AddedName, OfferedIn, Holds;
    assert forall i :: 0 <= i <= |done| ==> more[..i] == done[..i];
    assert more[|done|] == a && done[..|done|] == done;
  }

  lemma AcceptedPrefix(samples: seq<Sample>, names: seq<string>, offers: seq<Addition>, i: nat)
    requires i <= |offers| && Accepted(samples, names, offers)
    ensures Accepted(samples, names, offers[..i])
  {
    hide SafePath, AddedName, OfferedIn, Holds;
    assert forall j :: 0 <= j <= i ==> offers[..i][..j] == offers[..j];
  }

  // ---- Names of additions

  lemma {:induction false} FirstSlash(a: string, b: string, x: string, y: string)
    requires '/' !in a && '/' !in b && a + "/" + x == b + "/" + y
    ensures a == b && x == y
  {
    assert (a + "/" + x)[0] == (b + "/" + y)[0];
    if a == "" || b == "" {
      assert a == "" && b == "";
      SameStart("/", x, "/", y);
    } else {
      assert (a + "/" + x)[1..] == a[1..] + "/" + x;
      assert (b + "/" + y)[1..] == b[1..] + "/" + y;
      FirstSlash(a[1..], b[1..], x, y);
    }
  }

  lemma SameStart(a: string, x: string, b: string, y: string)
    requires |a| == |b| && a + x == b + y
    ensures a == b && x == y
  {
    assert a == (a + x)[..|a|] && b == (b + y)[..|b|];
    assert x == (a + x)[|a|..] && y == (b + y)[|b|..];
  }

  /** Additions with different digests get different names. */
  lemma NamesApart(a: Addition, b: Addition)
    requires SafePart(a.tag) && SafePart(b.tag) && Summed(a) && Summed(b) && AddedName(a) == AddedName(b)
    ensures a.digest == b.digest
  {
    hide Lower, Ext;
    var s, t := Lower(Ext(a.filename)), Lower(Ext(b.filename));
    Spelled("train/", a.tag, "/", "add-", a.digest, s);
    Spelled("train/", b.tag, "/", "add-", b.digest, t);
    SameStart("train/", a.tag + "/" + ("add-" + (a.digest + s)), "train/", b.tag + "/" + ("add-" + (b.digest + t)));
    FirstSlash(a.tag, b.tag, "add-" + (a.digest + s), "add-" + (b.digest + t));
    SameStart("add-", a.digest + s, "add-", b.digest + t);
    SameStart(a.digest, s, b.digest, t);
  }

  lemma Spelled(train: string, tag: string, slash: string, add: string, d: string, ext: string)
    requires "/add-" == slash + add
    ensures train + tag + "/add-" + d + ext == train + (tag + slash + (add + (d + ext)))
  {
  }

  // ---- One offer

  lemma SamplesSplit(samples: seq<Sample>, names: seq<string>, entries: seq<Entry>)
    requires Copied(samples, names, entries)
    ensures Samples(entries) == samples + Samples(entries[|samples|..])
  {
    assert entries == entries[..|samples|] + entries[|samples|..];
  }

  lemma InSamples(es: seq<Entry>, s: Sample)
    ensures s in Samples(es) <==> exists e :: e in es && e.sample == s
  {
    if e :| e in es && e.sample == s {
      var k :| 0 <= k < |es| && es[k] == e;
      assert Samples(es)[k] == s;
    }
  }

  lemma SamplesOf(samples: seq<Sample>, names: seq<string>, entries: seq<Entry>, s: Sample)
    requires Copied(samples, names, entries)
    ensures s in Samples(entries) <==> s in samples || exists e :: e in entries[|samples|..] && e.sample == s
  {
    SamplesSplit(samples, names, entries);
    InSamples(entries[|samples|..], s);
  }

  /** The archive holds a digest when the baseline does, or when an offer brought it in. */
  lemma HeldOrOffered(samples: seq<Sample>, names: seq<string>, done: seq<Addition>, entries: seq<Entry>, d: Digest)
    requires Merging(samples, names, done, entries)
    ensures Holds(Samples(entries), d) <==> Holds(samples, d) || OfferedIn(done, d)
  {
    var more := entries[|samples|..];
    if s :| s in Samples(entries) && s.digest == d {
      SamplesOf(samples, names, entries, s);
      if s !in samples {
        var e :| e in more && e.sample == s;
        assert d in Novelties(samples, done);
      }
    }
    if s :| s in samples && s.digest == d {
      SamplesOf(samples, names, entries, s);
    } else if OfferedIn(done, d) {
      assert d in Novelties(samples, done);
      var e :| e in more && e.sample.digest == d;
      SamplesOf(samples, names, entries, e.sample);
    }
  }

  /** A baseline digest keeps the baseline's labels. */
  lemma HeldLabels(samples: seq<Sample>, names: seq<string>, done: seq<Addition>, entries: seq<Entry>, d: Digest, tag: string)
    requires Merging(samples, names, done, entries) && Holds(samples, d)
    ensures AllTagged(Samples(entries), d, tag) <==> AllTagged(samples, d, tag)
  {
    forall s: Sample | s.digest == d ensures s in Samples(entries) <==> s in samples {
      SamplesOf(samples, names, entries, s);
      if e :| e in entries[|samples|..] && e.sample == s {
        assert e.sample.digest in Novelties(samples, done);
      }
    }
  }

  /** A digest an earlier offer brought in has that offer's label. */
  lemma OfferedLabels(samples: seq<Sample>, names: seq<string>, done: seq<Addition>, entries: seq<Entry>, d: Digest, tag: string)
    requires Merging(samples, names, done, entries) && SameLabel(done) && !Holds(samples, d) && OfferedIn(done, d)
    ensures AllTagged(Samples(entries), d, tag) <==> forall x :: x in done && x.digest == d ==> x.tag == tag
  {
    assert d in Novelties(samples, done);
    var e :| e in entries[|samples|..] && e.sample.digest == d;
    SamplesOf(samples, names, entries, e.sample);
    var first :| first in done && e == Entry(AddedName(first), Sample(first.tag, "train", first.digest));
    forall s | s in Samples(entries) && s.digest == d ensures s.tag == e.sample.tag {
      SamplesOf(samples, names, entries, s);
      var other :| other in entries[|samples|..] && other.sample == s;
      assert FromOffer(done, other);
    }
  }

  lemma NameOfAddition(done: seq<Addition>, e: Entry, a: Addition)
    requires FromOffer(done, e) && !OfferedIn(done, a.digest)
    requires (forall x :: x in done ==> Summed(x) && AdditionOk(x)) && Summed(a) && AdditionOk(a)
    ensures e.name != AddedName(a)
  {
    hide AddedName;
    var x :| x in done && e == Entry(AddedName(x), Sample(x.tag, "train", x.digest));
    if AddedName(x) == AddedName(a) { NamesApart(a, x); }
  }

  /** A new digest's name can only be taken by a baseline file. */
  lemma NameTakenByBase(samples: seq<Sample>, names: seq<string>, done: seq<Addition>, entries: seq<Entry>, a: Addition)
    requires Merging(samples, names, done, entries) && !OfferedIn(done, a.digest)
    requires (forall x :: x in done ==> Summed(x) && AdditionOk(x)) && Summed(a) && AdditionOk(a)
    ensures (exists e :: e in entries && e.name == AddedName(a)) <==> AddedName(a) in names
  {
    var n := |samples|;
    forall e | e in entries[n..] ensures e.name != AddedName(a) {
      NameOfAddition(done, e, a);
    }
    assert entries == entries[..n] + entries[n..];
    hide AddedName, AdditionOk, FromOffer, OneEach, SafePath;
    if AddedName(a) in names {
      var k :| 0 <= k < n && names[k] == AddedName(a);
      assert entries[k].name == names[k] && entries[k] in entries;
    } else {
      assert forall e :: e in entries[..n] ==> e.name in names;
    }
  }

  lemma AppendsRepeat(samples: seq<Sample>, done: seq<Addition>, more: seq<Entry>, a: Addition)
    requires Appends(samples, done, more) && (Holds(samples, a.digest) || OfferedIn(done, a.digest))
    ensures Appends(samples, done + [a], more) && Novelties(samples, done + [a]) == Novelties(samples, done)
  {
    assert a in done + [a] && forall x :: x in done + [a] <==> x in done || x == a;
    assert Novelties(samples, done + [a]) == Novelties(samples, done);
    hide AddedName;
    forall e | e in more ensures FromOffer(done + [a], e) {
      assert FromOffer(done, e);
    }
  }

  lemma NoveltiesGrow(samples: seq<Sample>, done: seq<Addition>, a: Addition)
    requires !Holds(samples, a.digest) && !OfferedIn(done, a.digest)
    ensures a.digest !in Novelties(samples, done)
    ensures Novelties(samples, done + [a]) == Novelties(samples, done) + {a.digest}
  {
    assert a in done + [a] && forall x :: x in done + [a] <==> x in done || x == a;
  }

  lemma OneEachAlone(e: Entry)
    ensures OneEach({e.sample.digest}, [e])
  {
    assert e in [e] && |{e.sample.digest}| == 1;
    assert Archived([e], e.sample.digest);
  }

  lemma AppendsNew(samples: seq<Sample>, done: seq<Addition>, more: seq<Entry>, a: Addition)
    requires Appends(samples, done, more) && !Holds(samples, a.digest) && !OfferedIn(done, a.digest)
    ensures Appends(samples, done + [a], more + [Entry(AddedName(a), Sample(a.tag, "train", a.digest))])
    ensures |Novelties(samples, done + [a])| == |Novelties(samples, done)| + 1
  {
    hide AddedName;
    var e := Entry(AddedName(a), Sample(a.tag, "train", a.digest));
    NoveltiesGrow(samples, done, a);
    OneEachAlone(e);
    hide Holds, OfferedIn, Novelties;
    OneEachUnion(Novelties(samples, done), more, {a.digest}, [e]);
    hide OneEach;
    assert a in done + [a];
    forall x | x in more + [e] ensures FromOffer(done + [a], x) {
      if x != e {
        assert FromOffer(done, x);
        var y :| y in done && x == Entry(AddedName(y), Sample(y.tag, "train", y.digest));
        assert y in done + [a];
      }
    }
  }

  /** What `write` answers to an offer, in terms of the baseline and the offers so far. */
  lemma OfferDecided(samples: seq<Sample>, names: seq<string>, done: seq<Addition>, entries: seq<Entry>, a: Addition,
                     evaluation: set<Digest>)
    requires Merging(samples, names, done, entries) && Accepted(samples, names, done) && AdditionOk(a)
    requires forall d :: d in evaluation <==> Evaluated(samples, d)
    requires Summed(a) && forall x :: x in done ==> Summed(x)
    ensures Admits(samples, names, done, a) <==>
      if a.digest in evaluation then false
      else if Holds(Samples(entries), a.digest) then AllTagged(Samples(entries), a.digest, a.tag)
      else SafePath(AddedName(a)) && !exists e :: e in entries && e.name == AddedName(a)
  {
    HeldOrOffered(samples, names, done, entries, a.digest);
    if Holds(samples, a.digest) {
      HeldLabels(samples, names, done, entries, a.digest, a.tag);
    } else if OfferedIn(done, a.digest) {
      OfferedLabels(samples, names, done, entries, a.digest, a.tag);
    } else {
      NameTakenByBase(samples, names, done, entries, a);
    }
    hide AddedName, SafePath, Merging, Accepted;
  }

  /** What `write` leaves behind when it takes an offer. */
  lemma OfferTaken(samples: seq<Sample>, names: seq<string>, done: seq<Addition>, entries: seq<Entry>, a: Addition)
    requires Merging(samples, names, done, entries)
    ensures if Holds(Samples(entries), a.digest)
      then Merging(samples, names, done + [a], entries)
           && Novelties(samples, done + [a]) == Novelties(samples, done)
      else Merging(samples, names, done + [a], entries + [Entry(AddedName(a), Sample(a.tag, "train", a.digest))])
           && |Novelties(samples, done + [a])| == |Novelties(samples, done)| + 1
    ensures |entries| == |samples| + |Novelties(samples, done)|
  {
    HeldOrOffered(samples, names, done, entries, a.digest);
    var more := entries[|samples|..];
    if Holds(Samples(entries), a.digest) {
      AppendsRepeat(samples, done, more, a);
    } else {
      AppendsNew(samples, done, more, a);
      var e := Entry(AddedName(a), Sample(a.tag, "train", a.digest));
      hide Appends, AddedName, Novelties;
      assert (entries + [e])[|samples|..] == more + [e];
      assert (entries + [e])[..|samples|] == entries[..|samples|];
    }
  }

  /** The `add` closure. */
  method Add(a: Addition, w: MergeWriter, ghost samples: seq<Sample>, ghost names: seq<string>, ghost held: nat, ghost done: seq<Addition>)
    returns (error: Option<Error>)
    requires w.Valid() && Merging(samples, names, done, w.entries) && Accepted(samples, names, done)
    requires w.total == held + AddedBytes(samples, done)
    requires forall d :: d in w.evaluation <==> Evaluated(samples, d)
    requires Summed(a) && forall x :: x in done ==> Summed(x)
    modifies w
    ensures w.Valid() && w.evaluation == old(w.evaluation)
    ensures error.None? <==>
      Admits(samples, names, done, a) && |samples| + |Novelties(samples, done + [a])| <= MAX_UPLOAD_IMAGES
      && held + AddedBytes(samples, done + [a]) <= MAX_UPLOAD_BYTES
    ensures error.None? ==> w.total == held + AddedBytes(samples, done + [a])
    ensures error.None? ==> Merging(samples, names, done + [a], w.entries)
    ensures error.None? ==> w.added - |w.entries| == old(w.added - |w.entries|)
    ensures error.None? ==> w.added + w.duplicates == old(w.added + w.duplicates) + 1
  {
    if !AdditionOk(a) { return Some(InvalidArchive); }
    OfferDecided(samples, names, done, w.entries, a, w.evaluation);
    OfferTaken(samples, names, done, w.entries, a);
    HeldOrOffered(samples, names, done, w.entries, a.digest);
    AddedBytesMore(samples, done, a);
    AddedIsFiled(a);
    hide AddedBytes, OfferedIn, Admits, Accepted, Merging, Novelties, AddedName, SafePath, Labels, Named, Counted, Holds, AllTagged, Evaluated, Filed;
    error := w.Write(AddedName(a), Sample(a.tag, "train", a.digest), a.size, true);
  }

  lemma AddedBytesMore(samples: seq<Sample>, done: seq<Addition>, a: Addition)
    ensures AddedBytes(samples, done + [a]) ==
      AddedBytes(samples, done) + if Holds(samples, a.digest) || OfferedIn(done, a.digest) then 0 else a.size
  {
    assert (done + [a])[..|done|] == done;
  }

  lemma {:induction false} AddedBytesGrow(samples: seq<Sample>, offers: seq<Addition>, i: nat)
    requires i <= |offers|
    ensures AddedBytes(samples, offers[..i]) <= AddedBytes(samples, offers)
  {
    if i == |offers| {
      assert offers[..i] == offers;
    } else {
      AddedBytesGrow(samples, offers[..|offers| - 1], i);
      assert offers[..|offers| - 1][..i] == offers[..i];
    }
  }

  lemma AddedIsFiled(a: Addition)
    ensures Folder(Sample(a.tag, "train", a.digest)) <= AddedName(a)
  {
    hide Lower, Ext;
    assert AddedName(a) == Folder(Sample(a.tag, "train", a.digest)) + ("add-" + a.digest + Lower(Ext(a.filename)));
  }

  // ---- The merge

  /** The state of the merge after some prefix of the offers, whichever loop it is in. */
  ghost predicate Underway(w: MergeWriter, samples: seq<Sample>, names: seq<string>, held: nat, done: seq<Addition>)
    reads w
  {
    && w.Valid() && Merging(samples, names, done, w.entries) && Accepted(samples, names, done)
    && (forall d :: d in w.evaluation <==> Evaluated(samples, d))
    && w.added == |w.entries| - |samples| && w.added + w.duplicates == |done|
    && w.total == held + AddedBytes(samples, done)
    && forall x :: x in done ==> Summed(x)
  }

  /** The list of all offers passes: what the two loops decide together. */
  ghost predicate Passes(samples: seq<Sample>, names: seq<string>, held: nat, offers: seq<Addition>) {
    Accepted(samples, names, offers) && |samples| + |Novelties(samples, offers)| <= MAX_UPLOAD_IMAGES
    && held + AddedBytes(samples, offers) <= MAX_UPLOAD_BYTES
  }

  /** One turn of either loop. */
  method Offer(a: Addition, w: MergeWriter, ghost samples: seq<Sample>, ghost names: seq<string>, ghost held: nat, ghost done: seq<Addition>)
    returns (error: Option<Error>)
    requires Underway(w, samples, names, held, done) && Summed(a)
    modifies w
    ensures error.None? <==> Passes(samples, names, held, done + [a])
    ensures error.None? ==> Underway(w, samples, names, held, done + [a])
  {
    hide Accepted, Merging, Novelties, Evaluated, Admits, MergeWriter.Valid;
    AcceptedMore(samples, names, done, a);
    error := Add(a, w, samples, names, held, done);
  }

  /** A list is refused as soon as one of its prefixes is. */
  lemma Stuck(samples: seq<Sample>, names: seq<string>, held: nat, offers: seq<Addition>, i: nat)
    requires i <= |offers| && !Passes(samples, names, held, offers[..i])
    ensures !Passes(samples, names, held, offers)
  {
    if Accepted(samples, names, offers) { AcceptedPrefix(samples, names, offers, i); }
    AddedBytesGrow(samples, offers, i);
    Smaller(Novelties(samples, offers[..i]), Novelties(samples, offers));
  }

  lemma OffersPrefix(uploads: seq<Upload>, feedback: seq<Feedback>, i: nat, j: nat)
    requires SourcesOk(uploads, feedback) && i <= |uploads| && j <= |feedback| && (j > 0 ==> i == |uploads|)
    ensures SourcesOk(uploads[..i], feedback[..j])
    ensures Offers(uploads, feedback)[..i + j] == Offers(uploads[..i], feedback[..j])
  {
  }

  method AddUploads(uploads: seq<Upload>, w: MergeWriter, ghost samples: seq<Sample>, ghost names: seq<string>, ghost held: nat)
    returns (error: Option<Error>)
    requires Underway(w, samples, names, held, []) && forall u :: u in uploads ==> |u.digest| == 64
    modifies w
    ensures error.None? <==> SourcesOk(uploads, []) && Passes(samples, names, held, Offers(uploads, []))
    ensures error.None? ==> Underway(w, samples, names, held, Offers(uploads, []))
  {
    hide Underway, Passes, UploadFault;
    AtStart(w, samples, names, held, Offers([], []));
    for i := 0 to |uploads|
      invariant SourcesOk(uploads[..i], [])
      invariant Underway(w, samples, names, held, Offers(uploads[..i], []))
      invariant Passes(samples, names, held, Offers(uploads[..i], []))
    {
      var u := uploads[i];
      error := UploadFault(u);
      if error.Some? {
        assert u in uploads;
        return;
      }
      ghost var done := Offers(uploads[..i], []);
      assert SourcesOk(uploads[..i + 1], []);
      assert Offers(uploads[..i + 1], []) == done + [Offered(u)];
      error := Offer(Offered(u), w, samples, names, held, done);
      if error.Some? {
        if SourcesOk(uploads, []) {
          OffersPrefix(uploads, [], i + 1, 0);
          Stuck(samples, names, held, Offers(uploads, []), i + 1);
        }
        return;
      }
    }
    assert uploads[..|uploads|] == uploads;
    error := None;
  }

  method AddFeedback(ghost uploads: seq<Upload>, feedback: seq<Feedback>, w: MergeWriter,
                     ghost samples: seq<Sample>, ghost names: seq<string>, ghost held: nat)
    returns (error: Option<Error>)
    requires SourcesOk(uploads, []) && Underway(w, samples, names, held, Offers(uploads, [])) && Passes(samples, names, held, Offers(uploads, []))
    requires forall f :: f in feedback ==> |f.digest| == 64
    modifies w
    ensures error.None? <==> SourcesOk(uploads, feedback) && Passes(samples, names, held, Offers(uploads, feedback))
    ensures error.None? ==> Underway(w, samples, names, held, Offers(uploads, feedback))
  {
    hide Underway, Passes, UploadFault;
    for j := 0 to |feedback|
      invariant SourcesOk(uploads, feedback[..j])
      invariant Underway(w, samples, names, held, Offers(uploads, feedback[..j]))
      invariant Passes(samples, names, held, Offers(uploads, feedback[..j]))
    {
      var f := feedback[j];
      if !f.available { return Some(Unavailable); }
      if !ImageSize(f.size) { return Some(InvalidArchive); }
      ghost var done := Offers(uploads, feedback[..j]);
      assert SourcesOk(uploads, feedback[..j + 1]);
      assert Offers(uploads, feedback[..j + 1]) == done + [Reviewed(f)];
      error := Offer(Reviewed(f), w, samples, names, held, done);
      if error.Some? {
        if SourcesOk(uploads, feedback) {
          OffersPrefix(uploads, feedback, |uploads|, j + 1);
          assert uploads[..|uploads|] == uploads;
          Stuck(samples, names, held, Offers(uploads, feedback), |uploads| + j + 1);
        }
        return;
      }
    }
    assert feedback[..|feedback|] == feedback;
    error := None;
  }

  lemma AtStart(w: MergeWriter, samples: seq<Sample>, names: seq<string>, held: nat, none: seq<Addition>)
    requires Underway(w, samples, names, held, []) && none == []
    ensures Passes(samples, names, held, none) && Underway(w, samples, names, held, none)
  {
  }

  lemma NothingOffered(w: MergeWriter, samples: seq<Sample>, names: seq<string>, held: nat)
    requires w.Valid() && Copied(samples, names, w.entries) && |w.entries| == |samples|
    requires w.added == 0 && w.duplicates == 0 && w.total == held && forall d :: d in w.evaluation <==> Evaluated(samples, d)
    ensures Underway(w, samples, names, held, [])
  {
  }

  lemma MergeDone(w: MergeWriter, base: Snapshot, uploads: seq<Upload>, feedback: seq<Feedback>)
    requires BaseMergeable(base) && SourcesOk(uploads, feedback)
    requires Underway(w, BaseSamples(base), BaseNames(base), BaseBytes(base), Offers(uploads, feedback))
    ensures w.added == |Novelties(BaseSamples(base), Offers(uploads, feedback))|
    ensures MergedFrom(BaseSamples(base), BaseNames(base), Offers(uploads, feedback),
                       Merged(w.entries, w.counts, w.added, w.duplicates))
  {
  }

  method Merge(base: Snapshot, uploads: seq<Upload>, feedback: seq<Feedback>) returns (r: Result<Merged>)
    requires forall u :: u in uploads ==> |u.digest| == 64
    requires forall f :: f in feedback ==> |f.digest| == 64
    ensures r.Ok? <==> Mergeable(base, uploads, feedback)
    ensures r.Ok? ==> MergedFrom(BaseSamples(base), BaseNames(base), Offers(uploads, feedback), r.value)
  {
    var w := new MergeWriter();
    var error := CopyBase(base, w);
    if error.Some? { return Err(error.value); }
    ghost var samples, names, held := BaseSamples(base), BaseNames(base), BaseBytes(base);
    NothingOffered(w, samples, names, held);
    hide BaseMergeable, Underway, Accepted, UploadFault, MergedFrom, MergeWriter.Valid, Merging;
    error := AddUploads(uploads, w, samples, names, held);
    if error.Some? {
      UploadsRefused(base, uploads, feedback);
      return Err(error.value);
    }
    error := AddFeedback(uploads, feedback, w, samples, names, held);
    if error.Some? { return Err(error.value); }
    MergeDone(w, base, uploads, feedback);
    if w.added == 0 { return Err(Invalid); }
    r := Ok(Merged(w.entries, w.counts, w.added, w.duplicates));
  }

  lemma UploadsRefused(base: Snapshot, uploads: seq<Upload>, feedback: seq<Feedback>)
    requires BaseMergeable(base)
    requires !(SourcesOk(uploads, []) && Passes(BaseSamples(base), BaseNames(base), BaseBytes(base), Offers(uploads, [])))
    ensures !Mergeable(base, uploads, feedback)
  {
    if SourcesOk(uploads, feedback) {
      OffersPrefix(uploads, feedback, |uploads|, 0);
      assert uploads[..|uploads|] == uploads && feedback[..0] == [];
      Stuck(BaseSamples(base), BaseNames(base), BaseBytes(base), Offers(uploads, feedback), |uploads|);
    }
  }
}
