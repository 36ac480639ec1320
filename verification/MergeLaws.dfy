/** Where the images of a merge end up, by the names they were uploaded under. */
module MergeLaws {
  import opened Options
  import opened Datasets
  import opened SeenImages
  import opened MergeBuild

  /** `name` asks for the label: it lies in its directory, under train or at the top. */
  predicate NamedFor(name: string, tag: string) {
    && SafePart(tag)
    && ("train/" + tag + "/" <= name || (tag !in {"train", "val", "test"} && tag + "/" <= name))
  }

  lemma NameGivesTag(u: Upload, tag: string)
    requires UploadFault(u).None? && NamedFor(u.name, tag)
    ensures UploadTag(u) == tag
  {
    if "train/" + tag + "/" <= u.name {
      var rest := u.name[|"train/" + tag + "/"|..];
      assert u.name == "train" + "/" + (tag + "/" + rest);
      FirstPart("train", tag + "/" + rest);
      FirstPart(tag, rest);
    } else {
      var rest := u.name[|tag + "/"|..];
      assert u.name == tag + "/" + rest;
      FirstPart(tag, rest);
    }
  }

  /** The digest is archived once, for training, under the label. */
  ghost predicate FiledAs(entries: seq<Entry>, d: Digest, tag: string) {
    && (exists k :: 0 <= k < |entries| && entries[k].sample.digest == d)
    && (forall k :: 0 <= k < |entries| && entries[k].sample.digest == d ==> entries[k].sample == Sample(tag, "train", d))
    && (forall i, j :: 0 <= i < j < |entries| && entries[i].sample.digest == d ==> entries[j].sample.digest != d)
  }

  lemma AddedIsFiled(samples: seq<Sample>, offers: seq<Addition>, more: seq<Entry>, a: Addition)
    requires Appends(samples, offers, more) && SameLabel(offers) && a in offers && !Holds(samples, a.digest)
    ensures FiledAs(more, a.digest, a.tag)
  {
    var d := a.digest;
    assert d in Novelties(samples, offers) && Archived(more, d);
    hide AddedName, Novelties;
    var e :| e in more && e.sample.digest == d;
    forall k | 0 <= k < |more| && more[k].sample.digest == d ensures more[k].sample == Sample(a.tag, "train", d) {
      assert more[k] in more && FromOffer(offers, more[k]);
    }
    hide FromOffer, SameLabel, Archived;
  }

  /** One offer of a digest that the baseline does not hold decides where it is filed. */
  lemma OfferIsFiled(samples: seq<Sample>, offers: seq<Addition>, entries: seq<Entry>, a: Addition)
    requires |samples| <= |entries| && Samples(entries[..|samples|]) == samples
    requires Appends(samples, offers, entries[|samples|..]) && SameLabel(offers)
    requires a in offers && !Holds(samples, a.digest)
    ensures FiledAs(entries, a.digest, a.tag)
  {
    var n, d, more := |samples|, a.digest, entries[|samples|..];
    AddedIsFiled(samples, offers, more, a);
    NotInBaseline(samples, entries, d);
    hide Appends, SameLabel, Holds;
    assert forall k :: n <= k < |entries| ==> entries[k] == more[k - n];
    var j :| 0 <= j < |more| && more[j].sample.digest == d;
    assert entries[n + j].sample.digest == d;
  }

  lemma NotInBaseline(samples: seq<Sample>, entries: seq<Entry>, d: Digest)
    requires |samples| <= |entries| && Samples(entries[..|samples|]) == samples && !Holds(samples, d)
    ensures forall k :: 0 <= k < |samples| ==> entries[k].sample.digest != d
  {
    forall k | 0 <= k < |samples| ensures entries[k].sample.digest != d {
      assert samples[k] == entries[..|samples|][k].sample && samples[k] in samples;
    }
  }

  lemma AcceptedIsFiled(base: Snapshot, uploads: seq<Upload>, feedback: seq<Feedback>, out: Merged, a: Addition)
    requires Mergeable(base, uploads, feedback) && a in Offers(uploads, feedback) && !Holds(BaseSamples(base), a.digest)
    requires MergedFrom(BaseSamples(base), BaseNames(base), Offers(uploads, feedback), out)
    ensures FiledAs(out.entries, a.digest, a.tag)
  {
    hide SameLabel, Appends, FiledAs, Holds, Filed, Offers, BaseOk, BaseSamples, BaseNames, Samples;
    OfferIsFiled(BaseSamples(base), Offers(uploads, feedback), out.entries, a);
  }

  /** An image uploaded for a label, new to the dataset, is filed under that label and no other. */
  lemma UploadIsFiled(base: Snapshot, uploads: seq<Upload>, feedback: seq<Feedback>, out: Merged, u: Upload, tag: string)
    requires Mergeable(base, uploads, feedback)
    requires MergedFrom(BaseSamples(base), BaseNames(base), Offers(uploads, feedback), out)
    requires u in uploads && NamedFor(u.name, tag) && !Holds(BaseSamples(base), u.digest)
    ensures FiledAs(out.entries, u.digest, tag)
  {
    NameGivesTag(u, tag);
    var k :| 0 <= k < |uploads| && uploads[k] == u;
    var a := Offers(uploads, feedback)[k];
    assert a.tag == tag && a.digest == u.digest;
    hide Mergeable, MergedFrom, Offers, BaseSamples, NamedFor, UploadFault;
    AcceptedIsFiled(base, uploads, feedback, out, a);
  }

  lemma ReviewIsOffered(uploads: seq<Upload>, feedback: seq<Feedback>, f: Feedback) returns (a: Addition)
    requires SourcesOk(uploads, feedback) && f in feedback
    ensures a in Offers(uploads, feedback) && a.tag == f.tag && a.digest == f.digest
  {
    var k :| 0 <= k < |feedback| && feedback[k] == f;
    a := Offers(uploads, feedback)[|uploads| + k];
  }

  /** A reviewed image, new to the dataset, is filed under the label the reviewer gave it. */
  lemma ReviewIsFiled(base: Snapshot, uploads: seq<Upload>, feedback: seq<Feedback>, out: Merged, f: Feedback)
    requires Mergeable(base, uploads, feedback)
    requires MergedFrom(BaseSamples(base), BaseNames(base), Offers(uploads, feedback), out)
    requires f in feedback && !Holds(BaseSamples(base), f.digest)
    ensures FiledAs(out.entries, f.digest, f.tag)
  {
    var a := ReviewIsOffered(uploads, feedback, f);
    hide Mergeable, MergedFrom, Offers, BaseSamples;
    AcceptedIsFiled(base, uploads, feedback, out, a);
  }

  /** A merge is for training: an upload under val or test refuses all of it. */
  lemma EvaluationIsRefused(base: Snapshot, uploads: seq<Upload>, feedback: seq<Feedback>, u: Upload)
    requires u in uploads && ("val/" <= u.name || "test/" <= u.name)
    ensures !Mergeable(base, uploads, feedback)
  {
    if "val/" <= u.name {
      assert u.name == "val" + "/" + u.name[4..];
      FirstPart("val", u.name[4..]);
    } else {
      assert u.name == "test" + "/" + u.name[5..];
      FirstPart("test", u.name[5..]);
    }
    assert UploadFault(u).Some?;
  }

  /** A file at the top level, or right under train, names no label and refuses the merge as well. */
  lemma LabelIsRequired(base: Snapshot, uploads: seq<Upload>, feedback: seq<Feedback>, u: Upload)
    requires u in uploads && ('/' !in u.name || exists file :: '/' !in file && u.name == "train/" + file)
    ensures !Mergeable(base, uploads, feedback)
  {
    if '/' !in u.name {
      OnePart(u.name);
    } else {
      var file :| '/' !in file && u.name == "train/" + file;
      assert u.name == "train" + "/" + file;
      FirstPart("train", file);
      OnePart(file);
    }
    assert UploadFault(u).Some?;
  }

  /** An added file has a name the scanner takes for an image's. */
  lemma AddedIsImage(base: Snapshot, uploads: seq<Upload>, feedback: seq<Feedback>, out: Merged, k: nat)
    requires Mergeable(base, uploads, feedback)
    requires MergedFrom(BaseSamples(base), BaseNames(base), Offers(uploads, feedback), out)
    requires |BaseSamples(base)| <= k < |out.entries|
    ensures ImageExtension(out.entries[k].name)
  {
    var more := out.entries[|BaseSamples(base)|..];
    assert more[k - |BaseSamples(base)|] in more && FromOffer(Offers(uploads, feedback), out.entries[k]);
    hide Mergeable, Offers, BaseSamples;
    var a :| a in Offers(uploads, feedback) && out.entries[k] == Entry(AddedName(a), Sample(a.tag, "train", a.digest));
    OffersAreOk(base, uploads, feedback, a);
    LowerTwice(Ext(a.filename));
    ImageNameAppended("train/" + a.tag + "/add-" + a.digest, Lower(Ext(a.filename)));
  }

  lemma OffersAreOk(base: Snapshot, uploads: seq<Upload>, feedback: seq<Feedback>, a: Addition)
    requires Mergeable(base, uploads, feedback) && a in Offers(uploads, feedback)
    ensures ImageExtension(a.filename)
  {
  }

  lemma LowerTwice(s: string)
    ensures Lower(Lower(s)) == Lower(s)
  {
  }

  /** An image that already lies under its split and label keeps its path; so does everything that refers to it. */
  lemma PathIsKept(base: Snapshot, uploads: seq<Upload>, feedback: seq<Feedback>, out: Merged, k: nat)
    requires Mergeable(base, uploads, feedback)
    requires MergedFrom(BaseSamples(base), BaseNames(base), Offers(uploads, feedback), out)
    requires k < |BaseSamples(base)|
    ensures var row := base.rows.value[k];
      row.split + "/" + row.tag + "/" <= row.path ==> out.entries[k].name == row.path
  {
    hide Offers, Appends, Novelties, AddedName, SafePath;
    assert out.entries[k].name == BaseNames(base)[k];
  }

  /** A reviewed image without a usable name of its own is filed as what it was stored as. */
  lemma ReviewKeepsType(f: Feedback)
    requires f.contentType.Some? && !ImageExtension(f.inputRef)
    ensures f.contentType.value == "image/png" ==> ReviewName(f) == "review.png"
    ensures f.contentType.value == "image/jpeg" ==> ReviewName(f) == "review.jpg"
    ensures f.contentType.value == "image/webp" ==> ReviewName(f) == "review.webp"
    ensures f.contentType.value == "image/bmp" ==> ReviewName(f) == "review.bmp"
    ensures Reviewed(f).filename == ReviewName(f) && Reviewed(f).size == f.size
  {
  }
}
