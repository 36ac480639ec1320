/** The merge's writer, its three loops, and the merge itself. */
module MergeWrite {
  import opened Options
  import opened Datasets
  import opened SeenImages
  import opened MergeBuild

  /** `seen` has, of every archived digest, its label, or "" once two labels met. */
  predicate Labelled(seen: map<Digest, string>, samples: seq<Sample>, d: Digest) {
    if d !in seen then !Holds(samples, d)
    else Holds(samples, d) && if seen[d] == "" then Torn(samples, d) else AllTagged(samples, d, seen[d])
  }

  ghost predicate Labels(seen: map<Digest, string>, samples: seq<Sample>) {
    forall d :: Labelled(seen, samples, d)
  }

  function NoteLabel(seen: map<Digest, string>, s: Sample): map<Digest, string> {
    if s.digest in seen && seen[s.digest] != s.tag then seen[s.digest := ""]
    else if s.digest !in seen then seen[s.digest := s.tag]
    else seen
  }

  lemma LabelNoted(seen: map<Digest, string>, samples: seq<Sample>, s: Sample)
    requires Labels(seen, samples) && SafePart(s.tag)
    ensures Labels(NoteLabel(seen, s), samples + [s])
  {
    forall d ensures Labelled(NoteLabel(seen, s), samples + [s], d) {
      assert Labelled(seen, samples, d);
      LabelNotedAt(seen, samples, s, d);
    }
  }

  lemma LabelNotedAt(seen: map<Digest, string>, samples: seq<Sample>, s: Sample, d: Digest)
    requires Labelled(seen, samples, d) && SafePart(s.tag)
    ensures Labelled(NoteLabel(seen, s), samples + [s], d)
  {
    var more := samples + [s];
    assert s in more && forall t :: t in more <==> t in samples || t == s;
    if d in seen {
      var t :| t in samples && t.digest == d;
      assert t in more;
      if seen[d] == "" {
        var u, v :| u in samples && v in samples && u.digest == d && v.digest == d && u.tag != v.tag;
        assert u in more && v in more;
      }
    }
  }

  predicate Evaluated(samples: seq<Sample>, d: Digest) {
    exists s :: s in samples && s.digest == d && s.split != "train"
  }

  class MergeWriter {
    var entries: seq<Entry>
    var seen: map<Digest, string>
    var evaluation: set<Digest>
    var names: set<string>
    var counts: map<(string, string), nat>
    var added: nat
    var duplicates: nat
    var total: nat

    ghost predicate Valid()
      reads this
    {
      && |entries| <= MAX_UPLOAD_IMAGES && total <= MAX_UPLOAD_BYTES
      && Labels(seen, Samples(entries))
      && Named(names, entries)
      && (forall e :: e in entries ==> Filed(e))
      && Counted(counts, entries)
    }

    constructor ()
      ensures Valid() && entries == [] && evaluation == {} && added == 0 && duplicates == 0 && total == 0
    {
      entries, seen, evaluation, names, counts, added, duplicates, total := [], map[], {}, {}, map[], 0, 0, 0;
    }

    /** The `write` closure. An addition already archived under its label counts as a duplicate. */
    method Write(name: string, s: Sample, size: nat, addition: bool) returns (error: Option<Error>)
      requires Valid() && SafePart(s.tag) && IsSplit(s.split) && Folder(s) <= name
      modifies this
      ensures Valid() && evaluation == old(evaluation)
      ensures error.Some? <==>
        if addition && s.digest in old(evaluation) then true
        else if addition && Holds(Samples(old(entries)), s.digest) then !AllTagged(Samples(old(entries)), s.digest, s.tag)
        else !SafePath(name) || (exists e :: e in old(entries) && e.name == name) || |old(entries)| == MAX_UPLOAD_IMAGES
             || old(total) + size > MAX_UPLOAD_BYTES
      ensures error.None? ==>
        if addition && Holds(Samples(old(entries)), s.digest)
        then entries == old(entries) && added == old(added) && duplicates == old(duplicates) + 1 && total == old(total)
        else entries == old(entries) + [Entry(name, s)] && duplicates == old(duplicates)
             && total == old(total) + size && added == old(added) + if addition then 1 else 0
      ensures error.Some? ==>
        entries == old(entries) && added == old(added) && duplicates == old(duplicates) && total == old(total)
    {
      if addition && s.digest in evaluation { return Some(Invalid); }
      assert Labelled(seen, Samples(entries), s.digest);
      if addition && s.digest in seen {
        if seen[s.digest] != s.tag { return Some(Invalid); }
        duplicates := duplicates + 1;
        return None;
      }
      if !SafePath(name) || name in names { return Some(InvalidArchive); }
      if |entries| >= MAX_UPLOAD_IMAGES || total + size > MAX_UPLOAD_BYTES { return Some(Invalid); }
      Archive(name, s, size);
      if addition { added := added + 1; }
      error := None;
    }

    /** The part of `write` that stores the image and updates every index. */
    method Archive(name: string, s: Sample, size: nat)
      requires Valid() && SafePart(s.tag) && IsSplit(s.split) && Folder(s) <= name && SafePath(name)
      requires |entries| < MAX_UPLOAD_IMAGES && total + size <= MAX_UPLOAD_BYTES && name !in names
      modifies `entries, `seen, `names, `counts, `total
      ensures Valid() && total == old(total) + size && entries == old(entries) + [Entry(name, s)]
    {
      assert Filed(Entry(name, s)) && '/' !in s.split;
      hide SafePart, IsSplit, Folder, NoteLabel, CountOf;
      hide Labels, Parts, Filed, SafePath, Named, Counted, Tally;
      LabelNoted(seen, Samples(entries), s);
      NameTaken(names, entries, Entry(name, s));
      CountedMore(counts, entries, Entry(name, s));
      assert Samples(entries + [Entry(name, s)]) == Samples(entries) + [s];
      entries := entries + [Entry(name, s)];
      total := total + size;
      seen := NoteLabel(seen, s);
      names := names + {name};
      var key := (Parts(name)[0], s.tag);
      counts := counts[key := CountOf(counts, key.0, key.1) + 1];
    }
  }

  ghost predicate Named(names: set<string>, entries: seq<Entry>) {
    && (forall n :: n in names <==> exists e :: e in entries && e.name == n)
    && forall i, j :: 0 <= i < j < |entries| ==> entries[i].name != entries[j].name
  }

  ghost predicate Counted(counts: map<(string, string), nat>, entries: seq<Entry>) {
    forall split, tag :: CountOf(counts, split, tag) == Tally(entries, split, tag)
  }

  lemma NameTaken(names: set<string>, entries: seq<Entry>, e: Entry)
    requires Named(names, entries) && e.name !in names
    ensures Named(names + {e.name}, entries + [e])
  {
    var more := entries + [e];
    assert e in more && forall x :: x in more <==> x in entries || x == e;
    forall i, j | 0 <= i < j < |more| ensures more[i].name != more[j].name {
      assert more[i] in entries;
    }
  }

  lemma CountedMore(counts: map<(string, string), nat>, entries: seq<Entry>, e: Entry)
    requires Counted(counts, entries) && '/' !in e.sample.split && Folder(e.sample) <= e.name
    ensures var key := (Parts(e.name)[0], e.sample.tag);
      Counted(counts[key := CountOf(counts, key.0, key.1) + 1], entries + [e])
  {
    CountedUnderSplit(e.name, e.sample);
    var key := (e.sample.split, e.sample.tag);
    var next := counts[key := CountOf(counts, key.0, key.1) + 1];
    assert (entries + [e])[..|entries + [e]| - 1] == entries;
    forall split, tag ensures CountOf(next, split, tag) == Tally(entries + [e], split, tag) {
      assert CountOf(counts, split, tag) == Tally(entries, split, tag);
    }
  }

  /** `write` counts under the first part of the name: that is the sample's split. */
  lemma CountedUnderSplit(name: string, s: Sample)
    requires '/' !in s.split && Folder(s) <= name
    ensures Parts(name)[0] == s.split
  {
    var rest := name[|s.split| + 1..];
    assert Folder(s) == s.split + "/" + (s.tag + "/");
    assert name == s.split + "/" + rest by {
      assert name[..|Folder(s)|] == Folder(s);
    }
    FirstPart(s.split, rest);
  }

  // ---- The baseline loop

  method CopyBase(base: Snapshot, w: MergeWriter) returns (error: Option<Error>)
    requires w.Valid() && w.entries == [] && w.evaluation == {} && w.added == 0 && w.duplicates == 0 && w.total == 0
    modifies w
    ensures w.Valid()
    ensures error.None? <==> BaseMergeable(base)
    ensures error.None? ==> Copied(BaseSamples(base), BaseNames(base), w.entries)
    ensures error.None? ==> |w.entries| == |BaseSamples(base)| && w.added == 0 && w.duplicates == 0 && w.total == BaseBytes(base)
    ensures error.None? ==> forall d :: d in w.evaluation <==> Evaluated(BaseSamples(base), d)
  {
    if n :| n in base.members && !SafePath(n) { return Some(InvalidArchive); }
    if base.rows.None? || base.rows.value == [] { return Some(Invalid); }
    hide SafePath, SafePart, RowOk, KeptName, Evaluated, KeptRows, MergeWriter.Valid, BaseOk, BaseMergeable;
    hide Copied, Filed, BaseSamples, RowBytes;
    NoneEvaluated();
    NoneKept(base);
    var rows := base.rows.value;
    for i := 0 to |rows|
      invariant w.Valid() && |w.entries| == i && w.added == 0 && w.duplicates == 0 && w.total == BytesUpto(base, i)
      invariant KeptRows(base, w.entries)
      invariant forall d :: d in w.evaluation <==> Evaluated(Samples(w.entries), d)
    {
      if !RowOk(base, rows[i]) {
        BadRow(base, i);
        return Some(InvalidArchive);
      }
      KeptIsFiled(base, i);
      KeptRowsGrow(base, w.entries);
      BytesGrow(base, i + 1);
      error := KeepRow(RowSample(base, rows[i]), KeptName(RowSample(base, rows[i]), rows[i].path, i), RowBytes(base, rows[i]), w);
      if error.Some? {
        RefusedBase(base, i, w.entries);
        return;
      }
    }
    AllKept(base, w.entries);
    error := None;
  }

  ghost predicate KeptRows(base: Snapshot, entries: seq<Entry>) {
    && base.rows.Some? && |entries| <= |base.rows.value|
    && forall k :: 0 <= k < |entries| ==> RowOk(base, base.rows.value[k]) && entries[k] == KeptEntry(base, k)
  }

  lemma NoneKept(base: Snapshot)
    requires base.rows.Some?
    ensures KeptRows(base, [])
  {
  }

  lemma NoneEvaluated()
    ensures forall d :: !Evaluated([], d)
  {
  }

  lemma BadRow(base: Snapshot, i: nat)
    requires base.rows.Some? && i < |base.rows.value| && !RowOk(base, base.rows.value[i])
    ensures !BaseMergeable(base)
  {
  }

  lemma KeptRowsGrow(base: Snapshot, entries: seq<Entry>)
    requires KeptRows(base, entries) && |entries| < |base.rows.value| && RowOk(base, base.rows.value[|entries|])
    ensures KeptRows(base, entries + [KeptEntry(base, |entries|)])
  {
  }

  lemma AllKept(base: Snapshot, entries: seq<Entry>)
    requires KeptRows(base, entries) && |entries| == |base.rows.value| && entries != [] && MembersSafe(base)
    requires |entries| <= MAX_UPLOAD_IMAGES && BaseBytes(base) <= MAX_UPLOAD_BYTES
    requires forall i, j :: 0 <= i < j < |entries| ==> entries[i].name != entries[j].name
    requires forall e :: e in entries ==> Filed(e)
    ensures BaseMergeable(base) && Samples(entries) == BaseSamples(base)
    ensures Copied(BaseSamples(base), BaseNames(base), entries)
  {
    assert forall e :: e in entries ==> SafePath(e.name);
    assert BaseOk(base);
    hide SafePath, Filed, RowOk, KeptName;
    assert forall k :: 0 <= k < |entries| ==> BaseNames(base)[k] == entries[k].name;
    assert entries[..|entries|] == entries;
  }

  /** One turn of the baseline loop. */
  method KeepRow(s: Sample, name: string, size: nat, w: MergeWriter) returns (error: Option<Error>)
    requires w.Valid() && SafePart(s.tag) && IsSplit(s.split) && Folder(s) <= name
    requires forall d :: d in w.evaluation <==> Evaluated(Samples(w.entries), d)
    modifies w
    ensures w.Valid() && w.added == old(w.added) && w.duplicates == old(w.duplicates)
    ensures error.Some? <==>
      !SafePath(name) || (exists e :: e in old(w.entries) && e.name == name) || |old(w.entries)| == MAX_UPLOAD_IMAGES
      || old(w.total) + size > MAX_UPLOAD_BYTES
    ensures error.None? ==> w.entries == old(w.entries) + [Entry(name, s)] && w.total == old(w.total) + size
    ensures error.Some? ==> w.entries == old(w.entries)
    ensures error.None? ==> forall d :: d in w.evaluation <==> Evaluated(Samples(w.entries), d)
  {
    hide SafePath, SafePart, Labels, Named, Counted, Filed;
    ghost var before := Samples(w.entries);
    EvaluatedGrows(before, s);
    error := w.Write(name, s, size, false);
    if error.None? {
      assert Samples(w.entries) == before + [s];
      if s.split != "train" { w.evaluation := w.evaluation + {s.digest}; }
    }
  }

  function KeptEntry(base: Snapshot, k: nat): Entry
    requires base.rows.Some? && k < |base.rows.value| && RowOk(base, base.rows.value[k])
  {
    var row := base.rows.value[k];
    Entry(KeptName(RowSample(base, row), row.path, k), RowSample(base, row))
  }

  lemma KeptIsFiled(base: Snapshot, k: nat)
    requires base.rows.Some? && k < |base.rows.value| && RowOk(base, base.rows.value[k])
    ensures var e := KeptEntry(base, k); SafePart(e.sample.tag) && IsSplit(e.sample.split) && Folder(e.sample) <= e.name
  {
    var row := base.rows.value[k];
    var s := RowSample(base, row);
    assert BaseName(s.split, s.tag, k, Lower(Ext(row.path))) == Folder(s) + ("base-" + Padded(k) + Lower(Ext(row.path)));
  }

  lemma EvaluatedGrows(samples: seq<Sample>, s: Sample)
    ensures forall d :: Evaluated(samples + [s], d) <==> Evaluated(samples, d) || (d == s.digest && s.split != "train")
  {
    assert s in samples + [s] && forall t :: t in samples + [s] <==> t in samples || t == s;
  }

  lemma RefusedBase(base: Snapshot, i: nat, entries: seq<Entry>)
    requires KeptRows(base, entries) && i == |entries| < |base.rows.value| && RowOk(base, base.rows.value[i])
    requires !SafePath(KeptEntry(base, i).name) || (exists e :: e in entries && e.name == KeptEntry(base, i).name)
             || i == MAX_UPLOAD_IMAGES || BytesUpto(base, i + 1) > MAX_UPLOAD_BYTES
    ensures !BaseMergeable(base)
  {
    BytesGrow(base, i + 1);
    if BaseOk(base) {
      var name := KeptEntry(base, i).name;
      assert BaseNames(base)[i] == name && BaseNames(base)[i] in BaseNames(base);
      if e :| e in entries && e.name == name {
        var k :| 0 <= k < i && entries[k] == e;
        assert BaseNames(base)[k] == KeptEntry(base, k).name;
      }
    }
  }

  ghost predicate Copied(samples: seq<Sample>, names: seq<string>, entries: seq<Entry>) {
    && |names| == |samples| <= |entries|
    && Samples(entries[..|samples|]) == samples
    && forall k :: 0 <= k < |samples| ==> entries[k].name == names[k]
  }
}
