/** Versions of a dataset, their archives, and the path rules both builders apply. */
module Datasets {
  import opened Options

  const MAX_UPLOAD_IMAGES := 100_000
  const MAX_UPLOAD_BYTES := 5 * 1024 * 1024 * 1024
  const MAX_IMAGE_BYTES := 32 * 1024 * 1024

  /** SHA-256 of an image, in hexadecimal: equal digests stand for equal bytes. */
  type Digest = string

  datatype Error = Invalid | InvalidArchive | Unavailable

  datatype Result<+T> = Ok(value: T) | Err(error: Error)

  /** What a version says of one image. */
  datatype Sample = Sample(tag: string, split: string, digest: Digest) {
    predicate Evaluates() { split != "train" }
  }

  /** A member of a published archive; `readable` fails when it cannot be read to its end. */
  datatype Member = Member(digest: Digest, size: nat, readable: bool)

  /** The sizes `readImage` accepts. */
  predicate ImageSize(size: int) { 0 < size <= MAX_IMAGE_BYTES }

  datatype ManifestRow = Malformed | Row(path: string, tag: string, split: string)

  datatype Snapshot = Snapshot(rows: Option<seq<ManifestRow>>, members: map<string, Member>)

  /** One image in the archive a builder writes. */
  datatype Entry = Entry(name: string, sample: Sample)

  function Samples(entries: seq<Entry>): (s: seq<Sample>)
    ensures |s| == |entries| && forall k :: 0 <= k < |s| ==> s[k] == entries[k].sample
  {
    seq(|entries|, k requires 0 <= k < |entries| => entries[k].sample)
  }

  /** The directory the scanner reads split and label from. */
  function Folder(s: Sample): string { s.split + "/" + s.tag + "/" }

  /** The image lies, under a safe path, where its split and label are read from. */
  predicate Filed(e: Entry) {
    SafePart(e.sample.tag) && IsSplit(e.sample.split) && Folder(e.sample) <= e.name && SafePath(e.name)
  }

  predicate IsSplit(s: string) { s == "train" || s == "val" || s == "test" }

  predicate SafePart(s: string) {
    s != "" && s != "." && s != ".." && '/' !in s && '\\' !in s
  }

  /** The parts of `s` between slashes, as `strings.Split` returns them. */
  function Parts(s: string): (parts: seq<string>)
    ensures |parts| >= 1
    ensures forall p :: p in parts ==> '/' !in p
  {
    if s == "" then [""]
    else
      var rest := Parts(s[1..]);
      if s[0] == '/' then [""] + rest else [[s[0]] + rest[0]] + rest[1..]
  }

  predicate SafePath(s: string) {
    && !("/" <= s) && '\\' !in s
    && forall p :: p in Parts(s) ==> SafePart(p)
  }

  /** From the last dot of the last component on; empty without a dot. */
  function Ext(s: string): string
    decreases |s|
  {
    if s == "" || s[|s| - 1] == '/' then ""
    else if s[|s| - 1] == '.' then "."
    else
      var ext := Ext(s[..|s| - 1]);
      if ext == "" then "" else ext + [s[|s| - 1]]
  }

  function Lower(s: string): string {
    seq(|s|, k requires 0 <= k < |s| => if 'A' <= s[k] <= 'Z' then s[k] - 'A' + 'a' else s[k])
  }

  predicate ImageExtension(s: string) {
    Lower(Ext(s)) in {".jpg", ".jpeg", ".png", ".webp", ".bmp"}
  }

  function Digits(n: nat): string {
    (if n < 10 then "" else Digits(n / 10)) + [('0' as int + n % 10) as char]
  }

  lemma {:induction false} DigitsAreDigits(n: nat)
    ensures forall c :: c in Digits(n) ==> '0' <= c <= '9'
  {
    if n >= 10 { DigitsAreDigits(n / 10); }
  }

  function Padded(n: nat): string {
    var d := Digits(n);
    if |d| >= 6 then d else "000000"[|d|..] + d
  }

  function BaseName(split: string, tag: string, i: nat, ext: string): string {
    split + "/" + tag + "/base-" + Padded(i) + ext
  }

  /** The part of a name before its first slash, and the parts after it. */
  lemma {:induction false} FirstPart(part: string, rest: string)
    requires '/' !in part
    ensures Parts(part + "/" + rest) == [part] + Parts(rest)
  {
    var s := part + "/" + rest;
    if part == "" {
      assert s[0] == '/' && s[1..] == rest;
    } else {
      FirstPart(part[1..], rest);
      assert s[1..] == part[1..] + "/" + rest;
      assert part == [part[0]] + part[1..];
    }
  }

  lemma {:induction false} OnePart(s: string)
    requires '/' !in s
    ensures Parts(s) == [s]
  {
    if s != "" {
      OnePart(s[1..]);
      assert s == [s[0]] + s[1..];
    }
  }

  lemma {:induction false} ExtIsTail(s: string)
    ensures '/' !in Ext(s)
    ensures '\\' !in s ==> '\\' !in Ext(s)
    decreases |s|
  {
    if s != "" && s[|s| - 1] != '/' && s[|s| - 1] != '.' { ExtIsTail(s[..|s| - 1]); }
  }

  /** An extension put at the end of a name is its extension. */
  lemma {:induction false} ExtOfAppended(s: string, ext: string)
    requires ext != "" && ext[0] == '.' && forall k :: 1 <= k < |ext| ==> ext[k] != '.' && ext[k] != '/'
    ensures Ext(s + ext) == ext
    decreases |ext|
  {
    var n := |ext| - 1;
    assert (s + ext)[..|s + ext| - 1] == s + ext[..n];
    if n > 0 { ExtOfAppended(s, ext[..n]); }
  }

  lemma ImageNameAppended(s: string, ext: string)
    requires Lower(ext) in {".jpg", ".jpeg", ".png", ".webp", ".bmp"}
    ensures ImageExtension(s + ext)
  {
    assert |Lower(ext)| == |ext| >= 4;
    assert forall k :: 0 <= k < |ext| && !('A' <= ext[k] <= 'Z') ==> Lower(ext)[k] == ext[k];
    assert Lower(ext)[0] == '.' && forall k :: 1 <= k < |ext| ==> Lower(ext)[k] != '.' && Lower(ext)[k] != '/';
    assert ext[0] == '.';
    hide Lower, Ext;
    ExtOfAppended(s, ext);
  }

  /** A plain file name in the folder of a sample makes a filed entry. */
  lemma FileIn(s: Sample, file: string)
    requires SafePart(s.tag) && IsSplit(s.split) && SafePart(file)
    ensures Filed(Entry(s.split + "/" + s.tag + "/" + file, s))
  {
    var name := s.split + "/" + s.tag + "/" + file;
    assert name == s.split + "/" + (s.tag + "/" + file) == Folder(s) + file;
    FirstPart(s.split, s.tag + "/" + file);
    FirstPart(s.tag, file);
    OnePart(file);
    assert Parts(name) == [s.split, s.tag, file];
    hide Parts;
    assert forall c :: c in name ==> c in s.split || c in s.tag || c in file || c == '/';
  }

  /** Rows of a usable manifest: known split, safe names, and an image that can be read back. */
  predicate RowOk(base: Snapshot, row: ManifestRow) {
    && row.Row?
    && SafePath(row.path) && SafePart(row.tag) && IsSplit(row.split)
    && row.path in base.members && base.members[row.path].readable && ImageSize(base.members[row.path].size)
  }

  function RowSample(base: Snapshot, row: ManifestRow): Sample
    requires RowOk(base, row)
  {
    Sample(row.tag, row.split, base.members[row.path].digest)
  }

  predicate BaseOk(base: Snapshot) {
    && base.rows.Some? && base.rows.value != []
    && forall k :: 0 <= k < |base.rows.value| ==> RowOk(base, base.rows.value[k])
  }

  /** The samples of a version, in manifest order. */
  function BaseSamples(base: Snapshot): (s: seq<Sample>)
    requires BaseOk(base)
    ensures |s| == |base.rows.value| && forall k :: 0 <= k < |s| ==> s[k] == RowSample(base, base.rows.value[k])
  {
    seq(|base.rows.value|, k requires 0 <= k < |base.rows.value| => RowSample(base, base.rows.value[k]))
  }

  function RowBytes(base: Snapshot, row: ManifestRow): nat {
    if row.Row? && row.path in base.members then base.members[row.path].size else 0
  }

  /** The bytes of the images the first `n` rows name. */
  function BytesUpto(base: Snapshot, n: nat): nat
    requires base.rows.Some? && n <= |base.rows.value|
  {
    if n == 0 then 0 else BytesUpto(base, n - 1) + RowBytes(base, base.rows.value[n - 1])
  }

  function BaseBytes(base: Snapshot): nat {
    if base.rows.None? then 0 else BytesUpto(base, |base.rows.value|)
  }

  lemma {:induction false} BytesGrow(base: Snapshot, n: nat)
    requires base.rows.Some? && n <= |base.rows.value|
    ensures BytesUpto(base, n) <= BaseBytes(base)
    decreases |base.rows.value| - n
  {
    if n < |base.rows.value| { BytesGrow(base, n + 1); }
  }

  predicate Holds(samples: seq<Sample>, d: Digest) {
    exists s :: s in samples && s.digest == d
  }

  function Known(samples: seq<Sample>): (known: set<Digest>)
    ensures forall d :: d in known <==> Holds(samples, d)
  {
    set s | s in samples :: s.digest
  }

  ghost predicate NoRepeats(es: seq<Entry>) {
    forall i, j :: 0 <= i < j < |es| ==> es[i].sample.digest != es[j].sample.digest
  }

  ghost predicate Archived(es: seq<Entry>, d: Digest) {
    exists e :: e in es && e.sample.digest == d
  }

  /** One entry for each digest written. */
  ghost predicate OneEach(written: set<Digest>, added: seq<Entry>) {
    && (forall e :: e in added ==> e.sample.digest in written)
    && NoRepeats(added)
    && (forall d :: d in written ==> Archived(added, d))
    && |added| == |written|
  }

  lemma OneEachUnion(written: set<Digest>, added: seq<Entry>, g: set<Digest>, es: seq<Entry>)
    requires OneEach(written, added) && OneEach(g, es) && written !! g
    ensures OneEach(written + g, added + es)
  {
    var all := added + es;
    assert |written + g| == |written| + |g|;
    assert forall e :: e in all <==> e in added || e in es;
    forall i, j | 0 <= i < j < |all| ensures all[i].sample.digest != all[j].sample.digest {
      if i < |added| <= j {
        assert all[i] in added && all[j] in es;
      } else if |added| <= i {
        assert all[i] == es[i - |added|] && all[j] == es[j - |added|];
      }
    }
    forall d | d in written + g ensures Archived(all, d) {
      assert Archived(if d in g then es else added, d);
    }
  }

  /** How many images of a label an archive files under a split. */
  function Tally(entries: seq<Entry>, split: string, tag: string): nat {
    if entries == [] then 0
    else
      var last := entries[|entries| - 1].sample;
      Tally(entries[..|entries| - 1], split, tag) + if last.split == split && last.tag == tag then 1 else 0
  }

  /** The archive being written, with the running `split_counts`. */
  class ArchiveWriter {
    var entries: seq<Entry>
    var counts: map<(string, string), nat>
    var total: nat

    ghost predicate Valid()
      reads this
    {
      && |entries| <= MAX_UPLOAD_IMAGES && total <= MAX_UPLOAD_BYTES
      && forall split, tag :: CountOf(counts, split, tag) == Tally(entries, split, tag)
    }

    constructor ()
      ensures Valid() && entries == [] && total == 0
    {
      entries, counts, total := [], map[], 0;
    }

    method Write(name: string, sample: Sample, size: nat) returns (ok: bool)
      requires Valid()
      modifies this
      ensures Valid()
      ensures ok == (|old(entries)| < MAX_UPLOAD_IMAGES && old(total) + size <= MAX_UPLOAD_BYTES)
      ensures entries == if ok then old(entries) + [Entry(name, sample)] else old(entries)
      ensures total == if ok then old(total) + size else old(total)
    {
      if |entries| >= MAX_UPLOAD_IMAGES || total + size > MAX_UPLOAD_BYTES { return false; }
      ghost var before := entries;
      entries := entries + [Entry(name, sample)];
      total := total + size;
      var key := (sample.split, sample.tag);
      counts := counts[key := CountOf(counts, sample.split, sample.tag) + 1];
      assert entries[..|entries| - 1] == before;
      ok := true;
    }
  }

  function CountOf(counts: map<(string, string), nat>, split: string, tag: string): nat {
    if (split, tag) in counts then counts[(split, tag)] else 0
  }
}
