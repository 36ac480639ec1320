/** The scanner: from the archive of a version to the manifest the next build starts from. */
module Scanner {
  import opened Options
  import opened Datasets
  import opened Sequences

  /** Every file lies under a split directory; otherwise the scanner splits the classes itself, at random. */
  predicate ExplicitSplits(entries: seq<Entry>) {
    forall e :: e in entries ==> IsSplit(Parts(e.name)[0])
  }

  /** A file in a class directory, as the scanner lists it; it looks at nothing but the path. */
  function Listed(name: string): ManifestRow
    requires |Parts(name)| >= 3
  {
    Row(name, Parts(name)[1], Parts(name)[0])
  }

  /** The files in class directories, in archive order. */
  function Listing(entries: seq<Entry>): seq<ManifestRow> {
    if entries == [] then []
    else (if |Parts(entries[0].name)| >= 3 then [Listed(entries[0].name)] else []) + Listing(entries[1..])
  }

  /** The store hands out the bytes that were written; all of them had passed `readImage`. */
  ghost predicate Stored(entries: seq<Entry>, members: map<string, Member>) {
    forall e :: e in entries ==>
      e.name in members
      && members[e.name].digest == e.sample.digest && members[e.name].readable && ImageSize(members[e.name].size)
  }

  /** A scan that succeeds: it sorts its rows, by split, label and path. */
  ghost predicate Scanned(entries: seq<Entry>, next: Snapshot) {
    && Stored(entries, next.members) && next.rows.Some?
    && (ExplicitSplits(entries) ==> multiset(next.rows.value) == multiset(Listing(entries)))
  }

  /** The manifest lists exactly the archived samples. */
  ghost predicate ReadBack(entries: seq<Entry>, next: Snapshot) {
    BaseOk(next) && multiset(BaseSamples(next)) == multiset(Samples(entries))
  }

  /** The path of a filed image says its split and its label. */
  lemma FiledIsListed(e: Entry)
    requires Filed(e)
    ensures |Parts(e.name)| >= 3 && Listed(e.name) == Row(e.name, e.sample.tag, e.sample.split)
  {
    var s := e.sample;
    var rest := e.name[|Folder(s)|..];
    assert e.name == Folder(s) + rest == s.split + "/" + (s.tag + "/" + rest);
    FirstPart(s.split, s.tag + "/" + rest);
    FirstPart(s.tag, rest);
  }

  function RowOf(e: Entry): ManifestRow { Row(e.name, e.sample.tag, e.sample.split) }

  lemma {:induction false} ListingIsComplete(entries: seq<Entry>)
    requires forall e :: e in entries ==> Filed(e)
    ensures Listing(entries) == Map(RowOf, entries)
  {
    if entries != [] {
      FiledIsListed(entries[0]);
      ListingIsComplete(entries[1..]);
    }
  }

  function SampleOf(members: map<string, Member>, row: ManifestRow): Sample {
    if row.Row? && row.path in members then Sample(row.tag, row.split, members[row.path].digest) else Sample("", "", "")
  }

  lemma ListedRows(entries: seq<Entry>, next: Snapshot)
    requires Scanned(entries, next) && forall e :: e in entries ==> Filed(e)
    ensures multiset(next.rows.value) == multiset(Map(RowOf, entries))
    ensures |next.rows.value| == |entries|
  {
    forall e | e in entries ensures IsSplit(Parts(e.name)[0]) { FiledIsListed(e); }
    ListingIsComplete(entries);
    assert |next.rows.value| == |multiset(next.rows.value)| == |multiset(Map(RowOf, entries))|;
  }

  lemma RowsAreOk(entries: seq<Entry>, next: Snapshot, k: nat)
    requires Scanned(entries, next) && forall e :: e in entries ==> Filed(e)
    requires k < |next.rows.value|
    ensures RowOk(next, next.rows.value[k])
  {
    ListedRows(entries, next);
    assert next.rows.value[k] in multiset(Map(RowOf, entries));
    var j :| 0 <= j < |entries| && Map(RowOf, entries)[j] == next.rows.value[k];
    assert entries[j] in entries;
    hide ExplicitSplits, Listing, Parts;
  }

  lemma SamplesAreMapped(entries: seq<Entry>, members: map<string, Member>)
    requires Stored(entries, members)
    ensures Samples(entries) == Map(row => SampleOf(members, row), Map(RowOf, entries))
  {
  }

  lemma BaseSamplesAreMapped(next: Snapshot)
    requires BaseOk(next)
    ensures BaseSamples(next) == Map(row => SampleOf(next.members, row), next.rows.value)
  {
  }

  /** Scanning an archive of filed images lists the very samples it was written from. */
  lemma FiledIsReadBack(entries: seq<Entry>, next: Snapshot)
    requires Scanned(entries, next) && entries != [] && forall e :: e in entries ==> Filed(e)
    ensures ReadBack(entries, next)
  {
    ListedRows(entries, next);
    var rows := next.rows.value;
    forall k | 0 <= k < |rows| ensures RowOk(next, rows[k]) { RowsAreOk(entries, next, k); }
    hide RowOk, Filed, Map, Samples, BaseSamples;
    MapPermutes(row => SampleOf(next.members, row), rows, Map(RowOf, entries));
    SamplesAreMapped(entries, next.members);
    BaseSamplesAreMapped(next);
  }
}
