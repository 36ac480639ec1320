/** What the labelled build remembers of the baseline, and why that is enough to judge a new image. */
module SeenImages {
  import opened Datasets

  /** An empty tag records a digest the baseline holds under two labels. */
  datatype Identity = Identity(tag: string, split: string)

  function Note(seen: map<Digest, Identity>, s: Sample): map<Digest, Identity> {
    if s.digest in seen && seen[s.digest].tag != s.tag then seen[s.digest := seen[s.digest].(tag := "")]
    else if s.digest !in seen || s.split != "train" then seen[s.digest := Identity(s.tag, s.split)]
    else seen
  }

  /** A repeated image is harmless only if the baseline trains on it, always under this label. */
  predicate Repeatable(samples: seq<Sample>, d: Digest, tag: string) {
    forall s :: s in samples && s.digest == d ==> s.tag == tag && s.split == "train"
  }

  predicate Torn(samples: seq<Sample>, d: Digest) {
    exists s, t :: s in samples && t in samples && s.digest == d && t.digest == d && s.tag != t.tag
  }

  predicate AllTagged(samples: seq<Sample>, d: Digest, tag: string) {
    forall s :: s in samples && s.digest == d ==> s.tag == tag
  }

  predicate Trained(samples: seq<Sample>, d: Digest) {
    forall s :: s in samples && s.digest == d ==> s.split == "train"
  }

  /** `seen` keeps, of one digest, its label if that is unique, and whether it is only trained on. */
  predicate Answers(seen: map<Digest, Identity>, samples: seq<Sample>, d: Digest) {
    if d !in seen then !Holds(samples, d)
    else
      var id := seen[d];
      && Holds(samples, d) && IsSplit(id.split)
      && if id.tag == "" then Torn(samples, d)
         else AllTagged(samples, d, id.tag) && (id.split == "train" <==> Trained(samples, d))
  }

  ghost predicate Summarizes(seen: map<Digest, Identity>, samples: seq<Sample>) {
    forall d :: Answers(seen, samples, d)
  }

  lemma Noted(seen: map<Digest, Identity>, samples: seq<Sample>, s: Sample)
    requires Summarizes(seen, samples) && SafePart(s.tag) && IsSplit(s.split)
    ensures Summarizes(Note(seen, s), samples + [s])
  {
    forall d ensures Answers(Note(seen, s), samples + [s], d) {
      assert Answers(seen, samples, d);
      if d == s.digest { NotedHere(seen, samples, s); } else { NotedElsewhere(seen, samples, s, d); }
    }
  }

  lemma NotedElsewhere(seen: map<Digest, Identity>, samples: seq<Sample>, s: Sample, d: Digest)
    requires Answers(seen, samples, d) && d != s.digest
    ensures Answers(Note(seen, s), samples + [s], d)
  {
    var more := samples + [s];
    assert forall t :: t in samples ==> t in more;
    assert forall t :: t in more && t.digest == d ==> t in samples;
  }

  lemma NotedHere(seen: map<Digest, Identity>, samples: seq<Sample>, s: Sample)
    requires Answers(seen, samples, s.digest) && SafePart(s.tag) && IsSplit(s.split)
    ensures Answers(Note(seen, s), samples + [s], s.digest)
  {
    var d, more := s.digest, samples + [s];
    assert s in more && forall t :: t in more <==> t in samples || t == s;
    if d in seen {
      var t :| t in samples && t.digest == d;
      assert t in more;
      if seen[d].tag == "" {
        var u, v :| u in samples && v in samples && u.digest == d && v.digest == d && u.tag != v.tag;
        assert u in more && v in more;
      }
    }
  }

  lemma Judges(seen: map<Digest, Identity>, samples: seq<Sample>, d: Digest, tag: string)
    requires Summarizes(seen, samples) && SafePart(tag) && d in seen
    ensures seen[d].tag == tag && seen[d].split != "val" && seen[d].split != "test" <==> Repeatable(samples, d, tag)
  {
    assert Answers(seen, samples, d);
  }
}
