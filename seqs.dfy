/** Facts about sequences used to model the key order of Python dictionaries. */
module Seqs {

  ghost predicate Distinct<T>(s: seq<T>) {
    forall i, j :: 0 <= i < j < |s| ==> s[i] != s[j]
  }

  /** The elements of `s` in order of first occurrence. This is the key order of a
      Python dictionary into which the elements of `s` are inserted one by one:
      inserting a key that is already present keeps its position. */
  function Dedup<T(==)>(s: seq<T>): seq<T>
    decreases |s|
  {
    if s == [] then []
    else
      var d := Dedup(s[..|s| - 1]);
      if s[|s| - 1] in d then d else d + [s[|s| - 1]]
  }

  /** The first-occurrence order holds each element of `s` once and nothing else. */
  lemma {:induction false} DedupProperties<T>(s: seq<T>)
    ensures Distinct(Dedup(s))
    ensures forall x {:trigger x in Dedup(s)} {:trigger x in s} :: x in Dedup(s) <==> x in s
    ensures |Dedup(s)| <= |s|
    decreases |s|
  {
    if s != [] {
      var p := s[..|s| - 1];
      DedupProperties(p);
      assert s == p + [s[|s| - 1]];
    }
  }

  /** Inserting one more key. */
  lemma DedupSnoc<T>(s: seq<T>, x: T)
    ensures Dedup(s + [x]) == if x in Dedup(s) then Dedup(s) else Dedup(s) + [x]
  {
    assert (s + [x])[..|s + [x]| - 1] == s;
  }

  /** A sequence without repetitions is its own first-occurrence order. */
  lemma {:induction false} DedupOfDistinct<T>(s: seq<T>)
    requires Distinct(s)
    ensures Dedup(s) == s
  {
    if s != [] {
      var p := s[..|s| - 1];
      assert Distinct(p);
      DedupOfDistinct(p);
      assert s[|s| - 1] !in p;
      DedupProperties(p);
      assert p + [s[|s| - 1]] == s;
    }
  }

  /** In a sequence without repetitions every member occurs exactly once. */
  lemma {:induction false} DistinctOccursOnce<T>(s: seq<T>, x: T)
    requires Distinct(s)
    ensures multiset(s)[x] == if x in s then 1 else 0
  {
    if s != [] {
      var p := s[..|s| - 1];
      assert s == p + [s[|s| - 1]];
      assert Distinct(p);
      DistinctOccursOnce(p, x);
      assert s[|s| - 1] !in p;
    }
  }

  /** The first-occurrence order of a prefix is a prefix of the whole one. */
  lemma {:induction false} DedupPrefix<T>(s: seq<T>, i: nat)
    requires i <= |s|
    ensures Dedup(s[..i]) <= Dedup(s)
    decreases |s| - i
  {
    if i < |s| {
      var p := s[..|s| - 1];
      assert p[..i] == s[..i];
      DedupPrefix(p, i);
    } else {
      assert s[..i] == s;
    }
  }

  /** The first-occurrence order of a prefix is a prefix of the whole one's. */
  lemma DedupOfPrefix<T>(p: seq<T>, s: seq<T>)
    requires p <= s
    ensures Dedup(p) <= Dedup(s)
  {
    assert s[..|p|] == p;
    DedupPrefix(s, |p|);
  }

  /** When `s[i]` occurs first at `i`, it follows the first occurrences in `s[..i]`
      in the first-occurrence order of the whole of `s`. */
  lemma DedupFirstOccurrence<T>(s: seq<T>, i: nat)
    requires i < |s| && s[i] !in Dedup(s[..i])
    ensures Dedup(s[..i]) + [s[i]] <= Dedup(s)
  {
    SliceSnoc(s, i);
    DedupSnoc(s[..i], s[i]);
    DedupPrefix(s, i + 1);
  }

  lemma SliceSnoc<T>(s: seq<T>, i: nat)
    requires i < |s|
    ensures s[..i + 1] == s[..i] + [s[i]]
  {
  }

  lemma DistinctSnoc<T>(s: seq<T>, x: T)
    requires Distinct(s) && x !in s
    ensures Distinct(s + [x])
  {
  }
}
