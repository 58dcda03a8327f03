/**
 * Grouping blog records by author: the distinct authors in first-seen order (the key order of
 * the JavaScript `Map` the grouping helpers fill in one forward pass), each author's total, and
 * what it means for an author to come out on top with ties going to the author seen first.
 */
module AuthorTally {
  import opened BlogRecords

  /** Distinct authors of `s`, in order of first appearance. */
  function Authors(s: seq<Blog>): seq<string>
  {
    if s == [] then []
    else
      var prev := Authors(s[..|s| - 1]);
      if s[|s| - 1].author in prev then prev else prev + [s[|s| - 1].author]
  }

  /** Total `m`-weight of the records of `s` written by `a`. */
  function Tally(s: seq<Blog>, a: string, m: Measure): nat
  {
    if s == [] then 0
    else Tally(s[..|s| - 1], a, m) + (if s[|s| - 1].author == a then Weight(m, s[|s| - 1]) else 0)
  }

  /** Position of the first record written by `a`, or `|s|` when `a` wrote none. */
  function FirstIndex(s: seq<Blog>, a: string): (i: nat)
    ensures i <= |s|
    ensures i < |s| ==> s[i].author == a
    ensures forall j :: 0 <= j < i ==> s[j].author != a
  {
    if s == [] then 0
    else if s[0].author == a then 0
    else 1 + FirstIndex(s[1..], a)
  }

  ghost predicate Distinct(xs: seq<string>)
  {
    forall j, k :: 0 <= j < k < |xs| ==> xs[j] != xs[k]
  }

  /** `a` wrote at least one record of `s`. */
  ghost predicate IsAuthor(s: seq<Blog>, a: string)
  {
    exists i :: 0 <= i < |s| && s[i].author == a
  }

  /**
   * `a` with total `n` is the answer a grouping helper promises under measure `m`: `a` is a real
   * author, `n` is its total, no author has a larger total, and every record whose author ties
   * that total comes no earlier than `a`'s first record.
   */
  ghost predicate IsTopAuthor(s: seq<Blog>, m: Measure, a: string, n: int)
  {
    && IsAuthor(s, a)
    && n == Tally(s, a, m)
    && (forall i :: 0 <= i < |s| ==> Tally(s, s[i].author, m) <= n)
    && (forall i :: 0 <= i < |s| && Tally(s, s[i].author, m) == n ==> FirstIndex(s, a) <= i)
  }

  /** The key list holds each author exactly once and nothing else. */
  lemma {:induction false} AuthorsAreTheAuthors(s: seq<Blog>)
    ensures Distinct(Authors(s))
    ensures forall a :: a in Authors(s) <==> IsAuthor(s, a)
  {
    if s != [] {
      var p, b := s[..|s| - 1], s[|s| - 1];
      AuthorsAreTheAuthors(p);
      forall a
        ensures a in Authors(s) <==> IsAuthor(s, a)
      {
        if IsAuthor(p, a) {
          var i :| 0 <= i < |p| && p[i].author == a;
          assert s[i] == p[i];
        }
        if IsAuthor(s, a) && a != b.author {
          var i :| 0 <= i < |s| && s[i].author == a;
          assert i < |p| && p[i] == s[i];
        }
        assert s[|s| - 1].author == b.author;
      }
    }
  }

  /** An author who wrote nothing has total zero. */
  lemma {:induction false} TallyOfNonAuthor(s: seq<Blog>, a: string, m: Measure)
    requires a !in Authors(s)
    ensures Tally(s, a, m) == 0
  {
    if s != [] {
      var p := s[..|s| - 1];
      assert a !in Authors(p) && s[|s| - 1].author != a;
      TallyOfNonAuthor(p, a, m);
    }
  }

  /** A record of `p` is still the first of its author once more records follow. */
  lemma {:induction false} FirstIndexAppend(p: seq<Blog>, t: seq<Blog>, a: string)
    requires FirstIndex(p, a) < |p|
    ensures FirstIndex(p + t, a) == FirstIndex(p, a)
  {
    if p[0].author != a {
      assert (p + t)[1..] == p[1..] + t;
      FirstIndexAppend(p[1..], t, a);
    }
  }

  /** The key list is ordered by each author's first record. */
  lemma {:induction false} AuthorsInFirstSeenOrder(s: seq<Blog>)
    ensures forall j, k :: 0 <= j < k < |Authors(s)| ==> FirstIndex(s, Authors(s)[j]) < FirstIndex(s, Authors(s)[k])
    ensures forall k :: 0 <= k < |Authors(s)| ==> FirstIndex(s, Authors(s)[k]) < |s|
  {
    if s != [] {
      var p, b := s[..|s| - 1], s[|s| - 1];
      assert s == p + [b];
      var A := Authors(p);
      AuthorsInFirstSeenOrder(p);
      forall k | 0 <= k < |A|
        ensures FirstIndex(s, A[k]) == FirstIndex(p, A[k])
      {
        FirstIndexAppend(p, [b], A[k]);
      }
      if b.author !in A {
        AuthorsAreTheAuthors(p);
        assert !IsAuthor(p, b.author);
        assert FirstIndex(s, b.author) == |p|;
        assert Authors(s) == A + [b.author];
      }
    }
  }

  /** Every author of `s` has a positive post count. */
  lemma {:induction false} AuthorHasPosts(s: seq<Blog>, a: string)
    requires a in Authors(s)
    ensures Tally(s, a, Posts) >= 1
  {
    var p := s[..|s| - 1];
    if s[|s| - 1].author != a {
      AuthorHasPosts(p, a);
    }
  }

  /** Sum of the totals of the authors listed in `keys`. */
  function SumTallies(keys: seq<string>, s: seq<Blog>, m: Measure): nat
  {
    if keys == [] then 0 else Tally(s, keys[0], m) + SumTallies(keys[1..], s, m)
  }

  lemma {:induction false} SumTalliesAppendKey(keys: seq<string>, a: string, s: seq<Blog>, m: Measure)
    ensures SumTallies(keys + [a], s, m) == SumTallies(keys, s, m) + Tally(s, a, m)
  {
    if keys != [] {
      assert (keys + [a])[1..] == keys[1..] + [a];
      SumTalliesAppendKey(keys[1..], a, s, m);
    }
  }

  /** Appending a record adds its weight to exactly one of a list of distinct authors. */
  lemma {:induction false} SumTalliesAppendRecord(keys: seq<string>, p: seq<Blog>, b: Blog, m: Measure)
    requires Distinct(keys)
    ensures SumTallies(keys, p + [b], m) == SumTallies(keys, p, m) + (if b.author in keys then Weight(m, b) else 0)
  {
    if keys != [] {
      assert (p + [b])[..|p + [b]| - 1] == p;
      assert b.author in keys[1..] ==> b.author != keys[0];
      SumTalliesAppendRecord(keys[1..], p, b, m);
    }
  }

  /** The per-author totals partition the total weight of all records. */
  lemma {:induction false} TalliesPartitionTotal(s: seq<Blog>, m: Measure)
    ensures SumTallies(Authors(s), s, m) == TotalWeight(s, m)
  {
    if s != [] {
      var p, b := s[..|s| - 1], s[|s| - 1];
      assert s == p + [b];
      var A := Authors(p);
      TalliesPartitionTotal(p, m);
      AuthorsAreTheAuthors(p);
      SumTalliesAppendRecord(A, p, b, m);
      if b.author !in A {
        SumTalliesAppendKey(A, b.author, s, m);
        TallyOfNonAuthor(p, b.author, m);
      }
    }
  }

  /**
   * A first maximum of the totals in key order is the top author in input order: this is why
   * scanning the insertion-ordered map with strict `>` picks the earliest-seen author on a tie.
   */
  lemma FirstMaxKeyIsTopAuthor(s: seq<Blog>, m: Measure, k: nat)
    requires k < |Authors(s)|
    requires forall j :: 0 <= j < |Authors(s)| ==> Tally(s, Authors(s)[j], m) <= Tally(s, Authors(s)[k], m)
    requires forall j :: 0 <= j < k ==> Tally(s, Authors(s)[j], m) < Tally(s, Authors(s)[k], m)
    ensures IsTopAuthor(s, m, Authors(s)[k], Tally(s, Authors(s)[k], m))
  {
    var A := Authors(s);
    var a, n := A[k], Tally(s, A[k], m);
    AuthorsAreTheAuthors(s);
    AuthorsInFirstSeenOrder(s);
    forall i | 0 <= i < |s|
      ensures Tally(s, s[i].author, m) <= n
      ensures Tally(s, s[i].author, m) == n ==> FirstIndex(s, a) <= i
    {
      assert IsAuthor(s, s[i].author);
      var j :| 0 <= j < |A| && A[j] == s[i].author;
      if j > k {
        assert FirstIndex(s, A[k]) < FirstIndex(s, A[j]);
      }
    }
  }

  /** The top author and its total are determined by the records alone. */
  lemma TopAuthorIsUnique(s: seq<Blog>, m: Measure, a1: string, n1: int, a2: string, n2: int)
    requires IsTopAuthor(s, m, a1, n1) && IsTopAuthor(s, m, a2, n2)
    ensures a1 == a2 && n1 == n2
  {
    var i1 :| 0 <= i1 < |s| && s[i1].author == a1;
    var i2 :| 0 <= i2 < |s| && s[i2].author == a2;
    assert n1 == n2;
    var f1, f2 := FirstIndex(s, a1), FirstIndex(s, a2);
    assert f1 <= i2 && f2 <= i1;
    assert f1 <= f2 && f2 <= f1;
  }
}
