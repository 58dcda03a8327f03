/** The blog record the aggregation helpers read, and the per-record weights they accumulate. */
module BlogRecords {

  /** A stored blog post. The helpers read only `author` and `likes`; the store's id is not modelled. */
  datatype Blog = Blog(title: string, author: string, url: string, likes: nat)

  /** The quantity a grouping pass accumulates per author: one per post, or the post's likes. */
  datatype Measure = Posts | Likes

  /** What one record adds to its author's running total under measure `m`. */
  function Weight(m: Measure, b: Blog): nat
  {
    match m
    case Posts => 1
    case Likes => b.likes
  }

  /** Total weight of all records of `s`, accumulated left to right. */
  function TotalWeight(s: seq<Blog>, m: Measure): nat
  {
    if s == [] then 0 else TotalWeight(s[..|s| - 1], m) + Weight(m, s[|s| - 1])
  }

  /** Splitting the records splits their total weight. */
  lemma {:induction false} TotalWeightAppend(s: seq<Blog>, t: seq<Blog>, m: Measure)
    ensures TotalWeight(s + t, m) == TotalWeight(s, m) + TotalWeight(t, m)
  {
    if t == [] {
      assert s + t == s;
    } else {
      var t' := t[..|t| - 1];
      assert (s + t)[..|s + t| - 1] == s + t';
      assert (s + t)[|s + t| - 1] == t[|t| - 1];
      TotalWeightAppend(s, t', m);
    }
  }

  /** Counting one per post gives the number of records. */
  lemma {:induction false} TotalPostsIsLength(s: seq<Blog>)
    ensures TotalWeight(s, Posts) == |s|
  {
    if s != [] {
      TotalPostsIsLength(s[..|s| - 1]);
    }
  }
}
