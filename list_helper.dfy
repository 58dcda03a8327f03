/**
 * The blog list aggregation helpers: a constant, the total number of likes, the most liked post,
 * and the author with the most posts or the most likes.
 */
module ListHelper {
  import opened Wrappers
  import opened BlogRecords
  import opened AuthorTally

  /** An author and their number of posts; `blogs` is -1 only while the scan has seen no author. */
  datatype AuthorBlogs = AuthorBlogs(author: string, blogs: int)

  /** An author and their summed likes; `likes` is -1 only while the scan has seen no author. */
  datatype AuthorLikes = AuthorLikes(author: string, likes: int)

  // ---------------------------------------------------------------- dummy

  /** Returns one whatever the list. */
  function Dummy(blogs: seq<Blog>): (r: int)
    ensures r == 1
  {
    1
  }

  // ---------------------------------------------------------------- totalLikes

  /** `reduce` with `(sum, item) => sum + item.likes`, from running sum `sum`. */
  function SumFrom(sum: int, blogs: seq<Blog>): int
    decreases blogs
  {
    if blogs == [] then sum else SumFrom(sum + blogs[0].likes, blogs[1..])
  }

  function TotalLikes(blogs: seq<Blog>): int
  {
    SumFrom(0, blogs)
  }

  /** The fold from `sum` adds the likes of every record to `sum`. */
  lemma {:induction false} SumFromAddsLikes(sum: int, blogs: seq<Blog>)
    ensures SumFrom(sum, blogs) == sum + TotalWeight(blogs, Likes)
    decreases blogs
  {
    if blogs != [] {
      SumFromAddsLikes(sum + blogs[0].likes, blogs[1..]);
      assert blogs == [blogs[0]] + blogs[1..];
      TotalWeightAppend([blogs[0]], blogs[1..], Likes);
      assert [blogs[0]][..0] == [];
    }
  }

  /** The total is the sum of the likes of all records, and zero for no records. */
  lemma TotalLikesIsSum(blogs: seq<Blog>)
    ensures TotalLikes(blogs) == TotalWeight(blogs, Likes)
    ensures blogs == [] ==> TotalLikes(blogs) == 0
  {
    SumFromAddsLikes(0, blogs);
  }

  /** The total of two lists one after the other is the sum of their totals. */
  lemma TotalLikesAppend(s: seq<Blog>, t: seq<Blog>)
    ensures TotalLikes(s + t) == TotalLikes(s) + TotalLikes(t)
  {
    TotalLikesIsSum(s + t);
    TotalLikesIsSum(s);
    TotalLikesIsSum(t);
    TotalWeightAppend(s, t, Likes);
  }

  /** Adding a record never lowers the total. */
  lemma TotalLikesGrows(s: seq<Blog>, b: Blog)
    ensures TotalLikes(s) <= TotalLikes(s + [b])
  {
    TotalLikesAppend(s, [b]);
    TotalLikesIsSum([b]);
    assert [b][..0] == [];
  }

  // ---------------------------------------------------------------- favoriteBlog

  /** `reduce` with `(max, item) => item.likes > max.likes ? item : max`, from `max`. */
  function MaxFrom(max: Blog, blogs: seq<Blog>): Blog
    decreases blogs
  {
    if blogs == [] then max
    else MaxFrom(if blogs[0].likes > max.likes then blogs[0] else max, blogs[1..])
  }

  function FavoriteBlog(blogs: seq<Blog>): Option<Blog>
  {
    if |blogs| == 0 then None else Some(MaxFrom(blogs[0], blogs))
  }

  /** Position `i` holds the most likes of `s`, and every earlier record has strictly fewer. */
  ghost predicate IsFirstMax(s: seq<Blog>, i: int)
  {
    && 0 <= i < |s|
    && (forall j :: 0 <= j < |s| ==> s[j].likes <= s[i].likes)
    && (forall j :: 0 <= j < i ==> s[j].likes < s[i].likes)
  }

  /** Folding the rest `t` from the first maximum of `p` ends at the first maximum of `p + t`. */
  lemma {:induction false} MaxFromKeepsFirstMax(p: seq<Blog>, i: nat, t: seq<Blog>) returns (k: nat)
    requires IsFirstMax(p, i)
    ensures IsFirstMax(p + t, k) && (p + t)[k] == MaxFrom(p[i], t)
    decreases t
  {
    if t == [] {
      assert p + t == p;
      k := i;
    } else {
      var p' := p + [t[0]];
      var i' := if t[0].likes > p[i].likes then |p| else i;
      assert IsFirstMax(p', i');
      assert p' + t[1..] == p + t;
      k := MaxFromKeepsFirstMax(p', i', t[1..]);
    }
  }

  /**
   * No favourite exactly for no records; otherwise the favourite is the record at position `i`,
   * the first position holding the most likes.
   */
  lemma {:induction false} FavoriteBlogIsFirstMax(blogs: seq<Blog>) returns (i: nat)
    ensures FavoriteBlog(blogs).None? <==> |blogs| == 0
    ensures |blogs| > 0 ==> IsFirstMax(blogs, i) && FavoriteBlog(blogs) == Some(blogs[i])
  {
    if |blogs| == 0 {
      i := 0;
    } else {
      var p := [blogs[0]];
      assert IsFirstMax(p, 0);
      assert p + blogs[1..] == blogs;
      i := MaxFromKeepsFirstMax(p, 0, blogs[1..]);
    }
  }

  // ---------------------------------------------------------------- mostBlogs, mostLikes

  /**
   * The first pass of the grouping helpers: one forward pass over the records filling a map from
   * author to running total, where a first record sets the author's entry and later ones add to
   * it. The JavaScript `Map` is `keys`, its keys in insertion order, together with `tally`.
   */
  method GroupByAuthor(blogs: seq<Blog>, m: Measure) returns (keys: seq<string>, tally: map<string, nat>)
    ensures keys == Authors(blogs)
    ensures Distinct(keys)
    ensures forall a :: a in tally <==> a in keys
    ensures forall a :: a in tally <==> IsAuthor(blogs, a)
    ensures forall a :: a in tally ==> tally[a] == Tally(blogs, a, m)
  {
    keys, tally := [], map[];
    var i := 0;
    while i < |blogs|
      invariant 0 <= i <= |blogs|
      invariant keys == Authors(blogs[..i])
      invariant forall a :: a in tally <==> a in keys
      invariant forall a :: a in tally ==> tally[a] == Tally(blogs[..i], a, m)
    {
      var blog := blogs[i];
      assert blogs[..i + 1][..i] == blogs[..i];
      if blog.author !in tally {
        TallyOfNonAuthor(blogs[..i], blog.author, m);
        keys := keys + [blog.author];
        tally := tally[blog.author := Weight(m, blog)];
      } else {
        var current := tally[blog.author];
        tally := tally[blog.author := current + Weight(m, blog)];
      }
      i := i + 1;
    }
    assert blogs[..i] == blogs;
    AuthorsAreTheAuthors(blogs);
  }

  /** Key `keys[k]` has the largest total, and every key before it a strictly smaller one. */
  ghost predicate IsFirstTopKey(keys: seq<string>, tally: map<string, nat>, k: int)
    requires forall a :: a in keys ==> a in tally
  {
    && 0 <= k < |keys|
    && (forall j :: 0 <= j < |keys| ==> tally[keys[j]] <= tally[keys[k]])
    && (forall j :: 0 <= j < k ==> tally[keys[j]] < tally[keys[k]])
  }

  /**
   * The second pass: scan the map in key order with a best-so-far record that starts at the
   * sentinel author "" with total -1 and is replaced only by a strictly larger total.
   */
  method PickTop(keys: seq<string>, tally: map<string, nat>) returns (author: string, best: int)
    requires forall a :: a in keys ==> a in tally
    ensures keys == [] ==> author == "" && best == -1
    ensures keys != [] ==> exists k :: IsFirstTopKey(keys, tally, k) && author == keys[k] && best == tally[author]
  {
    author, best := "", -1;
    ghost var at := 0;
    var k := 0;
    while k < |keys|
      invariant 0 <= k <= |keys|
      invariant k == 0 ==> author == "" && best == -1 && at == 0
      invariant k > 0 ==> at < k && author == keys[at] && best == tally[author]
      invariant forall j :: 0 <= j < k ==> tally[keys[j]] <= best
      invariant forall j :: 0 <= j < at ==> tally[keys[j]] < best
    {
      var total := tally[keys[k]];
      if total > best {
        author, best := keys[k], total;
        at := k;
      }
      k := k + 1;
    }
  }

  /**
   * No result exactly for no records; otherwise the author with the most posts, their post
   * count, and on a tie the author whose first post comes first.
   */
  method MostBlogs(blogs: seq<Blog>) returns (r: Option<AuthorBlogs>)
    ensures r.None? <==> |blogs| == 0
    ensures r.Some? ==> IsTopAuthor(blogs, Posts, r.value.author, r.value.blogs)
  {
    if |blogs| == 0 {
      return None;
    }
    var keys, tally := GroupByAuthor(blogs, Posts);
    var author, count := PickTop(keys, tally);
    assert IsAuthor(blogs, blogs[0].author);
    ghost var k :| IsFirstTopKey(keys, tally, k) && author == keys[k];
    FirstMaxKeyIsTopAuthor(blogs, Posts, k);
    r := Some(AuthorBlogs(author, count));
  }

  /**
   * No result exactly for no records; otherwise the author with the most likes summed over
   * their posts, that sum, and on a tie the author whose first post comes first.
   */
  method MostLikes(blogs: seq<Blog>) returns (r: Option<AuthorLikes>)
    ensures r.None? <==> |blogs| == 0
    ensures r.Some? ==> IsTopAuthor(blogs, Likes, r.value.author, r.value.likes)
  {
    if |blogs| == 0 {
      return None;
    }
    var keys, tally := GroupByAuthor(blogs, Likes);
    var author, likes := PickTop(keys, tally);
    assert IsAuthor(blogs, blogs[0].author);
    ghost var k :| IsFirstTopKey(keys, tally, k) && author == keys[k];
    FirstMaxKeyIsTopAuthor(blogs, Likes, k);
    r := Some(AuthorLikes(author, likes));
  }

  /** The per-author like sums that `MostLikes` ranks add up to `TotalLikes`. */
  lemma AuthorLikesAddUpToTotal(blogs: seq<Blog>)
    ensures SumTallies(Authors(blogs), blogs, Likes) == TotalLikes(blogs)
  {
    TalliesPartitionTotal(blogs, Likes);
    TotalLikesIsSum(blogs);
  }

  /** The per-author post counts that `MostBlogs` ranks add up to the number of records. */
  lemma AuthorPostsAddUpToCount(blogs: seq<Blog>)
    ensures SumTallies(Authors(blogs), blogs, Posts) == |blogs|
  {
    TalliesPartitionTotal(blogs, Posts);
    TotalPostsIsLength(blogs);
  }
}
