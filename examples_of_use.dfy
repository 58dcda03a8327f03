/** Worked inputs for the helpers, with the results their contracts fix. */
module ListHelperExamples {
  import opened Wrappers
  import opened BlogRecords
  import opened AuthorTally
  import opened ListHelper

  function Post(author: string, likes: nat): Blog
  {
    Blog("title", author, "url", likes)
  }

  /** Two posts tie at the most likes: the earlier one is the favourite. */
  lemma FavoriteBlogTieExample()
    ensures FavoriteBlog([Post("A", 5), Post("B", 10), Post("C", 10)]) == Some(Post("B", 10))
    ensures FavoriteBlog([]) == None
  {
  }

  /** Authors X, Y, X, Y, Z: X and Y tie with two posts each, and X posted first. */
  function TieInput(): seq<Blog>
  {
    [Post("X", 0), Post("Y", 0), Post("X", 0), Post("Y", 0), Post("Z", 0)]
  }

  lemma TieInputCounts()
    ensures Tally(TieInput(), "X", Posts) == 2
    ensures Tally(TieInput(), "Y", Posts) == 2
    ensures Tally(TieInput(), "Z", Posts) == 1
  {
    var s, x, y := TieInput(), Post("X", 0), Post("Y", 0);
    assert "X" != "Y" && "Y" != "Z" && "X" != "Z" by {
      assert "X"[0] != "Y"[0] && "Y"[0] != "Z"[0] && "X"[0] != "Z"[0];
    }
    assert s[..4] == [x, y, x, y] && [x, y, x, y][..3] == [x, y, x];
    assert [x, y, x][..2] == [x, y] && [x, y][..1] == [x] && [x][..0] == [];
    assert Tally([x], "X", Posts) == 1 && Tally([x], "Y", Posts) == 0 && Tally([x], "Z", Posts) == 0;
    assert Tally([x, y], "X", Posts) == 1 && Tally([x, y], "Y", Posts) == 1 && Tally([x, y], "Z", Posts) == 0;
    assert Tally([x, y, x], "X", Posts) == 2 && Tally([x, y, x], "Y", Posts) == 1;
    assert Tally([x, y, x, y], "Y", Posts) == 2 && Tally([x, y, x, y], "Z", Posts) == 0;
  }

  /** On the tie input, X with two posts is the one answer the contract of `MostBlogs` allows. */
  lemma TieInputTopIsX(a: string, n: int)
    requires IsTopAuthor(TieInput(), Posts, a, n)
    ensures a == "X" && n == 2
  {
    var s := TieInput();
    TieInputCounts();
    assert s[0].author == "X";
    assert IsTopAuthor(s, Posts, "X", 2);
    TopAuthorIsUnique(s, Posts, a, n, "X", 2);
  }

  method MostBlogsTieExample() returns (r: Option<AuthorBlogs>)
    ensures r == Some(AuthorBlogs("X", 2))
  {
    r := MostBlogs(TieInput());
    TieInputTopIsX(r.value.author, r.value.blogs);
  }

  /** Records X with 3 likes, Y with 5, X with 4: X's seven likes beat Y's five. */
  function LikesInput(): seq<Blog>
  {
    [Post("X", 3), Post("Y", 5), Post("X", 4)]
  }

  /** On this input, X with seven likes is the one answer the contract of `MostLikes` allows. */
  lemma LikesInputTopIsX(a: string, n: int)
    requires IsTopAuthor(LikesInput(), Likes, a, n)
    ensures a == "X" && n == 7
  {
    var s := LikesInput();
    assert "X" != "Y" by {
      assert "X"[0] != "Y"[0];
    }
    assert s[..2] == [Post("X", 3), Post("Y", 5)] && s[..2][..1] == [Post("X", 3)] && s[..2][..1][..0] == [];
    assert Tally(s[..2][..1], "X", Likes) == 3 && Tally(s[..2][..1], "Y", Likes) == 0;
    assert Tally(s[..2], "X", Likes) == 3 && Tally(s[..2], "Y", Likes) == 5;
    assert Tally(s, "X", Likes) == 7 && Tally(s, "Y", Likes) == 5;
    assert s[0].author == "X";
    assert IsTopAuthor(s, Likes, "X", 7);
    TopAuthorIsUnique(s, Likes, a, n, "X", 7);
  }

  method MostLikesExample() returns (r: Option<AuthorLikes>)
    ensures r == Some(AuthorLikes("X", 7))
  {
    r := MostLikes(LikesInput());
    LikesInputTopIsX(r.value.author, r.value.likes);
  }

  /** No records: no answer from either grouping helper. */
  method EmptyInputExample() returns (b: Option<AuthorBlogs>, l: Option<AuthorLikes>)
    ensures b == None && l == None
  {
    b := MostBlogs([]);
    l := MostLikes([]);
  }
}
