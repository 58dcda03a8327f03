# Blog list aggregation helpers, modelled in Dafny

The blog list service keeps blog posts (title, author, url, likes) in a document store and
serves them over HTTP. Its only component with real logic is the helper module
`utils/list_helper.js`, which summarises a list of posts:

- `dummy` returns 1;
- `totalLikes` folds the list, adding up `likes`;
- `favoriteBlog` folds the list keeping the post with the most likes, replacing the current
  favourite only on strictly more likes, and returns `null` for an empty list;
- `mostBlogs` and `mostLikes` return `null` for an empty list; otherwise they fill a `Map` from
  author to post count (or to summed likes) in one forward pass, then scan that map in
  insertion order with a best-so-far record that starts at author `''` with total `-1` and is
  replaced only by a strictly larger total.

This project models that module and proves what it computes.

Files:

- `wrappers.dfy` (`Wrappers`): `Option`, standing for the `null` results.
- `blog_records.dfy` (`BlogRecords`): the `Blog` record with `likes: nat`. It also holds `Measure`,
  which says what a grouping pass adds per post: `Posts` adds 1 and `Likes` adds the post's likes.
  `TotalWeight` is the reference sum over all records.
- `author_tally.dfy` (`AuthorTally`): the specification of grouping by author.
  - `Authors` lists the distinct authors in first-seen order.
  - `Tally` is one author's total.
  - `FirstIndex` is the position of an author's first post.
  - `IsTopAuthor` says what a grouping helper must return.
  - The lemmas relate the key order of the map to the order of the input.
- `list_helper.dfy` (`ListHelper`): the five helpers.
  - `Dummy`, `TotalLikes` (through `SumFrom`) and `FavoriteBlog` (through `MaxFrom`) are
    accumulator-passing functions shaped like the `reduce` calls.
  - `MostBlogs` and `MostLikes` are methods. Each runs the first pass (`GroupByAuthor`, a loop
    that updates a key list and a map) and then the second pass (`PickTop`, a loop with a mutable
    best-so-far author and total).
- `examples_of_use.dfy` (`ListHelperExamples`): concrete inputs with ties, whose
  results are derived from the contracts.

The JavaScript `Map` is modelled as two values: `keys`, its keys in insertion order, and
`tally`, a `map<string, nat>`. The source's two grouping helpers repeat the same two passes and
differ only in what one post adds (1 or its likes), so the passes are written once,
parameterised by `Measure`. The result records keep the source's field names: `blogs` in
`mostBlogs` and `likes` in `mostLikes`.

Every helper is a function of its input alone. Calling one twice on the same list gives the same
answer, so no lemma is needed for that.

## Model

| member | source | states |
|---|---|---|
| `ListHelper.Dummy` | utils/list_helper.js:1-3 | the result is 1 for every list, the empty one included |
| `ListHelper.SumFromAddsLikes` | utils/list_helper.js:6 | the `reduce` fold from a running sum adds the likes of every record to that sum |
| `ListHelper.TotalLikesIsSum` | utils/list_helper.js:5-7 | `totalLikes` is the sum of the likes of all records, and 0 for the empty list |
| `ListHelper.TotalLikesAppend` | utils/list_helper.js:5-7 | the total of a concatenation is the sum of the two totals |
| `ListHelper.TotalLikesGrows` | utils/list_helper.js:5-7 | appending a record never lowers the total |
| `ListHelper.MaxFromKeepsFirstMax` | utils/list_helper.js:12 | folding the rest of the list from the first maximum of a prefix ends at the first maximum of the whole list, because of the strict `>` |
| `ListHelper.FavoriteBlogIsFirstMax` | utils/list_helper.js:9-13 | the result is `null` exactly for the empty list; otherwise it is the record at the index the lemma returns, the smallest index whose likes are at least every record's likes |
| `ListHelper.GroupByAuthor` | utils/list_helper.js:20-29 | the first pass (also lines 52-61) gives keys that are the input's authors in first-seen order, each exactly once, and each key's value is that author's post count or like sum |
| `ListHelper.PickTop` | utils/list_helper.js:31-41 | the second pass (also lines 63-73) keeps the sentinel `''`/-1 for an empty map; otherwise it returns the first key in insertion order whose total is the largest, with that total |
| `ListHelper.MostBlogs` | utils/list_helper.js:15-44 | `null` exactly for the empty list; otherwise the result is a real author and their post count, no author has more posts, and among authors with that count it is the one whose first post comes first |
| `ListHelper.MostLikes` | utils/list_helper.js:47-76 | `null` exactly for the empty list; otherwise the result is a real author (not the sentinel) and their summed likes, no author has more, and among authors with that sum it is the one whose first post comes first |
| `ListHelper.AuthorLikesAddUpToTotal` | utils/list_helper.js:52-61 | the per-author like sums built by `mostLikes` add up to `totalLikes` of the same list |
| `ListHelper.AuthorPostsAddUpToCount` | utils/list_helper.js:20-29 | the per-author post counts built by `mostBlogs` add up to the number of records |
| `AuthorTally.FirstIndex` | utils/list_helper.js:23 | the position of an author's first record, where `authors.has` first fails for that author, or the list length when the author wrote nothing |
| `AuthorTally.AuthorsAreTheAuthors` | utils/list_helper.js:22-29 | the map's keys hold no author twice and are exactly the authors appearing in the input |
| `AuthorTally.TallyOfNonAuthor` | utils/list_helper.js:23-24 | an author not yet among the keys has total 0, so setting the entry to 1 or to the post's likes starts the count correctly |
| `AuthorTally.AuthorsInFirstSeenOrder` | utils/list_helper.js:22-29 | the map's insertion order is the order of the authors' first records in the input |
| `AuthorTally.AuthorHasPosts` | utils/list_helper.js:24 | every key of the post-count map has a count of at least 1 |
| `AuthorTally.TalliesPartitionTotal` | utils/list_helper.js:22-29 | the per-author totals add up to the total over all records, under either measure |
| `AuthorTally.FirstMaxKeyIsTopAuthor` | utils/list_helper.js:36-41 | the first maximum in key order is the top author in input order, so an exact tie goes to the author seen first |
| `AuthorTally.TopAuthorIsUnique` | utils/list_helper.js:15-44 | at most one author and total meet the grouping helpers' contract, so that contract fixes their result |
| `ListHelperExamples.FavoriteBlogTieExample` | utils/list_helper.js:9-13 | for likes A 5, B 10, C 10 the favourite is B, and for the empty list it is `null` |
| `ListHelperExamples.TieInputCounts` | utils/list_helper.js:22-29 | for authors X, Y, X, Y, Z the counts are X 2, Y 2, Z 1 |
| `ListHelperExamples.TieInputTopIsX` | utils/list_helper.js:15-44 | for authors X, Y, X, Y, Z the only answer allowed is X with 2 posts |
| `ListHelperExamples.MostBlogsTieExample` | utils/list_helper.js:15-44 | `mostBlogs` on authors X, Y, X, Y, Z returns X with 2 posts |
| `ListHelperExamples.LikesInputTopIsX` | utils/list_helper.js:47-76 | for X 3, Y 5, X 4 the only answer allowed is X with 7 likes |
| `ListHelperExamples.MostLikesExample` | utils/list_helper.js:47-76 | `mostLikes` on X 3, Y 5, X 4 returns X with 7 likes |
| `ListHelperExamples.EmptyInputExample` | utils/list_helper.js:16-18 | both grouping helpers return `null` for the empty list (also lines 48-50) |

## Left out

- JavaScript number semantics: likes are unbounded naturals. Floating-point addition, `NaN` from
  a missing `likes`, and negative likes are not modelled. Those are the only cases in which the
  `-1` sentinel of lines 33 and 65 could survive the scan.
- A post with no `author`: the model's authors are strings, so the `undefined` map key is not
  represented.
- Object identity: `favoriteBlog` returns the input's own object, and `mostBlogs`/`mostLikes`
  return a freshly built object. The model returns values, equal to the selected record or to
  the author and total.
- The rest of the repository: the HTTP routes, the Mongoose model, the database connection and
  the integration tests in `tests/blogListTests.test.js`. They are plumbing around a web
  framework and a database, and the app and models are not part of this model.
