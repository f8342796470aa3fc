/**
 * The fixed catalog of things to do (`blog_posts` and `categories`) and the
 * queries the pages run over it: the featured list of the home page, the
 * lookup by id of the detail page and the case-insensitive filter of the
 * category page.
 */
module Catalog {
  import opened Wrappers
  import opened Text
  import opened Seqs

  /** A catalog entry; its display strings (title, emoji, tips, ...) are not modelled. */
  datatype Post = Post(id: int, category: string, featured: bool)

  const BlogPosts: seq<Post> := [
    Post(1, "Creative", true),
    Post(2, "Mindfulness", false),
    Post(3, "Creative", true),
    Post(4, "Outdoor", false),
    Post(5, "Creative", true),
    Post(6, "Entertainment", false),
    Post(7, "Educational", true),
    Post(8, "Productive", false)
  ]

  /** The sentinel that heads the category list and stands for "no filter". */
  const AllSentinel: string := "All"

  const Categories: seq<string> :=
    [AllSentinel, "Creative", "Mindfulness", "Outdoor", "Entertainment", "Educational", "Productive"]

  /** No two posts share an id. */
  predicate IdsUnique(posts: seq<Post>) {
    forall i, j :: 0 <= i < j < |posts| ==> posts[i].id != posts[j].id
  }

  /** Every post's category is a listed category other than the sentinel. */
  predicate CategoriesListed(posts: seq<Post>, categories: seq<string>) {
    forall p :: p in posts ==> p.category in categories && p.category != AllSentinel
  }

  /** Ids are 1..8 in catalog order, hence pairwise distinct. */
  lemma CatalogIds()
    ensures |BlogPosts| == 8
    ensures forall i :: 0 <= i < |BlogPosts| ==> BlogPosts[i].id == i + 1
    ensures IdsUnique(BlogPosts)
  {
  }

  /** Every post's category is listed, and the sentinel is the only listed name no post uses. */
  lemma CatalogCategories()
    ensures Categories[0] == AllSentinel
    ensures CategoriesListed(BlogPosts, Categories)
    ensures forall k :: 1 <= k < |Categories| ==> exists i :: 0 <= i < |BlogPosts| && BlogPosts[i].category == Categories[k]
  {
    // firstUse[k - 1] is the index of the first post filed under Categories[k]
    var firstUse := [0, 1, 3, 5, 6, 7];
    forall k | 1 <= k < |Categories|
      ensures exists i :: 0 <= i < |BlogPosts| && BlogPosts[i].category == Categories[k]
    {
      assert BlogPosts[firstUse[k - 1]].category == Categories[k];
    }
    // categoryOf[i] is the index in Categories of post i's category
    var categoryOf := [1, 2, 1, 3, 1, 4, 5, 6];
    forall p | p in BlogPosts
      ensures p.category in Categories && p.category != AllSentinel
    {
      var i :| 0 <= i < |BlogPosts| && BlogPosts[i] == p;
      assert p.category == Categories[categoryOf[i]];
      assert p.category[0] != 'A';
    }
  }

  predicate IsFeatured(p: Post) { p.featured }

  /** The test of the category page's comprehension, for the name in the URL. */
  function InCategory(name: string): Post -> bool {
    (p: Post) => LowerStr(p.category) == LowerStr(name)
  }

  /** The home page's `featured_posts`: the featured posts, in catalog order. */
  function Featured(posts: seq<Post>): (r: seq<Post>)
    ensures forall p {:trigger p in r} :: p in r <==> p in posts && p.featured
    ensures forall p :: multiset(r)[p] == if p.featured then multiset(posts)[p] else 0
    ensures IsSubsequence(r, posts)
    ensures |r| <= |posts|
  {
    FilterCounts(posts, IsFeatured);
    Filter(posts, IsFeatured)
  }

  /** The detail page's lookup: the first post with the given id, or None. */
  function FindById(posts: seq<Post>, id: int): (r: Option<Post>)
    ensures r.None? <==> forall p :: p in posts ==> p.id != id
    ensures r.Some? ==> exists i :: 0 <= i < |posts| && posts[i] == r.value && r.value.id == id &&
                                  forall j :: 0 <= j < i ==> posts[j].id != id
  {
    if posts == [] then None
    else if posts[0].id == id then Some(posts[0])
    else
      var r := FindById(posts[1..], id);
      assert posts == [posts[0]] + posts[1..];
      if r.Some? then
        var i :| 0 <= i < |posts[1..]| && posts[1..][i] == r.value && r.value.id == id &&
                 forall j :: 0 <= j < i ==> posts[1..][j].id != id;
        assert posts[i + 1] == r.value;
        r
      else r
  }

  /** In a catalog with unique ids, looking up a post's id yields that post. */
  lemma FindByIdUnique(posts: seq<Post>, p: Post)
    requires IdsUnique(posts)
    requires p in posts
    ensures FindById(posts, p.id) == Some(p)
  {
  }

  /** The HTTP status of `/activity/<id>`: 404 when no post has that id, 200 otherwise. */
  function DetailStatus(posts: seq<Post>, id: int): (status: int)
    ensures status == 404 <==> forall p :: p in posts ==> p.id != id
    ensures status == 200 <==> exists p :: p in posts && p.id == id
  {
    match FindById(posts, id)
    case None => 404
    case Some(_) => 200
  }

  /** The category page's `filtered_posts`: posts whose category equals the name, ignoring case. */
  function ByCategory(posts: seq<Post>, name: string): (r: seq<Post>)
    ensures forall p {:trigger p in r} :: p in r <==> p in posts && LowerStr(p.category) == LowerStr(name)
    ensures forall p :: multiset(r)[p] == if LowerStr(p.category) == LowerStr(name) then multiset(posts)[p] else 0
    ensures IsSubsequence(r, posts)
  {
    FilterCounts(posts, InCategory(name));
    Filter(posts, InCategory(name))
  }

  /** Names that differ only in case select the same posts. */
  lemma ByCategoryIgnoresCase(posts: seq<Post>, a: string, b: string)
    requires LowerStr(a) == LowerStr(b)
    ensures ByCategory(posts, a) == ByCategory(posts, b)
  {
  }

  /** A name that matches no post gives an empty listing rather than an error. */
  lemma ByCategoryNoMatch(posts: seq<Post>, name: string)
    requires forall p :: p in posts ==> LowerStr(p.category) != LowerStr(name)
    ensures ByCategory(posts, name) == []
  {
    var r := ByCategory(posts, name);
    assert forall k :: 0 <= k < |r| ==> r[k] in r;
  }

  /** The home page features posts 1, 3, 5 and 7. */
  lemma HomeFeatured()
    ensures Featured(BlogPosts) == [BlogPosts[0], BlogPosts[2], BlogPosts[4], BlogPosts[6]]
  {
    var s := BlogPosts;
    FeaturedOddPositions(s);
  }

  /** The featured list of eight posts flagged alternately, starting with a featured one. */
  lemma FeaturedOddPositions(s: seq<Post>)
    requires |s| == 8
    requires s[0].featured && s[2].featured && s[4].featured && s[6].featured
    requires !s[1].featured && !s[3].featured && !s[5].featured && !s[7].featured
    ensures Filter(s, IsFeatured) == [s[0], s[2], s[4], s[6]]
  {
    assert s[8..] == [];
    FilterStep(s, 7, IsFeatured);
    FilterStep(s, 6, IsFeatured);
    FilterStep(s, 5, IsFeatured);
    FilterStep(s, 4, IsFeatured);
    FilterStep(s, 3, IsFeatured);
    FilterStep(s, 2, IsFeatured);
    FilterStep(s, 1, IsFeatured);
    FilterStep(s, 0, IsFeatured);
    assert s[0..] == s;
  }

  /** `/category/outdoor` lists exactly the one outdoor post. */
  lemma OutdoorPage()
    ensures ByCategory(BlogPosts, "outdoor") == [BlogPosts[3]]
  {
    var s, outdoor := BlogPosts, InCategory("outdoor");
    assert s[8..] == [];
    FilterStep(s, 7, outdoor);
    FilterStep(s, 6, outdoor);
    FilterStep(s, 5, outdoor);
    FilterStep(s, 4, outdoor);
    FilterStep(s, 3, outdoor);
    assert outdoor(s[3]);
    FilterStep(s, 2, outdoor);
    FilterStep(s, 1, outdoor);
    FilterStep(s, 0, outdoor);
    assert s[0..] == s;
  }

  /** `/category/Nonexistent` lists nothing, and is not an error. */
  lemma NonexistentPage()
    ensures ByCategory(BlogPosts, "Nonexistent") == []
  {
    forall p | p in BlogPosts
      ensures LowerStr(p.category) != LowerStr("Nonexistent")
    {
      assert LowerStr(p.category)[0] != 'n';
    }
    ByCategoryNoMatch(BlogPosts, "Nonexistent");
  }

  /** Every id 1..8 finds its post; any other id leads to the 404 page. */
  lemma DetailPages(id: int)
    ensures 1 <= id <= 8 ==> FindById(BlogPosts, id) == Some(BlogPosts[id - 1])
    ensures DetailStatus(BlogPosts, id) == if 1 <= id <= 8 then 200 else 404
  {
    CatalogIds();
    if 1 <= id <= 8 {
      FindByIdUnique(BlogPosts, BlogPosts[id - 1]);
    }
  }
}
