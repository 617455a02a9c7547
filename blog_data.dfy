/**
 * The in-memory blog repository: a fixed list of blogs, lookup of one blog
 * by id, lookup of many blogs by id into a keyed object, and the whole list.
 */
module BlogData {
  import opened Wrappers
  import JsArray

  datatype Blog = Blog(id: string, name: string)

  /** The `BLOGS` fixture, in declaration order. */
  const Blogs: seq<Blog> := [
    Blog("1", "つれづれ草子"),
    Blog("2", "インターネット観察日記"),
    Blog("3", "びっくりブログ")
  ]

  /** The fixture's ids are pairwise distinct. */
  lemma BlogIdsDistinct()
    ensures forall i, j :: 0 <= i < j < |Blogs| ==> Blogs[i].id != Blogs[j].id
  {
  }

  /** `findBlog` finds a fixture blog by its own id. */
  lemma FindBlogOfFixture(b: Blog)
    requires b in Blogs
    ensures FindBlog(b.id) == Some(b)
  {
    BlogIdsDistinct();
  }

  /** `findBlog(id)`: the first fixture blog with that id, `None` for `undefined`. */
  function FindBlog(id: string): (r: Option<Blog>)
    ensures r.None? <==> forall j :: 0 <= j < |Blogs| ==> Blogs[j].id != id
    ensures r.Some? ==> r.value in Blogs && r.value.id == id
  {
    JsArray.Find(Blogs, (b: Blog) => b.id == id)
  }

  /**
   * The object `findBlogs(ids)` builds, as a map from id to blog: the loop's
   * state after processing `ids` from left to right.
   */
  function BlogsById(ids: seq<string>): (m: map<string, Blog>)
    ensures forall k :: k in m <==> k in ids && FindBlog(k).Some?
    ensures forall k :: k in m ==> FindBlog(k) == Some(m[k])
  {
    if ids == [] then map[]
    else
      var prefix := BlogsById(ids[..|ids| - 1]);
      var id := ids[|ids| - 1];
      assert forall k :: k in ids <==> k in ids[..|ids| - 1] || k == id;
      match FindBlog(id)
      case None => prefix
      case Some(blog) => prefix[id := blog]
  }

  /** Every stored entry is a fixture blog whose `id` is its key. */
  lemma {:induction false} BlogsByIdEntries(ids: seq<string>, k: string)
    requires k in BlogsById(ids)
    ensures BlogsById(ids)[k].id == k && BlogsById(ids)[k] in Blogs
  {
  }

  /** Asking for an id a second time leaves the result unchanged. */
  lemma {:induction false} BlogsByIdRepeat(ids: seq<string>, id: string)
    requires id in ids
    ensures BlogsById(ids + [id]) == BlogsById(ids)
  {
    assert (ids + [id])[..|ids + [id]| - 1] == ids;
  }

  /** The result depends only on the set of requested ids, not on their order. */
  lemma BlogsByIdOrderFree(ids1: seq<string>, ids2: seq<string>)
    requires forall k :: k in ids1 <==> k in ids2
    ensures BlogsById(ids1) == BlogsById(ids2)
  {
    var m1, m2 := BlogsById(ids1), BlogsById(ids2);
    assert m1.Keys == m2.Keys;
    forall k | k in m1 ensures m1[k] == m2[k] {
      assert FindBlog(k) == Some(m1[k]) == Some(m2[k]);
    }
  }

  /**
   * `findBlogs(ids)`: for each requested id, looks the blog up and stores it
   * under that id, skipping ids with no blog.
   */
  method FindBlogs(ids: seq<string>) returns (result: map<string, Blog>)
    ensures result == BlogsById(ids)
    ensures forall k :: k in result <==> k in ids && exists j :: 0 <= j < |Blogs| && Blogs[j].id == k
    ensures forall k :: k in result ==> result[k].id == k && result[k] in Blogs
  {
    result := map[];
    for i := 0 to |ids|
      invariant result == BlogsById(ids[..i])
    {
      assert ids[..i + 1][..i] == ids[..i];
      var blog := FindBlog(ids[i]);
      if blog.None? {
        continue;
      }
      result := result[ids[i] := blog.value];
    }
    assert ids[..|ids|] == ids;
  }

  /** `getBlogs()`: the whole fixture, in declaration order. */
  function GetBlogs(): (r: seq<Blog>)
    ensures r == Blogs
  {
    Blogs
  }
}
