/**
 * The in-memory post repository: a fixed list of posts, the posts of one
 * blog, and lookup of one post by id.
 */
module PostData {
  import opened Wrappers
  import JsArray
  import BlogData

  datatype Post = Post(id: string, blogId: string, title: string, body: string)

  /** The `POSTS` fixture, in declaration order. */
  const Posts: seq<Post> := [
    Post("1", "1", "今日はお寿司を食べました", "白身魚がおいしかった！"),
    Post("2", "1", "今日は雨でした", "家の掃除をして過ごしました。"),
    Post("3", "1", "今日はお買い物に行ったよ", "ずっと欲しかった靴を買いました。"),
    Post("4", "2", "映画", "映画は感想を読む前にまっさらな気持ちでみたい。"),
    Post("5", "2", "水族館", "話題になっていたクラゲの展示が気になる。"),
    Post("6", "3", "散歩に行ったら", "空から魚が降ってきてびっくりした！")
  ]

  /** Every fixture post belongs to a fixture blog: no reference dangles. */
  lemma PostsReferenceBlogs()
    ensures forall i :: 0 <= i < |Posts| ==> BlogData.FindBlog(Posts[i].blogId).Some?
  {
    forall i | 0 <= i < |Posts| ensures BlogData.FindBlog(Posts[i].blogId).Some? {
      assert BlogData.Blogs[0].id == "1" && BlogData.Blogs[1].id == "2" && BlogData.Blogs[2].id == "3";
    }
  }

  /** `findPostByBlogId(blogId)`: the posts of that blog, empty when it has none. */
  function FindPostByBlogId(blogId: string): (r: seq<Post>)
    ensures forall k :: 0 <= k < |r| ==> r[k] in Posts && r[k].blogId == blogId
    ensures forall i :: 0 <= i < |Posts| && Posts[i].blogId == blogId ==> Posts[i] in r
    ensures (forall i :: 0 <= i < |Posts| ==> Posts[i].blogId != blogId) ==> r == []
  {
    JsArray.Filter(Posts, (p: Post) => p.blogId == blogId)
  }

  /**
   * The posts of a blog come out in fixture order: they are `Posts` at
   * strictly increasing positions, and those are all the positions holding
   * one of its posts.
   */
  lemma PostsOfBlogInOrder(blogId: string)
    ensures var ix := JsArray.KeptIndices(Posts, (p: Post) => p.blogId == blogId, 0);
      && |FindPostByBlogId(blogId)| == |ix|
      && (forall k :: 0 <= k < |ix| ==> FindPostByBlogId(blogId)[k] == Posts[ix[k]])
      && (forall k, l :: 0 <= k < l < |ix| ==> ix[k] < ix[l])
      && (forall i :: 0 <= i < |Posts| ==> (i in ix <==> Posts[i].blogId == blogId))
  {
    JsArray.FilterIsSubsequence(Posts, (p: Post) => p.blogId == blogId, 0);
    assert Posts[0..] == Posts;
  }

  /** `findPost(id)`: the first fixture post with that id, `None` for `undefined`. */
  function FindPost(id: string): (r: Option<Post>)
    ensures r.None? <==> forall j :: 0 <= j < |Posts| ==> Posts[j].id != id
    ensures r.Some? ==> r.value in Posts && r.value.id == id
  {
    JsArray.Find(Posts, (p: Post) => p.id == id)
  }
}
