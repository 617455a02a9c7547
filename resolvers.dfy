/**
 * The GraphQL resolvers: `Query.node`, `Query.blogs`, `Blog.posts`,
 * `Post.blog`, `Node.__resolveType`, and the batch function behind the
 * blog loader. An exception thrown by a resolver is a `Throw` result
 * carrying the error's message.
 */
module Resolvers {
  import opened Wrappers
  import opened GraphQLRelay
  import opened BlogData
  import opened PostData

  datatype Result<+T> = Ok(value: T) | Throw(message: string)

  /** An object of the `Node` interface, as the resolvers return it. */
  datatype Node = BlogNode(blog: Blog) | PostNode(post: Post)

  function NodeId(n: Node): string {
    match n
    case BlogNode(b) => b.id
    case PostNode(p) => p.id
  }

  /** `{ ...blog, id: toGlobalId("Blog", blog.id) }` */
  function GlobalBlog(relay: Relay, b: Blog): Blog {
    b.(id := relay.toGlobalId("Blog", b.id))
  }

  /** `{ ...post, id: toGlobalId("Post", post.id) }` */
  function GlobalPost(relay: Relay, p: Post): Post {
    p.(id := relay.toGlobalId("Post", p.id))
  }

  // ---------------------------------------------------------------------
  // The blog loader

  /**
   * The batch function of `blogLoader`: one entry per requested id, in
   * request order; entry i is the blog with id `ids[i]`, or an error for
   * that id alone.
   */
  function BatchLoadBlogs(ids: seq<string>): (r: seq<Result<Blog>>)
    ensures |r| == |ids|
    ensures forall i :: 0 <= i < |ids| ==>
      r[i] == match FindBlog(ids[i])
              case Some(b) => Ok(b)
              case None => Throw("No result for " + ids[i])
  {
    var blogs := BlogsById(ids);
    seq(|ids|, i requires 0 <= i < |ids| =>
      if ids[i] in blogs then Ok(blogs[ids[i]]) else Throw("No result for " + ids[i]))
  }

  /** `blogLoader.load(key)`: the batch function's entry for `key`. */
  function LoadBlog(key: string): (r: Result<Blog>)
    ensures r == match FindBlog(key)
                 case Some(b) => Ok(b)
                 case None => Throw("No result for " + key)
  {
    BatchLoadBlogs([key])[0]
  }

  /**
   * Whatever batch a key is collected into, its entry is what `LoadBlog`
   * gives: neighbours in the batch, misses among them included, do not
   * affect it.
   */
  lemma BatchEntryIsLoad(ids: seq<string>, i: nat)
    requires i < |ids|
    ensures BatchLoadBlogs(ids)[i] == LoadBlog(ids[i])
  {
    assert [ids[i]][0] == ids[i];
  }

  // ---------------------------------------------------------------------
  // Query

  /**
   * `Query.node(id)`. The `"Post"` branch looks the post up by the whole
   * global id it was given, not by the decoded local id.
   */
  function NodeField(relay: Relay, globalId: string): (r: Result<Option<Node>>)
    ensures var g := relay.fromGlobalId(globalId);
      g.typeName == "Blog" ==>
        && r.Ok?
        && (r.value.None? <==> forall j :: 0 <= j < |Blogs| ==> Blogs[j].id != g.id)
        && (r.value.Some? ==>
              && r.value.value.BlogNode?
              && r.value.value.blog.id == relay.toGlobalId("Blog", g.id)
              && Blog(g.id, r.value.value.blog.name) in Blogs)
    ensures var g := relay.fromGlobalId(globalId);
      g.typeName == "Post" ==>
        && r.Ok?
        && (r.value.None? <==> forall j :: 0 <= j < |Posts| ==> Posts[j].id != globalId)
        && (r.value.Some? ==>
              && r.value.value.PostNode?
              && r.value.value.post.id == relay.toGlobalId("Post", globalId)
              && r.value.value.post.(id := globalId) in Posts)
    ensures var g := relay.fromGlobalId(globalId);
      g.typeName != "Blog" && g.typeName != "Post" ==> r == Throw("Unknown type: " + g.typeName)
  {
    var g := relay.fromGlobalId(globalId);
    if g.typeName == "Blog" then
      match FindBlog(g.id)
      case None => Ok(None)
      case Some(blog) => Ok(Some(BlogNode(GlobalBlog(relay, blog))))
    else if g.typeName == "Post" then
      match FindPost(globalId)
      case None => Ok(None)
      case Some(post) => Ok(Some(PostNode(GlobalPost(relay, post))))
    else
      Throw("Unknown type: " + g.typeName)
  }

  /**
   * `node` on the global id of a fixture blog returns that blog with only its
   * id replaced by the global id.
   */
  lemma NodeOfBlog(relay: Relay, b: Blog)
    requires RoundTrips(relay) && b in Blogs
    ensures NodeField(relay, relay.toGlobalId("Blog", b.id))
         == Ok(Some(BlogNode(Blog(relay.toGlobalId("Blog", b.id), b.name))))
  {
    FindBlogOfFixture(b);
  }

  /**
   * `node` on a well-formed `"Blog"` global id whose local id names no blog
   * is `null`, not an error.
   */
  lemma NodeOfMissingBlog(relay: Relay, localId: string)
    requires RoundTrips(relay)
    requires forall j :: 0 <= j < |Blogs| ==> Blogs[j].id != localId
    ensures NodeField(relay, relay.toGlobalId("Blog", localId)) == Ok(None)
  {
    assert relay.fromGlobalId(relay.toGlobalId("Blog", localId)) == ResolvedGlobalId("Blog", localId);
  }

  /**
   * The global id of a fixture post finds nothing through `node` unless the
   * encoded token happens to be some post's local id: the lookup is by the
   * token, so a genuine `"Post"` global id resolves to `null`.
   */
  lemma NodeOfPostIgnoresLocalId(relay: Relay, p: Post)
    requires RoundTrips(relay) && p in Posts
    requires forall j :: 0 <= j < |Posts| ==> Posts[j].id != relay.toGlobalId("Post", p.id)
    ensures NodeField(relay, relay.toGlobalId("Post", p.id)) == Ok(None)
  {
    assert relay.fromGlobalId(relay.toGlobalId("Post", p.id)) == ResolvedGlobalId("Post", p.id);
  }

  /**
   * `Query.blogs(args)`: the fixture blogs, each id replaced by its global
   * form, handed to `connectionFromArray` with the arguments unchanged.
   */
  function BlogsField(relay: Relay, args: ConnectionArgs): (r: ConnectionRequest<Blog>)
    ensures r.args == args
    ensures |r.data| == |Blogs|
    ensures forall i :: 0 <= i < |Blogs| ==>
      r.data[i].name == Blogs[i].name && r.data[i].id == relay.toGlobalId("Blog", Blogs[i].id)
  {
    var blogs := GetBlogs();
    ConnectionFromArray(seq(|blogs|, i requires 0 <= i < |blogs| => GlobalBlog(relay, blogs[i])), args)
  }

  /**
   * Every id in the `blogs` array decodes to its blog's type and local id,
   * and no two entries share a global id.
   */
  lemma BlogsFieldIdsDecode(relay: Relay, args: ConnectionArgs)
    requires RoundTrips(relay)
    ensures var data := BlogsField(relay, args).data;
      && (forall i :: 0 <= i < |data| ==>
            relay.fromGlobalId(data[i].id) == ResolvedGlobalId("Blog", Blogs[i].id))
      && (forall i, j :: 0 <= i < j < |data| ==> data[i].id != data[j].id)
  {
    var data := BlogsField(relay, args).data;
    BlogIdsDistinct();
    forall i, j | 0 <= i < j < |data| ensures data[i].id != data[j].id {
      if data[i].id == data[j].id {
        ToGlobalIdInjective(relay, "Blog", Blogs[i].id, Blogs[j].id);
      }
    }
  }

  // ---------------------------------------------------------------------
  // Blog

  /**
   * `Blog.posts(args)`: the posts of the blog whose local id is decoded from
   * the parent's global id, each id replaced by its global form, handed to
   * `connectionFromArray` with the arguments unchanged.
   */
  function BlogPostsField(relay: Relay, parent: Blog, args: ConnectionArgs): (r: ConnectionRequest<Post>)
    ensures r.args == args
    ensures var posts := FindPostByBlogId(relay.fromGlobalId(parent.id).id);
      && |r.data| == |posts|
      && forall i :: 0 <= i < |posts| ==>
           r.data[i].(id := posts[i].id) == posts[i] && r.data[i].id == relay.toGlobalId("Post", posts[i].id)
  {
    var id := relay.fromGlobalId(parent.id).id;
    var posts := FindPostByBlogId(id);
    ConnectionFromArray(seq(|posts|, i requires 0 <= i < |posts| => GlobalPost(relay, posts[i])), args)
  }

  /**
   * For a blog whose id is a global `"Blog"` id, `posts` lists, in fixture
   * order, exactly the fixture posts of the decoded local id, re-encoded.
   */
  lemma BlogPostsOfGlobalBlog(relay: Relay, localId: string, name: string, args: ConnectionArgs)
    requires RoundTrips(relay)
    ensures var data := BlogPostsField(relay, Blog(relay.toGlobalId("Blog", localId), name), args).data;
      var ix := JsArray.KeptIndices(Posts, (p: Post) => p.blogId == localId, 0);
      && |data| == |ix|
      && (forall k :: 0 <= k < |ix| ==> data[k] == GlobalPost(relay, Posts[ix[k]]))
      && (forall k, l :: 0 <= k < l < |ix| ==> ix[k] < ix[l])
      && (forall i :: 0 <= i < |Posts| ==> (i in ix <==> Posts[i].blogId == localId))
  {
    assert relay.fromGlobalId(relay.toGlobalId("Blog", localId)) == ResolvedGlobalId("Blog", localId);
    PostsOfBlogInOrder(localId);
  }

  // ---------------------------------------------------------------------
  // Post

  /**
   * `Post.blog`: the blog the loader gives for `parent.blogId`, with its id
   * re-encoded; the loader's error when no blog has that id.
   */
  function PostBlogField(relay: Relay, parent: Post): (r: Result<Blog>)
    ensures r.Ok? <==> exists j :: 0 <= j < |Blogs| && Blogs[j].id == parent.blogId
    ensures r.Ok? ==>
      r.value.id == relay.toGlobalId("Blog", parent.blogId) && Blog(parent.blogId, r.value.name) in Blogs
    ensures r.Throw? ==> r.message == "No result for " + parent.blogId
  {
    match LoadBlog(parent.blogId)
    case Ok(blog) => Ok(GlobalBlog(relay, blog))
    case Throw(message) => Throw(message)
  }

  /** For every fixture post, `Post.blog` resolves to its fixture blog. */
  lemma PostBlogOfFixture(relay: Relay, p: Post)
    requires p in Posts
    ensures PostBlogField(relay, p).Ok?
  {
    PostsReferenceBlogs();
    var i :| 0 <= i < |Posts| && Posts[i] == p;
    assert FindBlog(Posts[i].blogId).Some?;
  }

  // ---------------------------------------------------------------------
  // Node

  /** `Node.__resolveType(parent)`: the decoded type name when it is a node type. */
  function ResolveType(relay: Relay, parent: Node): (r: Result<string>)
    ensures var t := relay.fromGlobalId(NodeId(parent)).typeName;
      && (r.Ok? <==> t == "Blog" || t == "Post")
      && (r.Ok? ==> r.value == t)
      && (r.Throw? ==> r.message == "Unknown Type: " + t)
  {
    var t := relay.fromGlobalId(NodeId(parent)).typeName;
    if t == "Blog" || t == "Post" then Ok(t) else Throw("Unknown Type: " + t)
  }

  /** Every node `node` returns resolves to the type of its own variant. */
  lemma ResolveTypeOfNode(relay: Relay, globalId: string, n: Node)
    requires RoundTrips(relay)
    requires NodeField(relay, globalId) == Ok(Some(n))
    ensures ResolveType(relay, n) == Ok(if n.BlogNode? then "Blog" else "Post")
  {
    var g := relay.fromGlobalId(globalId);
    if n.BlogNode? {
      assert relay.fromGlobalId(relay.toGlobalId("Blog", g.id)) == ResolvedGlobalId("Blog", g.id);
    } else {
      assert relay.fromGlobalId(relay.toGlobalId("Post", globalId)) == ResolvedGlobalId("Post", globalId);
    }
  }
}
