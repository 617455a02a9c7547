# Blog GraphQL resolvers and B-tree read path, modelled in Dafny

This project models two independent pieces of one repository.

**The GraphQL resolution layer** of a small blog server. Blogs and posts are
exposed through Relay-style global ids and cursor connections. The model
covers:

- the in-memory repository: the fixed `BLOGS` and `POSTS` lists, `findBlog`,
  `findBlogs`, `getBlogs`, `findPostByBlogId` and `findPost`;
- the batch function behind the blog `DataLoader`;
- the resolvers `Query.node`, `Query.blogs`, `Blog.posts`, `Post.blog` and
  `Node.__resolveType`.

The graphql-relay codec (`toGlobalId`, `fromGlobalId`) is a parameter of the
model: a `Relay` value holding two functions. Its round trip is the
hypothesis `RoundTrips(relay)` of the lemmas that need it, stated only for
the type names `"Blog"` and `"Post"`. `connectionFromArray` is not modelled.
A connection resolver returns `ConnectionFromArray(data, args)`, which is the
call it makes to the paginator. An exception thrown by a resolver is the
result `Throw(message)`, carrying the source's exact message.

`Query.node` keeps a quirk of the code. Its `"Post"` branch looks the post up
by the whole global id it received, not by the decoded local id.
`NodeOfPostIgnoresLocalId` shows the consequence: a genuine `"Post"` global
id resolves to `null` unless the token is itself some post's local id.

**The B-tree read path** of a small RDBMS. Pages are a map from page id to a
node. A node is a `Leaf(nextPageId, pairs)` or a `Branch(rightChild, pairs)`.
The pairs are the slotted body, and a slot id indexes them. Fetching a page
the map does not hold is the buffer pool's failure, `Err(Buffer)`. The model
covers:

- branch routing (`search_child_idx`, `child_at`, `search_child`,
  `max_pair_size`);
- the search-mode dispatch and the root-to-leaf descent of `search_internal`
  and `search`;
- `create`;
- the leaf iterator `Iter` (`get`, `advance`, `next`), as a class whose
  methods are proved against the step functions `AdvancePos` and `NextPos`.

Termination of the descent rests on a height bound: `Bounded(pages, id, h)`.
As published, the Rust does not compile in several places: btree.rs lines 87,
99, 121 and 158, branch.rs lines 38 and 43, and the empty `Leaf::new` in
leaf.rs. The model follows the evident intent. A leaf's accessors
(`num_pairs`, `pair_at`, `search_slot_id`, `next_page_id`) are the branch's,
shared in `BTreeNode`.

Three behaviours of the code worth noting, which the model follows:

- `fromGlobalId` is total, so a garbled id is not a separate error. It
  decodes to some type name, and `node` then rejects it with
  `Unknown type: …`.
- A post whose blog is missing makes `Post.blog` throw the loader's
  `No result for <id>` error.
- The loader's cache is module-level, not per request.

## Model

| member | source | states |
|---|---|---|
| `JsArray.Find` | vol_125/graphql/server/lib/data/blog.js:19 | `find` gives the first element satisfying the predicate, and nothing only when no element does |
| `JsArray.Filter` | vol_125/graphql/server/lib/data/post.js:43 | `filter` keeps only elements of the input that satisfy the predicate, and keeps every such element |
| `JsArray.KeptIndices` | vol_125/graphql/server/lib/data/post.js:43 | the positions `filter` keeps are increasing, in range, satisfy the predicate, and include every satisfying position |
| `JsArray.FilterIsSubsequence` | vol_125/graphql/server/lib/data/post.js:43 | the `filter` result is the input at exactly those positions, in order |
| `BlogData.BlogIdsDistinct` | vol_125/graphql/server/lib/data/blog.js:4-17 | the fixture blog ids are pairwise distinct |
| `BlogData.FindBlogOfFixture` | vol_125/graphql/server/lib/data/blog.js:4-20 | `findBlog` on a fixture blog's id returns that blog |
| `BlogData.FindBlog` | vol_125/graphql/server/lib/data/blog.js:18-20 | `undefined` exactly when no blog has the id; otherwise a fixture blog with that id |
| `BlogData.BlogsById` | vol_125/graphql/server/lib/data/blog.js:22-32 | key k is present exactly when k was requested and some blog has id k; the value stored is `findBlog(k)`'s blog |
| `BlogData.BlogsByIdEntries` | vol_125/graphql/server/lib/data/blog.js:25-29 | every stored entry is a fixture blog whose id is its key, never a placeholder |
| `BlogData.BlogsByIdRepeat` | vol_125/graphql/server/lib/data/blog.js:24-29 | requesting an id already requested leaves the result unchanged |
| `BlogData.BlogsByIdOrderFree` | vol_125/graphql/server/lib/data/blog.js:22-32 | the result depends only on which ids are requested, not their order or repetition |
| `BlogData.FindBlogs` | vol_125/graphql/server/lib/data/blog.js:22-32 | the loop skips misses and builds `BlogsById(ids)`; keys are exactly the requested ids naming a blog, each mapped to the blog with that id |
| `BlogData.GetBlogs` | vol_125/graphql/server/lib/data/blog.js:34-36 | returns the whole fixture in declaration order |
| `PostData.PostsReferenceBlogs` | vol_125/graphql/server/lib/data/post.js:4-41 | every fixture post's `blogId` names a fixture blog |
| `PostData.FindPostByBlogId` | vol_125/graphql/server/lib/data/post.js:42-44 | exactly the fixture posts with that `blogId`; empty, not an error, when there are none |
| `PostData.PostsOfBlogInOrder` | vol_125/graphql/server/lib/data/post.js:43 | the result is `POSTS` at strictly increasing positions, which are exactly the positions of that blog's posts |
| `PostData.FindPost` | vol_125/graphql/server/lib/data/post.js:46-48 | `undefined` exactly when no post has the id; otherwise a fixture post with that id |
| `GraphQLRelay.ToGlobalIdInjective` | vol_125/graphql/server/lib/index.js:95-98 | under the round trip, distinct local ids of one node type get distinct global ids |
| `Resolvers.BatchLoadBlogs` | vol_125/graphql/server/lib/index.js:12-14 | one entry per requested id, in request order; entry i is the blog with id `ids[i]`, or the error `No result for ids[i]` |
| `Resolvers.LoadBlog` | vol_125/graphql/server/lib/index.js:112 | `load(key)` gives the blog with id `key`, or the error `No result for <key>` when no blog has it |
| `Resolvers.BatchEntryIsLoad` | vol_125/graphql/server/lib/index.js:12-15 | a batch entry depends only on its own id, whatever else the batch contains |
| `Resolvers.NodeField` | vol_125/graphql/server/lib/index.js:69-93 | `"Blog"`: `null` exactly when no blog has the decoded id, else that blog with its id re-encoded and name kept; `"Post"`: looked up by the undecoded token; other types: throws `Unknown type: <type>` |
| `Resolvers.NodeOfBlog` | vol_125/graphql/server/lib/index.js:72-80 | `node` on a fixture blog's global id returns the blog with only its id replaced by the global id |
| `Resolvers.NodeOfMissingBlog` | vol_125/graphql/server/lib/index.js:72-76 | `node` on a `"Blog"` global id whose local id names no blog returns `null`, not an error |
| `Resolvers.NodeOfPostIgnoresLocalId` | vol_125/graphql/server/lib/index.js:81-85 | a fixture post's global id resolves to `null` unless the token itself is some post's local id |
| `Resolvers.BlogsField` | vol_125/graphql/server/lib/index.js:94-99 | `connectionFromArray` gets the fixture blogs in order, with each id re-encoded and the name kept, and the arguments untouched |
| `Resolvers.BlogsFieldIdsDecode` | vol_125/graphql/server/lib/index.js:95-98 | each id handed to the paginator decodes to `("Blog", local id)`, and no two entries share an id |
| `Resolvers.BlogPostsField` | vol_125/graphql/server/lib/index.js:102-108 | `connectionFromArray` gets the posts of the decoded parent id, in order, with only their ids re-encoded, and the arguments untouched |
| `Resolvers.BlogPostsOfGlobalBlog` | vol_125/graphql/server/lib/index.js:103-107 | for a parent with a `"Blog"` global id, the array is exactly that blog's fixture posts, in fixture order, re-encoded |
| `Resolvers.PostBlogField` | vol_125/graphql/server/lib/index.js:111-117 | succeeds exactly when a blog has the post's `blogId`, returning it with its id re-encoded; otherwise throws `No result for <blogId>` |
| `Resolvers.PostBlogOfFixture` | vol_125/graphql/server/lib/index.js:111-117 | `Post.blog` succeeds for every fixture post |
| `Resolvers.ResolveType` | vol_125/graphql/server/lib/index.js:120-129 | returns the decoded type exactly when it is `"Blog"` or `"Post"`, else throws `Unknown Type: <type>` |
| `Resolvers.ResolveTypeOfNode` | vol_125/graphql/server/lib/index.js:120-128 | under the round trip, every node `node` returns resolves to the type of its own variant |
| `Bytes.Cmp` | vol_122/rdbms/src/btree/branch.rs:39 | a prefix of the other string compares `Less` when proper and `Equal` when whole, in both argument orders |
| `Bytes.CmpEqual` | vol_122/rdbms/src/btree/branch.rs:39 | byte-string comparison says `Equal` exactly for equal strings |
| `Bytes.CmpFlip` | vol_122/rdbms/src/btree/branch.rs:39 | `a < b` exactly when `b > a` |
| `Bytes.CmpLessTrans` | vol_122/rdbms/src/btree/branch.rs:39 | `<` on byte strings is transitive |
| `BSearch.SearchRange` | vol_122/rdbms/src/btree/branch.rs:37-41 | on a sub-range: a hit lies in range and holds the key; on sorted keys a miss is the insertion point |
| `BSearch.BinarySearch` | vol_122/rdbms/src/btree/branch.rs:37-41 | `Ok(i)` holds the key; on sorted keys `Err(i)` has every key before i smaller and every key from i on larger |
| `BTreeNode.NumPairs` | vol_122/rdbms/src/btree/branch.rs:33-35 | the number of slots in the body, zero exactly for an empty body |
| `BTreeNode.PairAt` | vol_122/rdbms/src/btree/branch.rs:64-66 | the pair stored in that slot of the body |
| `BTreeNode.Keys` | vol_122/rdbms/src/btree/branch.rs:39 | one key per slot, the key of `pair_at` for that slot |
| `BTreeNode.SearchSlotId` | vol_122/rdbms/src/btree/branch.rs:37-41 | a found slot holds the key; on sorted pairs a miss is the insertion point, within `0..=num_pairs` |
| `BTreeNode.FoundSplits` | vol_122/rdbms/src/btree/branch.rs:37-41 | on sorted pairs, an exact match splits the keys: all before it smaller, all after it larger |
| `BTreeNode.NextPageId` | vol_122/rdbms/src/btree.rs:181 | the following leaf's id, `None` exactly on the last leaf |
| `Branch.RoutesUnique` | vol_122/rdbms/src/btree/branch.rs:49-54 | at most one child index routes a key |
| `Branch.SearchChildIdx` | vol_122/rdbms/src/btree/branch.rs:49-54 | lies in `0..=num_pairs`; on sorted keys it is the count of keys not above `key` |
| `Branch.ChildAt` | vol_122/rdbms/src/btree/branch.rs:56-62 | index `num_pairs` gives the right child; a smaller index gives that pair's value read as a page id |
| `Branch.SearchChild` | vol_122/rdbms/src/btree/branch.rs:43-47 | on sorted keys, the child at the unique index whose key range holds `key` |
| `Branch.MaxPairSize` | vol_122/rdbms/src/btree/branch.rs:68-70 | two pairs of that size fit in the body with their slot pointers, and two pairs one byte larger do not |
| `BTree.ChildPageId` | vol_122/rdbms/src/btree.rs:52-57 | `Start` takes child 0; `Key` takes `search_child` |
| `BTree.TupleSlotId` | vol_122/rdbms/src/btree.rs:59-64 | `Start` gives `Err(0)`; `Key` gives `search_slot_id` |
| `BTree.StartSlot` | vol_122/rdbms/src/btree.rs:114 | found slot and insertion point serve alike; 0 for `Start`; for a key on sorted pairs, the first pair not below it |
| `BTree.GetAt` | vol_122/rdbms/src/btree.rs:157-168 | the pair at the slot exactly when the slot is below `num_pairs`, `None` otherwise |
| `BTree.Iter.Get` | vol_122/rdbms/src/btree.rs:157-168 | the pair at the iterator's slot exactly when the slot is below `num_pairs`, `None` otherwise |
| `BTree.AdvancePos` | vol_122/rdbms/src/btree.rs:170-190 | next slot while in range; else slot 0 of the next leaf, or past the end of the last leaf; a failed fetch keeps the incremented slot and reports the error |
| `BTree.NextPos` | vol_122/rdbms/src/btree.rs:192-200 | moves as `advance` does and returns what `get` gave before, or the advance's error |
| `BTree.NextN` | vol_122/rdbms/src/btree.rs:192-200 | n successive `next` calls give n results |
| `BTree.ExhaustedStaysExhausted` | vol_122/rdbms/src/btree.rs:170-200 | past the end of the last leaf, every further `next` returns `None` |
| `BTree.NextWalksLeaf` | vol_122/rdbms/src/btree.rs:170-200 | successive `next` calls return the leaf's pairs in slot order |
| `BTree.SearchInternal` | vol_122/rdbms/src/btree.rs:104-138 | ends on a leaf page of the pool; on a leaf page, stands at the start slot and advances exactly once when that slot equals `num_pairs`; a missing page is a buffer error |
| `BTree.LeafReached` | vol_122/rdbms/src/btree.rs:129-136 | following the children the mode picks ends on a leaf page of the pool, or on a buffer error for a missing page |
| `BTree.KeyDescentRoutes` | vol_122/rdbms/src/btree.rs:129-136 | through a branch with sorted keys, a key descent continues from the child whose key range holds the key |
| `BTree.SearchReachesLeaf` | vol_122/rdbms/src/btree.rs:104-138 | a search in any mode stands at the start slot of the leaf its descent reaches, or one advance from it when that slot equals `num_pairs`; a fetch failure on the way is the result |
| `BTree.LeftmostLeaf` | vol_122/rdbms/src/btree.rs:129-136 | following child 0 from a branch ends on a leaf page of the pool |
| `BTree.StartSearchIsLeftmost` | vol_122/rdbms/src/btree.rs:104-138 | a `Start` search stands at slot 0 of the leftmost leaf, or one advance from it when that leaf is empty |
| `BTree.KeySearchInLeaf` | vol_122/rdbms/src/btree.rs:104-138 | when the key descent reaches a sorted leaf, the search stops at its first pair not below the key; if every key is below it, the iterator is advanced once |
| `BTree.Search` | vol_122/rdbms/src/btree.rs:140-147 | a missing meta page is a buffer error; otherwise the search descends from the root page id the meta page records, ending on a leaf page of the pool |
| `BTree.SearchEmptyTree` | vol_122/rdbms/src/btree.rs:74-88 | searching a freshly created tree, in any mode, gives an iterator past the empty root's end, whose `get` is `None` |
| `BTree.BufferPool.Create` | vol_122/rdbms/src/btree.rs:74-88 | allocates fresh meta and root pages, makes the root an empty leaf with no next leaf, and stores its id as the meta's root page id |
| `BTree.Iter.constructor` | vol_122/rdbms/src/btree.rs:118-121 | the iterator holds the given leaf and slot |
| `BTree.Iter.Advance` | vol_122/rdbms/src/btree.rs:170-190 | updates the fields exactly as `AdvancePos` prescribes |
| `BTree.Iter.Next` | vol_122/rdbms/src/btree.rs:192-200 | updates the fields and returns exactly as `NextPos` prescribes |

## Left out

- The internals of graphql-relay's `toGlobalId`, `fromGlobalId` and `connectionFromArray`: library code not part of this model. The codec is a parameter, and its round trip a hypothesis. No cursor format, slicing or page info is modelled.
- DataLoader's scheduling, coalescing and caching, and all `async`/`await`: library behaviour and concurrency. `LoadBlog` is the batch entry for one key, which `BatchEntryIsLoad` shows is independent of the batch it lands in.
- The Apollo server, the schema text and `listen`: transport and schema text.
- The client (`App.tsx`, the generated Relay artifact): UI rendering and generated code.
- Resolvers.BatchLoadBlogs: treats the `findBlogs` object as a plain map. In JavaScript, `blogs[id]` on an object literal also finds inherited keys such as `"toString"`, which the model does not. Loads come only from fixture `blogId`s, so such keys never arise here.
- The buffer pool's internals, disk pages, `Rc`/`RefCell` borrows, zerocopy layouts and bincode's `Pair::to_bytes`/`from_bytes`: I/O and foreign crates. Pages are a map of nodes, and a page fetch fails exactly when the map lacks the id.
- BTree.BufferPool.Create: never fails. The buffer pool's `create_page` failure (no free buffer) is not modelled.
- The leaf header's `prev_page_id`: it is not read on the search path. A missing next leaf (the invalid page id) is `None`.
- `crate::bsearch::binary_search_by` and `crate::slotted` are not part of this model. The binary search is a verified halving search with the same `Ok`/`Err` contract. Keys are strictly sorted, so a hit is unique.
- Branch.PageIdOf: reads a branch value as an unbounded little-endian integer. `disk::PageId` is not part of this model, so its 8-byte length check and its 64-bit width are not modelled.
- Branch.ChildAt: requires `idx <= num_pairs`. A larger index panics in the source.
- Branch.MaxPairSize: requires the slot pointer size to be at most half the capacity. Below that, the `usize` subtraction panics. The pointer size is a parameter because `slotted::Pointer` is not part of this model.
- BTree.SearchInternal: takes the height bound `h` as an argument, because the descent's termination rests on it. A cyclic page graph, on which the source would recurse forever, is excluded by `Bounded`.
- The `DuplicateKey` error and every write path beyond `create` (insertion, splits) are outside the read path modelled here.
