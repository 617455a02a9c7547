/**
 * The B-tree's read path: creating an empty tree, descending from the root
 * to a leaf by search mode, and the leaf iterator that walks pairs in slot
 * order across the chain of leaves. Pages are a map from page id to node;
 * fetching a page the map does not hold is the buffer pool's failure,
 * `Err(Buffer)`.
 */
module BTree {
  import opened Wrappers
  import opened Bytes
  import opened BSearch
  import opened BTreeNode
  import Branch

  datatype Error = DuplicateKey | Buffer

  datatype Result<+T> = Ok(value: T) | Err(error: Error)

  /** The handle of a tree: the id of its meta page. */
  datatype BTree = BTree(metaPageId: PageId)

  datatype SearchMode = Start | Key(key: seq<byte>)

  // ---------------------------------------------------------------------
  // Search modes

  /** `SearchMode::child_page_id`: the child of a branch to descend into. */
  function ChildPageId(mode: SearchMode, b: Node): (r: PageId)
    requires b.Branch?
    ensures mode.Start? ==> r == Branch.ChildAt(b, 0)
    ensures mode.Key? ==> r == Branch.SearchChild(b, mode.key)
  {
    match mode
    case Start => Branch.ChildAt(b, 0)
    case Key(key) => Branch.SearchChild(b, key)
  }

  /** `SearchMode::tuple_slot_id`: where in a leaf the scan begins. */
  function TupleSlotId(mode: SearchMode, leaf: Node): (r: SearchResult)
    requires leaf.Leaf?
    ensures mode.Start? ==> r == NotFound(0)
    ensures mode.Key? ==> r == SearchSlotId(leaf, mode.key)
  {
    match mode
    case Start => NotFound(0)
    case Key(key) => SearchSlotId(leaf, key)
  }

  /**
   * `tuple_slot_id(..).unwrap_or_else(identity)`: a found slot and an
   * insertion point both serve as the start slot. With `Start` it is slot
   * 0; with a key and sorted pairs it is the first pair whose key is not
   * below the search key.
   */
  function StartSlot(mode: SearchMode, leaf: Node): (r: nat)
    requires leaf.Leaf?
    ensures r <= NumPairs(leaf)
    ensures mode.Start? ==> r == 0
    ensures mode.Key? && Sorted(leaf) ==>
      && (forall i :: 0 <= i < r ==> Cmp(PairAt(leaf, i).key, mode.key) == Less)
      && (forall i :: r <= i < NumPairs(leaf) ==> Cmp(PairAt(leaf, i).key, mode.key) != Less)
  {
    match TupleSlotId(mode, leaf)
    case Found(s) =>
      assert mode.Key? && Sorted(leaf) ==>
        forall i :: s <= i < NumPairs(leaf) ==> Cmp(PairAt(leaf, i).key, mode.key) != Less
      by {
        if mode.Key? && Sorted(leaf) { FoundSplits(leaf, mode.key, s); }
      }
      s
    case NotFound(s) => s
  }

  // ---------------------------------------------------------------------
  // The iterator's state and its steps

  /** The fields of `Iter`: the leaf page it holds and a slot id in it. */
  datatype Position = Position(buffer: Node, slotId: nat)

  /** Fetching the leaf after `leaf` gives a leaf whenever the pool holds it. */
  ghost predicate LinksToLeaf(pages: map<PageId, Node>, leaf: Node) {
    leaf.Leaf? && (leaf.nextPageId.Some? && leaf.nextPageId.value in pages ==>
                     pages[leaf.nextPageId.value].Leaf?)
  }

  /** Every leaf of the pool links to a leaf. */
  ghost predicate LeafChain(pages: map<PageId, Node>) {
    forall id :: id in pages && pages[id].Leaf? ==> LinksToLeaf(pages, pages[id])
  }

  /** `Iter::get`: the pair at the slot while the slot is in range. */
  function GetAt(p: Position): (r: Option<Pair>)
    requires p.buffer.Leaf?
    ensures r.Some? <==> p.slotId < NumPairs(p.buffer)
    ensures r.Some? ==> r.value == PairAt(p.buffer, p.slotId)
  {
    if p.slotId < NumPairs(p.buffer) then Some(PairAt(p.buffer, p.slotId)) else None
  }

  /**
   * `Iter::advance`: the next slot of the same leaf while in range;
   * otherwise slot 0 of the next leaf, or, on the last leaf, the position
   * past its end. A failed fetch of the next leaf leaves the slot already
   * incremented on the current leaf.
   */
  function AdvancePos(pages: map<PageId, Node>, p: Position): (r: (Position, Result<()>))
    requires LinksToLeaf(pages, p.buffer)
    ensures r.0.buffer.Leaf?
    ensures r.0.buffer == p.buffer || r.0.buffer in pages.Values
    ensures p.slotId + 1 < NumPairs(p.buffer) ==> r == (Position(p.buffer, p.slotId + 1), Ok(()))
    ensures p.slotId + 1 >= NumPairs(p.buffer) && NextPageId(p.buffer).None? ==>
              r == (Position(p.buffer, p.slotId + 1), Ok(()))
    ensures p.slotId + 1 >= NumPairs(p.buffer) && NextPageId(p.buffer).Some? ==>
              if NextPageId(p.buffer).value in pages
              then r == (Position(pages[NextPageId(p.buffer).value], 0), Ok(()))
              else r == (Position(p.buffer, p.slotId + 1), Err(Buffer))
  {
    var slotId := p.slotId + 1;
    if slotId < NumPairs(p.buffer) then (Position(p.buffer, slotId), Ok(()))
    else match NextPageId(p.buffer)
      case None => (Position(p.buffer, slotId), Ok(()))
      case Some(next) =>
        if next in pages then (Position(pages[next], 0), Ok(()))
        else (Position(p.buffer, slotId), Err(Buffer))
  }

  /** `Iter::next`: what `get` gave, once the advance succeeded. */
  function NextPos(pages: map<PageId, Node>, p: Position): (r: (Position, Result<Option<Pair>>))
    requires LinksToLeaf(pages, p.buffer)
    ensures r.0 == AdvancePos(pages, p).0
    ensures AdvancePos(pages, p).1.Ok? ==> r.1 == Ok(GetAt(p))
    ensures AdvancePos(pages, p).1.Err? ==> r.1 == Err(AdvancePos(pages, p).1.error)
  {
    var value := GetAt(p);
    var (q, status) := AdvancePos(pages, p);
    (q, if status.Err? then Err(status.error) else Ok(value))
  }

  /** What `n` successive calls of `next` return. */
  function NextN(pages: map<PageId, Node>, p: Position, n: nat): (r: seq<Result<Option<Pair>>>)
    requires LeafChain(pages) && LinksToLeaf(pages, p.buffer)
    requires p.buffer.nextPageId.Some? ==> p.buffer in pages.Values
    ensures |r| == n
    decreases n
  {
    if n == 0 then []
    else
      var (q, value) := NextPos(pages, p);
      assert q.buffer != p.buffer ==> q.buffer in pages.Values;
      [value] + NextN(pages, q, n - 1)
  }

  /**
   * Once the iterator stands past the end of the last leaf, every further
   * `next` returns `None`.
   */
  lemma {:induction false} ExhaustedStaysExhausted(pages: map<PageId, Node>, p: Position, n: nat)
    requires LeafChain(pages) && LinksToLeaf(pages, p.buffer)
    requires NextPageId(p.buffer).None? && p.slotId >= NumPairs(p.buffer)
    ensures forall k :: 0 <= k < n ==> NextN(pages, p, n)[k] == Ok(None)
    decreases n
  {
    if n > 0 {
      var q := Position(p.buffer, p.slotId + 1);
      assert NextPos(pages, p) == (q, Ok(None));
      ExhaustedStaysExhausted(pages, q, n - 1);
    }
  }

  /**
   * From slot `s` of a leaf, `n` calls of `next` that stay within the leaf's
   * pairs return those pairs in slot order, provided the last one can fetch
   * the following leaf (or there is none).
   */
  lemma {:induction false} NextWalksLeaf(pages: map<PageId, Node>, p: Position, n: nat)
    requires LeafChain(pages) && LinksToLeaf(pages, p.buffer)
    requires p.buffer.nextPageId.Some? ==> p.buffer in pages.Values
    requires p.slotId + n <= NumPairs(p.buffer)
    requires NextPageId(p.buffer).Some? ==> NextPageId(p.buffer).value in pages
    ensures forall k :: 0 <= k < n ==> NextN(pages, p, n)[k] == Ok(Some(PairAt(p.buffer, p.slotId + k)))
    decreases n
  {
    if n > 1 {
      var q := Position(p.buffer, p.slotId + 1);
      assert NextPos(pages, p) == (q, Ok(Some(PairAt(p.buffer, p.slotId))));
      NextWalksLeaf(pages, q, n - 1);
      assert NextN(pages, p, n) == [Ok(Some(PairAt(p.buffer, p.slotId)))] + NextN(pages, q, n - 1);
    }
  }

  // ---------------------------------------------------------------------
  // Descent

  /**
   * The tree below `id` is at most `h` levels deep: every branch on the way
   * down has a bounded child at each index. A page the pool does not hold
   * ends the descent (with a fetch failure).
   */
  ghost predicate Bounded(pages: map<PageId, Node>, id: PageId, h: nat)
    decreases h
  {
    id in pages && pages[id].Branch? ==>
      h > 0 && forall i :: 0 <= i <= NumPairs(pages[id]) ==>
                 Bounded(pages, Branch.ChildAt(pages[id], i), h - 1)
  }

  /**
   * `search_internal`: follow branch children chosen by the search mode
   * down to a leaf, and stand at the start slot of that leaf, advancing
   * once when the start slot is past its last pair.
   */
  function SearchInternal(pages: map<PageId, Node>, id: PageId, mode: SearchMode, h: nat): (r: Result<Position>)
    requires Bounded(pages, id, h) && LeafChain(pages)
    ensures r.Ok? ==> r.value.buffer.Leaf? && r.value.buffer in pages.Values
    ensures id !in pages ==> r == Err(Buffer)
    ensures id in pages && pages[id].Leaf? ==>
      var start := Position(pages[id], StartSlot(mode, pages[id]));
      && (start.slotId < NumPairs(pages[id]) ==> r == Ok(start))
      && (start.slotId == NumPairs(pages[id]) ==>
            var (q, status) := AdvancePos(pages, start);
            r == if status.Ok? then Ok(q) else Err(status.error))
    decreases h
  {
    if id !in pages then Err(Buffer)
    else
      var node := pages[id];
      match node
      case Leaf(_, _) =>
        var iter := Position(node, StartSlot(mode, node));
        if NumPairs(node) == iter.slotId then
          var (advanced, status) := AdvancePos(pages, iter);
          if status.Err? then Err(status.error) else Ok(advanced)
        else Ok(iter)
      case Branch(_, _) =>
        ChildBounded(pages, id, mode, h);
        SearchInternal(pages, ChildPageId(mode, node), mode, h - 1)
  }

  /** The child a branch hands a descent to is bounded one level lower. */
  lemma ChildBounded(pages: map<PageId, Node>, id: PageId, mode: SearchMode, h: nat)
    requires Bounded(pages, id, h) && id in pages && pages[id].Branch?
    ensures h > 0 && Bounded(pages, ChildPageId(mode, pages[id]), h - 1)
  {
    var node := pages[id];
    if mode.Start? {
      assert ChildPageId(mode, node) == Branch.ChildAt(node, 0);
    } else {
      assert ChildPageId(mode, node) == Branch.ChildAt(node, Branch.SearchChildIdx(node, mode.key));
    }
  }

  /**
   * The leaf a descent in `mode` reaches from `id`: each branch on the way
   * hands over to the child `ChildPageId` picks, and a page the pool does
   * not hold stops the descent with a fetch failure.
   */
  function LeafReached(pages: map<PageId, Node>, id: PageId, mode: SearchMode, h: nat): (r: Result<Node>)
    requires Bounded(pages, id, h)
    ensures r.Ok? ==> r.value.Leaf? && r.value in pages.Values
    ensures r.Err? ==> r.error == Buffer
    ensures id !in pages ==> r == Err(Buffer)
    ensures id in pages && pages[id].Leaf? ==> r == Ok(pages[id])
    decreases h
  {
    if id !in pages then Err(Buffer)
    else match pages[id]
      case Leaf(_, _) => Ok(pages[id])
      case Branch(_, _) =>
        ChildBounded(pages, id, mode, h);
        LeafReached(pages, ChildPageId(mode, pages[id]), mode, h - 1)
  }

  /**
   * A key descent through a branch with sorted keys goes on from the child
   * whose key range holds the key.
   */
  lemma KeyDescentRoutes(pages: map<PageId, Node>, id: PageId, key: seq<byte>, h: nat, idx: nat)
    requires Bounded(pages, id, h) && id in pages && pages[id].Branch? && Sorted(pages[id])
    requires idx <= NumPairs(pages[id]) && Branch.Routes(pages[id], key, idx)
    ensures h > 0 && Bounded(pages, Branch.ChildAt(pages[id], idx), h - 1)
    ensures LeafReached(pages, id, Key(key), h) == LeafReached(pages, Branch.ChildAt(pages[id], idx), Key(key), h - 1)
  {
    ChildBounded(pages, id, Key(key), h);
  }

  /**
   * Where `search_internal` leaves the iterator: at the start slot of the
   * leaf the mode leads to, advanced once when that slot is past the leaf's
   * last pair; or the first fetch failure on the way.
   */
  lemma {:induction false} SearchReachesLeaf(pages: map<PageId, Node>, id: PageId, mode: SearchMode, h: nat)
    requires Bounded(pages, id, h) && LeafChain(pages)
    ensures match LeafReached(pages, id, mode, h)
      case Err(e) => SearchInternal(pages, id, mode, h) == Err(e)
      case Ok(leaf) =>
        var start := Position(leaf, StartSlot(mode, leaf));
        if start.slotId < NumPairs(leaf) then SearchInternal(pages, id, mode, h) == Ok(start)
        else
          var (q, status) := AdvancePos(pages, start);
          SearchInternal(pages, id, mode, h) == if status.Ok? then Ok(q) else Err(status.error)
    decreases h
  {
    if id in pages && pages[id].Branch? {
      ChildBounded(pages, id, mode, h);
      SearchReachesLeaf(pages, ChildPageId(mode, pages[id]), mode, h - 1);
    }
  }

  /**
   * The leaf reached from `id` by always taking child 0: the leftmost leaf
   * under `id`.
   */
  function LeftmostLeaf(pages: map<PageId, Node>, id: PageId, h: nat): (r: Result<Node>)
    requires Bounded(pages, id, h)
    ensures r.Ok? ==> r.value.Leaf? && r.value in pages.Values
    decreases h
  {
    if id !in pages then Err(Buffer)
    else match pages[id]
      case Leaf(_, _) => Ok(pages[id])
      case Branch(_, _) => LeftmostLeaf(pages, Branch.ChildAt(pages[id], 0), h - 1)
  }

  /**
   * A search in `Start` mode stands at the first pair of the leftmost leaf,
   * or, when that leaf is empty, where one advance from its slot 0 leads.
   */
  lemma {:induction false} StartSearchIsLeftmost(pages: map<PageId, Node>, id: PageId, h: nat)
    requires Bounded(pages, id, h) && LeafChain(pages)
    ensures match LeftmostLeaf(pages, id, h)
      case Err(e) => SearchInternal(pages, id, Start, h) == Err(e)
      case Ok(leaf) =>
        if NumPairs(leaf) > 0 then SearchInternal(pages, id, Start, h) == Ok(Position(leaf, 0))
        else
          var (q, status) := AdvancePos(pages, Position(leaf, 0));
          SearchInternal(pages, id, Start, h) == if status.Ok? then Ok(q) else Err(status.error)
    decreases h
  {
    if id in pages && pages[id].Branch? {
      StartSearchIsLeftmost(pages, Branch.ChildAt(pages[id], 0), h - 1);
    }
  }

  /** Every key of the node is below `key`. */
  ghost predicate AllBelow(n: Node, key: seq<byte>) {
    forall i :: 0 <= i < NumPairs(n) ==> Cmp(PairAt(n, i).key, key) == Less
  }

  /**
   * A key search whose descent reaches a leaf with sorted pairs stands at
   * the first pair of that leaf whose key is not below the search key; when
   * every key is below it, the iterator has been advanced once from past
   * the leaf's last pair.
   */
  lemma KeySearchInLeaf(pages: map<PageId, Node>, id: PageId, key: seq<byte>, h: nat, leaf: Node)
    requires Bounded(pages, id, h) && LeafChain(pages)
    requires LeafReached(pages, id, Key(key), h) == Ok(leaf) && Sorted(leaf)
    ensures var r := SearchInternal(pages, id, Key(key), h);
      && (!AllBelow(leaf, key) ==>
            && r.Ok? && r.value.buffer == leaf && r.value.slotId < NumPairs(leaf)
            && Cmp(PairAt(leaf, r.value.slotId).key, key) != Less
            && forall i :: 0 <= i < r.value.slotId ==> Cmp(PairAt(leaf, i).key, key) == Less)
      && (AllBelow(leaf, key) ==>
            var (q, status) := AdvancePos(pages, Position(leaf, NumPairs(leaf)));
            r == if status.Ok? then Ok(q) else Err(status.error))
  {
    SearchReachesLeaf(pages, id, Key(key), h);
    var s := StartSlot(Key(key), leaf);
    if s == NumPairs(leaf) {
      assert AllBelow(leaf, key);
    } else {
      assert !AllBelow(leaf, key) by {
        assert Cmp(PairAt(leaf, s).key, key) != Less;
      }
    }
  }

  /** `BTree::search`: read the root's id from the meta page, then descend. */
  function Search(pages: map<PageId, Node>, metas: map<PageId, PageId>, tree: BTree,
                  mode: SearchMode, h: nat): (r: Result<Position>)
    requires LeafChain(pages)
    requires tree.metaPageId in metas ==> Bounded(pages, metas[tree.metaPageId], h)
    ensures tree.metaPageId !in metas ==> r == Err(Buffer)
    ensures tree.metaPageId in metas ==> r == SearchInternal(pages, metas[tree.metaPageId], mode, h)
    ensures r.Ok? ==> r.value.buffer.Leaf? && r.value.buffer in pages.Values
  {
    if tree.metaPageId !in metas then Err(Buffer)
    else SearchInternal(pages, metas[tree.metaPageId], mode, h)
  }

  /**
   * Searching a tree whose root is the empty leaf `create` makes gives an
   * iterator past the leaf's end, whose `get` is `None`, whatever the mode.
   */
  lemma SearchEmptyTree(pages: map<PageId, Node>, metas: map<PageId, PageId>, tree: BTree,
                        mode: SearchMode)
    requires LeafChain(pages)
    requires tree.metaPageId in metas && metas[tree.metaPageId] in pages
    requires pages[metas[tree.metaPageId]] == Leaf(None, [])
    ensures Search(pages, metas, tree, mode, 0) == Ok(Position(Leaf(None, []), 1))
    ensures GetAt(Position(Leaf(None, []), 1)) == None
  {
  }

  // ---------------------------------------------------------------------
  // State: the buffer pool and the iterator

  /**
   * The pages the buffer pool manager hands out: meta pages (each holding
   * a root page id) and node pages, under ids below `nextPageId`.
   */
  class BufferPool {
    var metas: map<PageId, PageId>
    var nodes: map<PageId, Node>
    var nextPageId: PageId

    ghost predicate Valid()
      reads this
    {
      && (forall id :: id in metas ==> id < nextPageId)
      && (forall id :: id in nodes ==> id < nextPageId)
      && metas.Keys !! nodes.Keys
    }

    constructor ()
      ensures Valid() && metas == map[] && nodes == map[]
    {
      metas, nodes, nextPageId := map[], map[], 0;
    }

    /**
     * `BTree::create`: allocate a meta page and a root page, initialise the
     * root as an empty leaf with no neighbours, and record the root's id in
     * the meta page.
     */
    method Create() returns (tree: BTree)
      requires Valid()
      modifies this
      ensures Valid()
      ensures tree.metaPageId == old(nextPageId)
      ensures tree.metaPageId !in old(metas) && tree.metaPageId !in old(nodes)
      ensures var root := old(nextPageId) + 1;
        && root !in old(metas) && root !in old(nodes)
        && metas == old(metas)[tree.metaPageId := root]
        && nodes == old(nodes)[root := Leaf(None, [])]
      ensures nextPageId == old(nextPageId) + 2
    {
      var metaPageId := nextPageId;
      var rootPageId := nextPageId + 1;
      nextPageId := nextPageId + 2;
      nodes := nodes[rootPageId := Leaf(None, [])];
      metas := metas[metaPageId := rootPageId];
      tree := BTree(metaPageId);
    }
  }

  /** `Iter`: a leaf page and a slot id in it. */
  class Iter {
    var buffer: Node
    var slotId: nat

    ghost predicate Valid()
      reads this
    {
      buffer.Leaf?
    }

    function At(): Position
      reads this
    {
      Position(buffer, slotId)
    }

    constructor (p: Position)
      requires p.buffer.Leaf?
      ensures Valid() && At() == p
    {
      buffer, slotId := p.buffer, p.slotId;
    }

    /** `Iter::get`, which reads the iterator and changes nothing. */
    function Get(): (r: Option<Pair>)
      reads this
      requires Valid()
      ensures r.Some? <==> slotId < NumPairs(buffer)
      ensures r.Some? ==> r.value == PairAt(buffer, slotId)
    {
      GetAt(At())
    }

    /** `Iter::advance`. */
    method Advance(pages: map<PageId, Node>) returns (status: Result<()>)
      requires Valid() && LinksToLeaf(pages, buffer)
      modifies this
      ensures Valid()
      ensures (At(), status) == AdvancePos(pages, old(At()))
    {
      slotId := slotId + 1;
      if slotId < NumPairs(buffer) {
        return Ok(());
      }
      var nextPageId := NextPageId(buffer);
      if nextPageId.Some? {
        if nextPageId.value !in pages {
          return Err(Buffer);
        }
        buffer := pages[nextPageId.value];
        slotId := 0;
      }
      status := Ok(());
    }

    /** `Iter::next`: `get`, then `advance`. */
    method Next(pages: map<PageId, Node>) returns (r: Result<Option<Pair>>)
      requires Valid() && LinksToLeaf(pages, buffer)
      modifies this
      ensures Valid()
      ensures (At(), r) == NextPos(pages, old(At()))
    {
      var value := Get();
      var status := Advance(pages);
      if status.Err? {
        return Err(status.error);
      }
      r := Ok(value);
    }
  }
}
