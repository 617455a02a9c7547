/**
 * B-tree pages. A page holds a leaf (its pairs and the id of the next leaf)
 * or a branch (its pairs, each valued with a child page id, and the right
 * child). The slotted body of either is its list of pairs; a slot id is an
 * index into it.
 */
module BTreeNode {
  import opened Wrappers
  import opened Bytes
  import opened BSearch

  type PageId = nat

  datatype Pair = Pair(key: seq<byte>, value: seq<byte>)

  datatype Node =
    | Leaf(nextPageId: Option<PageId>, pairs: seq<Pair>)
    | Branch(rightChild: PageId, pairs: seq<Pair>)

  /** `num_pairs`: the number of slots in the body. */
  function NumPairs(n: Node): (r: nat)
    ensures r == |n.pairs|
    ensures r == 0 <==> n.pairs == []
  {
    |n.pairs|
  }

  /** `pair_at(slot_id)`: the pair stored in slot `slotId` of the body. */
  function PairAt(n: Node, slotId: nat): (r: Pair)
    requires slotId < NumPairs(n)
    ensures r in n.pairs
    ensures r == n.pairs[slotId]
  {
    n.pairs[slotId]
  }

  function Keys(n: Node): (ks: seq<seq<byte>>)
    ensures |ks| == NumPairs(n)
    ensures forall i :: 0 <= i < NumPairs(n) ==> ks[i] == PairAt(n, i).key
  {
    seq(|n.pairs|, i requires 0 <= i < |n.pairs| => n.pairs[i].key)
  }

  /** The pairs of a node are kept in strictly increasing key order. */
  ghost predicate Sorted(n: Node) {
    StrictlySorted(Keys(n))
  }

  /**
   * `search_slot_id(key)`: the slot holding `key`, or the slot at which it
   * would be inserted.
   */
  function SearchSlotId(n: Node, key: seq<byte>): (r: SearchResult)
    ensures r.Found? ==> r.index < NumPairs(n) && PairAt(n, r.index).key == key
    ensures r.NotFound? ==> r.index <= NumPairs(n)
    ensures r.NotFound? && Sorted(n) ==>
      && (forall i :: 0 <= i < r.index ==> Cmp(PairAt(n, i).key, key) == Less)
      && (forall i :: r.index <= i < NumPairs(n) ==> Cmp(PairAt(n, i).key, key) == Greater)
  {
    BinarySearch(Keys(n), key)
  }

  /**
   * An exact match in sorted pairs splits them: every key before its slot
   * is smaller than `key`, every key after it larger.
   */
  lemma {:induction false} FoundSplits(n: Node, key: seq<byte>, s: nat)
    requires Sorted(n) && s < NumPairs(n) && PairAt(n, s).key == key
    ensures Cmp(PairAt(n, s).key, key) == Equal
    ensures forall i :: 0 <= i < s ==> Cmp(PairAt(n, i).key, key) == Less
    ensures forall i :: s < i < NumPairs(n) ==> Cmp(PairAt(n, i).key, key) == Greater
  {
    CmpEqual(key, key);
    forall i | s < i < NumPairs(n) ensures Cmp(PairAt(n, i).key, key) == Greater {
      assert Cmp(Keys(n)[s], Keys(n)[i]) == Less;
      CmpFlip(key, PairAt(n, i).key);
    }
    forall i | 0 <= i < s ensures Cmp(PairAt(n, i).key, key) == Less {
      assert Cmp(Keys(n)[i], Keys(n)[s]) == Less;
    }
  }

  /** The leaf's `next_page_id`: the following leaf, `None` on the last leaf. */
  function NextPageId(leaf: Node): (r: Option<PageId>)
    requires leaf.Leaf?
    ensures r.Some? <==> leaf.nextPageId.Some?
    ensures r.Some? ==> r.value == leaf.nextPageId.value
  {
    leaf.nextPageId
  }
}
