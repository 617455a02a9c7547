/** Routing a key through a branch page to one of its children. */
module Branch {
  import opened Bytes
  import opened BSearch
  import opened BTreeNode

  /**
   * A branch value read as a page id: the bytes as an unsigned
   * little-endian integer.
   */
  function PageIdOf(bytes: seq<byte>): PageId {
    if bytes == [] then 0 else bytes[0] as nat + 256 * PageIdOf(bytes[1..])
  }

  /**
   * Child `idx` covers the keys at least the key of pair `idx - 1` and below
   * the key of pair `idx`.
   */
  ghost predicate Routes(b: Node, key: seq<byte>, idx: nat) {
    && (forall i :: 0 <= i < idx && i < NumPairs(b) ==> Cmp(PairAt(b, i).key, key) != Greater)
    && (forall i :: idx <= i < NumPairs(b) ==> Cmp(PairAt(b, i).key, key) == Greater)
  }

  /** At most one child index routes a given key. */
  lemma RoutesUnique(b: Node, key: seq<byte>, idx1: nat, idx2: nat)
    requires idx1 <= NumPairs(b) && idx2 <= NumPairs(b)
    requires Routes(b, key, idx1) && Routes(b, key, idx2)
    ensures idx1 == idx2
  {
    assert idx1 < NumPairs(b) ==> Cmp(PairAt(b, idx1).key, key) == Greater;
    assert idx2 < NumPairs(b) ==> Cmp(PairAt(b, idx2).key, key) == Greater;
  }

  /**
   * `search_child_idx(key)`: one past an exact match, the insertion point
   * otherwise; on sorted keys, the number of keys not above `key`.
   */
  function SearchChildIdx(b: Node, key: seq<byte>): (r: nat)
    requires b.Branch?
    ensures r <= NumPairs(b)
    ensures Sorted(b) ==> Routes(b, key, r)
  {
    match SearchSlotId(b, key)
    case Found(s) =>
      assert Sorted(b) ==> Routes(b, key, s + 1) by {
        if Sorted(b) { FoundSplits(b, key, s); }
      }
      s + 1
    case NotFound(s) => s
  }

  /**
   * `child_at(idx)`: the right child for the last index, the value of pair
   * `idx` read as a page id for the others.
   */
  function ChildAt(b: Node, idx: nat): (r: PageId)
    requires b.Branch? && idx <= NumPairs(b)
    ensures idx == NumPairs(b) ==> r == b.rightChild
    ensures idx < NumPairs(b) ==> r == PageIdOf(PairAt(b, idx).value)
  {
    if idx == NumPairs(b) then b.rightChild else PageIdOf(PairAt(b, idx).value)
  }

  /** `search_child(key)`: on sorted keys, the child whose key range holds `key`. */
  function SearchChild(b: Node, key: seq<byte>): (r: PageId)
    requires b.Branch?
    ensures Sorted(b) ==>
      forall idx :: 0 <= idx <= NumPairs(b) && Routes(b, key, idx) ==> r == ChildAt(b, idx)
  {
    var idx := SearchChildIdx(b, key);
    assert Sorted(b) ==> forall j :: 0 <= j <= NumPairs(b) && Routes(b, key, j) ==> j == idx by {
      forall j | 0 <= j <= NumPairs(b) && Sorted(b) && Routes(b, key, j) ensures j == idx {
        RoutesUnique(b, key, j, idx);
      }
    }
    ChildAt(b, idx)
  }

  /**
   * `max_pair_size()`: half the body's capacity less one slot pointer, so
   * that two pairs of that size fit together with their slot pointers, and
   * two pairs one byte larger do not. The
   * subtraction is on `usize` and panics below zero.
   */
  function MaxPairSize(capacity: nat, pointerSize: nat): (r: nat)
    requires pointerSize <= capacity / 2
    ensures 2 * (r + pointerSize) <= capacity
    ensures capacity < 2 * (r + 1 + pointerSize)
  {
    capacity / 2 - pointerSize
  }
}
