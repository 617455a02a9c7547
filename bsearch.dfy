/**
 * Binary search over a list of keys, with the contract of the crate's
 * `binary_search_by`: the index of an equal key, or else the index at which
 * the key would be inserted.
 */
module BSearch {
  import opened Bytes

  /** `Result<usize, usize>`: `Ok(slot)` is `Found`, `Err(slot)` is `NotFound`. */
  datatype SearchResult = Found(index: nat) | NotFound(index: nat)

  /** Keys in strictly increasing order, as a B-tree node keeps them. */
  ghost predicate StrictlySorted(keys: seq<seq<byte>>) {
    forall i, j :: 0 <= i < j < |keys| ==> Cmp(keys[i], keys[j]) == Less
  }

  /** Every key before `lo` is below `key`, every key from `hi` on is above it. */
  ghost predicate Bracketed(keys: seq<seq<byte>>, key: seq<byte>, lo: nat, hi: nat) {
    && (forall i :: 0 <= i < lo && i < |keys| ==> Cmp(keys[i], key) == Less)
    && (forall i :: hi <= i < |keys| ==> Cmp(keys[i], key) == Greater)
  }

  lemma BelowMid(keys: seq<seq<byte>>, key: seq<byte>, mid: nat)
    requires mid < |keys| && Cmp(keys[mid], key) == Less
    ensures StrictlySorted(keys) ==> forall i :: 0 <= i <= mid ==> Cmp(keys[i], key) == Less
  {
    if StrictlySorted(keys) {
      forall i | 0 <= i < mid ensures Cmp(keys[i], key) == Less {
        CmpLessTrans(keys[i], keys[mid], key);
      }
    }
  }

  lemma AboveMid(keys: seq<seq<byte>>, key: seq<byte>, mid: nat)
    requires mid < |keys| && Cmp(keys[mid], key) == Greater
    ensures StrictlySorted(keys) ==> forall i :: mid <= i < |keys| ==> Cmp(keys[i], key) == Greater
  {
    if StrictlySorted(keys) {
      forall i | mid < i < |keys| ensures Cmp(keys[i], key) == Greater {
        CmpFlip(key, keys[mid]);
        CmpLessTrans(key, keys[mid], keys[i]);
        CmpFlip(key, keys[i]);
      }
    }
  }

  /** The search over the half-open range `[lo, hi)`. */
  function SearchRange(keys: seq<seq<byte>>, key: seq<byte>, lo: nat, hi: nat): (r: SearchResult)
    requires lo <= hi <= |keys|
    ensures r.Found? ==> lo <= r.index < hi && keys[r.index] == key
    ensures r.NotFound? ==> lo <= r.index <= hi
    ensures r.NotFound? && StrictlySorted(keys) && Bracketed(keys, key, lo, hi) ==>
              Bracketed(keys, key, r.index, r.index)
    decreases hi - lo
  {
    if lo == hi then NotFound(lo)
    else
      var mid := lo + (hi - lo) / 2;
      match Cmp(keys[mid], key)
      case Less => BelowMid(keys, key, mid); SearchRange(keys, key, mid + 1, hi)
      case Greater => AboveMid(keys, key, mid); SearchRange(keys, key, lo, mid)
      case Equal => CmpEqual(keys[mid], key); Found(mid)
  }

  /**
   * `binary_search_by(keys.len(), |i| keys[i].cmp(key))`. On sorted keys a
   * miss reports the insertion point: every key before it is smaller, every
   * key from it on is larger.
   */
  function BinarySearch(keys: seq<seq<byte>>, key: seq<byte>): (r: SearchResult)
    ensures r.Found? ==> r.index < |keys| && keys[r.index] == key
    ensures r.NotFound? ==> r.index <= |keys|
    ensures r.NotFound? && StrictlySorted(keys) ==> Bracketed(keys, key, r.index, r.index)
  {
    SearchRange(keys, key, 0, |keys|)
  }
}
