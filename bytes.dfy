/** Byte strings and their lexicographic order (Rust's `Ord` for `[u8]`). */
module Bytes {

  newtype byte = x: int | 0 <= x < 256

  datatype Ordering = Less | Equal | Greater

  /** `a.cmp(b)`: compare element by element; a proper prefix is smaller. */
  function Cmp(a: seq<byte>, b: seq<byte>): (r: Ordering)
    ensures |a| <= |b| && a == b[..|a|] ==> r == if |a| == |b| then Equal else Less
    ensures |b| <= |a| && b == a[..|b|] ==> r == if |a| == |b| then Equal else Greater
  {
    if a == [] then (if b == [] then Equal else Less)
    else if b == [] then Greater
    else if a[0] < b[0] then Less
    else if a[0] > b[0] then Greater
    else Cmp(a[1..], b[1..])
  }

  lemma {:induction false} CmpEqual(a: seq<byte>, b: seq<byte>)
    ensures Cmp(a, b) == Equal <==> a == b
  {
    if a != [] && b != [] && a[0] == b[0] {
      CmpEqual(a[1..], b[1..]);
      assert a == [a[0]] + a[1..] && b == [b[0]] + b[1..];
    }
  }

  lemma {:induction false} CmpFlip(a: seq<byte>, b: seq<byte>)
    ensures Cmp(a, b) == Less <==> Cmp(b, a) == Greater
  {
    if a != [] && b != [] && a[0] == b[0] {
      CmpFlip(a[1..], b[1..]);
    }
  }

  lemma {:induction false} CmpLessTrans(a: seq<byte>, b: seq<byte>, c: seq<byte>)
    requires Cmp(a, b) == Less && Cmp(b, c) == Less
    ensures Cmp(a, c) == Less
  {
    if a != [] && b != [] && c != [] && a[0] == b[0] == c[0] {
      CmpLessTrans(a[1..], b[1..], c[1..]);
    }
  }
}
