/** Removal from a sequence, and counting, as several components use them. */
module Seqs {

  function One(b: bool): nat { if b then 1 else 0 }

  /** Removes the first occurrence. */
  function Without<T(==)>(s: seq<T>, x: T): seq<T> {
    if s == [] then [] else if s[0] == x then s[1..] else [s[0]] + Without(s[1..], x)
  }

  lemma {:induction false} WithoutAt<T>(s: seq<T>, x: T, j: nat)
    requires j < |s| && s[j] == x && x !in s[..j]
    ensures Without(s, x) == s[..j] + s[j + 1..]
  {
    if j > 0 {
      assert s[0] == s[..j][0];
      assert s[1..][..j - 1] == s[..j][1..];
      WithoutAt(s[1..], x, j - 1);
    }
  }

  lemma {:induction false} WithoutNone<T>(s: seq<T>, x: T)
    requires x !in s
    ensures Without(s, x) == s
  {
    if s != [] {
      WithoutNone(s[1..], x);
    }
  }
}
