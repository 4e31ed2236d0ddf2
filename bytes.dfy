/**
 * Bytes as they travel over the serial line, and the two sequence
 * operations the read primitives are built from: taking at most `n`
 * bytes from the front of a stream, and what is left after that.
 */
module Bytes {

  type Byte = b: int | 0 <= b < 0x100

  /** The smaller of two integers. */
  function Min(a: int, b: int): (m: int)
  {
    if a <= b then a else b
  }

  /** The first `min(n, |s|)` elements of `s`: what a read of `n` bytes yields. */
  function Take<T>(s: seq<T>, n: nat): (r: seq<T>)
    ensures |r| == Min(n, |s|)
    ensures r == s[..|r|]
  {
    s[..Min(n, |s|)]
  }

  /** What is left of `s` after a read of `n` bytes. */
  function Drop<T>(s: seq<T>, n: nat): (r: seq<T>)
    ensures |r| == |s| - Min(n, |s|)
    ensures Take(s, n) + r == s
  {
    s[Min(n, |s|)..]
  }

  /** Reading `k` elements and then `m` more is reading `k + m` elements. */
  lemma TakeDropAdd<T>(s: seq<T>, k: nat, m: nat)
    ensures Take(s, k) + Take(Drop(s, k), m) == Take(s, k + m)
    ensures Drop(Drop(s, k), m) == Drop(s, k + m)
  {
  }
}
