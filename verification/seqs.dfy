/** Facts about joining and slicing sequences that the proofs elsewhere rely on. */
module Sequences {

  /** Four runs joined one after another, the last two taken as one tail. */
  lemma Regroup<T>(a: seq<T>, b: seq<T>, c: seq<T>, d: seq<T>)
    ensures a + b + c + d == a + b + (c + d)
  {
  }

  /** Dropping `m` elements and then `k` more drops `m + k`. */
  lemma DropDrop<T>(s: seq<T>, m: int, k: int)
    requires 0 <= m && 0 <= k && m + k <= |s|
    ensures s[m..][k..] == s[m + k..]
  {
  }

  /** A sequence is its first `n` elements followed by the rest. */
  lemma Split<T>(s: seq<T>, n: int)
    requires 0 <= n <= |s|
    ensures s[..n] + s[n..] == s
  {
  }

  /** Joining is associative. */
  lemma Assoc<T>(a: seq<T>, b: seq<T>, c: seq<T>)
    ensures a + b + c == a + (b + c)
  {
  }

  /** Joining nothing changes nothing. */
  lemma AppendEmpty<T>(a: seq<T>)
    ensures a + [] == a
  {
  }

  /** The last element of a join with a non-empty tail, and what comes before it. */
  lemma AppendFront<T>(a: seq<T>, b: seq<T>)
    requires b != []
    ensures (a + b)[..|a + b| - 1] == a + b[..|b| - 1]
    ensures (a + b)[|a + b| - 1] == b[|b| - 1]
  {
  }
}
