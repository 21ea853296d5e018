/** Small facts about sequences that the byte-stream proofs lean on. */
module Seqs {

  lemma Associative<T>(x: seq<T>, y: seq<T>, z: seq<T>)
    ensures x + (y + z) == (x + y) + z
  {
  }

  /** Three pieces appended one after another make one piece appended. */
  lemma Chain3<T>(w: seq<T>, a: seq<T>, b: seq<T>, c: seq<T>)
    ensures w + a + b + c == w + (a + b + c)
  {
  }

  /** A slice inside the front part of a concatenation. */
  lemma SliceOfFront<T>(a: seq<T>, b: seq<T>, i: nat, j: nat)
    requires i <= j <= |a|
    ensures (a + b)[i..j] == a[i..j]
  {
  }

  /** The back part of a concatenation, sliced out again. */
  lemma SliceOfBack<T>(a: seq<T>, b: seq<T>)
    ensures (a + b)[|a|..|a| + |b|] == b
  {
  }

  /** Dropping a elements, then b more, drops a + b. */
  lemma DropDrop<T>(s: seq<T>, a: nat, b: nat)
    requires a + b <= |s|
    ensures s[a..][b..] == s[a + b..]
  {
  }

  /** A prefix of a sequence that starts with a given header is that header followed by the rest. */
  lemma SplitHeader<T>(s: seq<T>, header: seq<T>, n: nat)
    requires |header| <= n <= |s| && forall i :: 0 <= i < |header| ==> header[i] == s[i]
    ensures s[..n] == header + s[|header|..n]
  {
  }
}
