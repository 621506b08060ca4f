/** Regrouping of sequences. */
module Seqs {

  lemma Assoc<T>(a: seq<T>, b: seq<T>, c: seq<T>)
    ensures (a + b) + c == a + (b + c)
  {
  }

  lemma DropDrop<T>(s: seq<T>, i: nat, k: nat)
    requires i + k <= |s|
    ensures s[i..][k..] == s[i + k..]
  {
  }

  lemma SplitTail<T>(a: seq<T>, b: seq<T>, n: nat)
    requires a != [] && n < |a|
    ensures a[1..] == a[1..][..n] + a[1..][n..]
    ensures (a + b)[1..] == a[1..][..n] + (a[1..][n..] + b)
  {
  }

  lemma SplitLast<T>(s: seq<T>)
    requires s != []
    ensures s == s[..|s| - 1] + [s[|s| - 1]]
  {
  }

  lemma HeadTail<T>(a: seq<T>, n: nat)
    requires a != [] && n < |a|
    ensures a == ([a[0]] + a[1..][..n]) + a[1..][n..]
  {
  }
}
