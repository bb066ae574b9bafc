/** Order-preserving selections from a sequence: what Array.prototype.filter
    returns, described independently of any predicate. */
module Subsequences {

  /** The elements of s at the positions where keep is true, in their order in s. */
  function Select<T>(s: seq<T>, keep: seq<bool>): (r: seq<T>)
    requires |keep| == |s|
    ensures |r| <= |s|
    ensures forall x :: x in r ==> x in s
  {
    if s == [] then [] else (if keep[0] then [s[0]] else []) + Select(s[1..], keep[1..])
  }

  /** sub is s with some elements left out and the rest in their original order. */
  ghost predicate IsSubsequence<T>(sub: seq<T>, s: seq<T>) {
    exists keep: seq<bool> :: |keep| == |s| && Select(s, keep) == sub
  }

  /** Keeping every position gives the sequence back. */
  lemma {:induction false} SelectAll<T>(s: seq<T>)
    ensures Select(s, seq(|s|, _ => true)) == s
  {
    if s != [] {
      assert seq(|s|, _ => true)[1..] == seq(|s| - 1, _ => true);
      SelectAll(s[1..]);
    }
  }

  /** Every sequence is a subsequence of itself. */
  lemma SubsequenceReflexive<T>(s: seq<T>)
    ensures IsSubsequence(s, s)
  {
    SelectAll(s);
  }

  /** A subsequence is never longer than the sequence it is taken from. */
  lemma SubsequenceLength<T>(sub: seq<T>, s: seq<T>)
    requires IsSubsequence(sub, s)
    ensures |sub| <= |s|
  {
    var keep :| |keep| == |s| && Select(s, keep) == sub;
  }
}
