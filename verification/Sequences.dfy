/** Suffixes and subsequences. */
module Sequences {

  ghost predicate IsSuffix<T>(s: seq<T>, whole: seq<T>) {
    |s| <= |whole| && s == whole[|whole| - |s|..]
  }

  lemma SuffixGrows<T>(s: seq<T>, whole: seq<T>, k: nat, x: T)
    requires IsSuffix(s, whole) && k <= |s|
    ensures IsSuffix(s[k..] + [x], whole + [x])
  {
  }

  /** Some elements of the whole, in order. */
  ghost predicate Subsequence<T(!new)>(s: seq<T>, whole: seq<T>)
    decreases |whole|
  {
    if s == [] then true
    else if whole == [] then false
    else
      var m, n := |s| - 1, |whole| - 1;
      (s[m] == whole[n] && Subsequence(s[..m], whole[..n])) || Subsequence(s, whole[..n])
  }

  lemma SubsequenceSkip<T(!new)>(s: seq<T>, whole: seq<T>, x: T)
    requires Subsequence(s, whole)
    ensures Subsequence(s, whole + [x])
  {
    assert (whole + [x])[..|whole|] == whole;
  }

  lemma SubsequenceTake<T(!new)>(s: seq<T>, whole: seq<T>, x: T)
    requires Subsequence(s, whole)
    ensures Subsequence(s + [x], whole + [x])
  {
    assert (s + [x])[..|s|] == s && (whole + [x])[..|whole|] == whole;
  }

  lemma {:induction false} SubsequenceSkipAll<T(!new)>(s: seq<T>, whole: seq<T>, more: seq<T>)
    requires Subsequence(s, whole)
    ensures Subsequence(s, whole + more)
  {
    hide Subsequence;
    if more == [] {
      assert whole + more == whole;
    } else {
      var n := |more| - 1;
      SubsequenceSkipAll(s, whole, more[..n]);
      SubsequenceSkip(s, whole + more[..n], more[n]);
      assert (whole + more[..n]) + [more[n]] == whole + more;
    }
  }

  lemma {:induction false} SubsequenceTakeAll<T(!new)>(s: seq<T>, whole: seq<T>, more: seq<T>)
    requires Subsequence(s, whole)
    ensures Subsequence(s + more, whole + more)
  {
    hide Subsequence;
    if more == [] {
      assert whole + more == whole && s + more == s;
    } else {
      var n := |more| - 1;
      SubsequenceTakeAll(s, whole, more[..n]);
      SubsequenceTake(s + more[..n], whole + more[..n], more[n]);
      assert (whole + more[..n]) + [more[n]] == whole + more;
      assert (s + more[..n]) + [more[n]] == s + more;
    }
  }
}
