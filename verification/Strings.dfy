/** Splitting on a separator character, as Rust's `str::split`: n separators give n + 1 pieces. */
module Strings {

  function Split(s: string, sep: char): (pieces: seq<string>)
    ensures |pieces| >= 1
    ensures Join(pieces, sep) == s
    ensures forall i :: 0 <= i < |pieces| ==> sep !in pieces[i]
  {
    if s == "" then [""]
    else
      var rest := Split(s[1..], sep);
      if s[0] == sep then [""] + rest else [[s[0]] + rest[0]] + rest[1..]
  }

  function Join(pieces: seq<string>, sep: char): string
    requires |pieces| >= 1
  {
    if |pieces| == 1 then pieces[0] else pieces[0] + [sep] + Join(pieces[1..], sep)
  }

  lemma {:induction false} SplitConcat(left: string, right: string, sep: char)
    ensures Split(left + [sep] + right, sep) == Split(left, sep) + Split(right, sep)
  {
    var whole := left + [sep] + right;
    if left == "" {
      assert whole[1..] == right;
    } else {
      assert whole[1..] == left[1..] + [sep] + right;
      SplitConcat(left[1..], right, sep);
    }
  }

  lemma {:induction false} SplitWithoutSeparator(s: string, sep: char)
    requires sep !in s
    ensures Split(s, sep) == [s]
  {
    if s != "" {
      SplitWithoutSeparator(s[1..], sep);
    }
  }

  lemma {:induction false} SplitJoin(pieces: seq<string>, sep: char)
    requires |pieces| >= 1
    requires forall i :: 0 <= i < |pieces| ==> sep !in pieces[i]
    ensures Split(Join(pieces, sep), sep) == pieces
  {
    SplitWithoutSeparator(pieces[0], sep);
    if |pieces| > 1 {
      SplitConcat(pieces[0], Join(pieces[1..], sep), sep);
      SplitJoin(pieces[1..], sep);
    }
  }

  /** Joining is injective on pieces that do not contain the separator. */
  lemma SplitInjective(left: string, right: string, sep: char)
    ensures Split(left, sep) == Split(right, sep) <==> left == right
  {
    assert Join(Split(left, sep), sep) == left;
    assert Join(Split(right, sep), sep) == right;
  }

  lemma {:induction false} JoinConcat(left: seq<string>, right: seq<string>, sep: char)
    requires |left| >= 1 && |right| >= 1
    ensures Join(left + right, sep) == Join(left, sep) + [sep] + Join(right, sep)
  {
    if |left| > 1 {
      assert (left + right)[1..] == left[1..] + right;
      JoinConcat(left[1..], right, sep);
    } else {
      assert (left + right)[1..] == right;
    }
  }
}
