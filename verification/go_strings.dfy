/**
 * The part of Go's `strings` package the mail service relies on: `strings.Split`
 * with a one-character separator, as `sendEmail` calls it to turn a
 * comma-separated recipient string into a recipient list. Empty pieces are kept
 * and nothing is trimmed; `Join` is the reference inverse used to state what a
 * split means.
 */
module GoStrings {

  /** Position of the first occurrence of `c` in `s`. */
  function IndexOf(s: string, c: char): (i: nat)
    requires c in s
    ensures i < |s| && s[i] == c
    ensures c !in s[..i]
  {
    if s[0] == c then 0
    else
      var j := IndexOf(s[1..], c);
      assert s[..j + 1] == [s[0]] + s[1..][..j];
      1 + j
  }

  /** Position of the last occurrence of `c` in `s`. */
  function LastIndexOf(s: string, c: char): (i: nat)
    requires c in s
    ensures i < |s| && s[i] == c
    ensures c !in s[i + 1..]
  {
    if s[|s| - 1] == c then |s| - 1
    else
      assert s == s[..|s| - 1] + [s[|s| - 1]];
      var j := LastIndexOf(s[..|s| - 1], c);
      assert s[j + 1..] == s[..|s| - 1][j + 1..] + [s[|s| - 1]];
      j
  }

  /** An index holding `c` with no `c` before it is the one IndexOf finds. */
  lemma IndexOfIsFirst(s: string, c: char, i: nat)
    requires i < |s| && s[i] == c && c !in s[..i]
    ensures IndexOf(s, c) == i
  {
  }

  /** An index holding `c` with no `c` after it is the one LastIndexOf finds. */
  lemma LastIndexOfIsLast(s: string, c: char, i: nat)
    requires i < |s| && s[i] == c && c !in s[i + 1..]
    ensures LastIndexOf(s, c) == i
  {
  }

  /**
   * Go's `strings.Split(s, string(sep))`: the pieces of `s` between
   * occurrences of `sep`, in order. There is always at least one piece
   * (`""` gives `[""]`), empty pieces are kept and no piece holds `sep`.
   */
  function Split(s: string, sep: char): (r: seq<string>)
    ensures |r| >= 1
    ensures forall k :: 0 <= k < |r| ==> sep !in r[k]
    decreases |s|
  {
    if sep !in s then [s]
    else
      var i := IndexOf(s, sep);
      [s[..i]] + Split(s[i + 1..], sep)
  }

  /** Go's `strings.Join(xs, string(sep))`: the pieces with `sep` between neighbours. */
  function Join(xs: seq<string>, sep: char): (r: string)
  {
    if |xs| == 0 then ""
    else if |xs| == 1 then xs[0]
    else xs[0] + [sep] + Join(xs[1..], sep)
  }

  /** Joining the pieces of a split gives back the string that was split. */
  lemma {:induction false} JoinSplit(s: string, sep: char)
    ensures Join(Split(s, sep), sep) == s
  {
    if sep in s {
      var i := IndexOf(s, sep);
      var rest := Split(s[i + 1..], sep);
      JoinSplit(s[i + 1..], sep);
      assert ([s[..i]] + rest)[1..] == rest;
      assert s == s[..i] + [sep] + s[i + 1..];
    }
  }

  /**
   * Splitting a join of separator-free pieces gives the pieces back; together
   * with JoinSplit, Split(s, sep) is the only non-empty list of separator-free
   * pieces whose join is `s`.
   */
  lemma {:induction false} SplitJoin(xs: seq<string>, sep: char)
    requires |xs| >= 1
    requires forall k :: 0 <= k < |xs| ==> sep !in xs[k]
    ensures Split(Join(xs, sep), sep) == xs
  {
    if |xs| > 1 {
      var head, tail := xs[0], Join(xs[1..], sep);
      var s := Join(xs, sep);
      assert s == head + [sep] + tail;
      assert s[..|head|] == head && s[|head|] == sep;
      IndexOfIsFirst(s, sep, |head|);
      assert s[|head| + 1..] == tail;
      assert Split(s, sep) == [head] + Split(tail, sep);
      SplitJoin(xs[1..], sep);
      assert xs == [head] + xs[1..];
    }
  }

  /** A split has one more piece than the string has separators. */
  lemma {:induction false} SplitCount(s: string, sep: char)
    ensures |Split(s, sep)| == multiset(s)[sep] + 1
  {
    if sep in s {
      var i := IndexOf(s, sep);
      SplitCount(s[i + 1..], sep);
      assert s == s[..i] + [sep] + s[i + 1..];
      assert multiset(s) == multiset(s[..i]) + multiset{sep} + multiset(s[i + 1..]);
      assert multiset(s[..i])[sep] == 0;
    } else {
      assert multiset(s)[sep] == 0;
    }
  }

  /** The empty string splits to a single empty piece. */
  lemma SplitEmpty(sep: char)
    ensures Split("", sep) == [""]
  {
  }

  /** Adjacent separators leave an empty piece between them: "a,,b" has three pieces. */
  lemma SplitKeepsEmptyPieces()
    ensures Split("a,,b", ',') == ["a", "", "b"]
  {
    SplitJoin(["a", "", "b"], ',');
    assert Join(["a", "", "b"], ',') == "a,,b";
  }

  /** Spaces around a separator stay in the pieces: nothing is trimmed. */
  lemma SplitKeepsSpaces()
    ensures Split(" a , b ", ',') == [" a ", " b "]
  {
    SplitJoin([" a ", " b "], ',');
    assert Join([" a ", " b "], ',') == " a , b ";
  }
}
