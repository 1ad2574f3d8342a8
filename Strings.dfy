/**
 * The library string operations the app relies on, with the semantics of the
 * language each call is made in: JavaScript's `split`/`join`, and Java's
 * `String.split` (which drops trailing empty pieces) and `String.trim`.
 */
module Strings {

  /**
   * JavaScript `s.split(sep)` for a one-character separator: the pieces
   * between separators, in order. Never empty: `"".split(".")` is `[""]`.
   */
  function Split(s: string, sep: char): (r: seq<string>)
    ensures |r| >= 1
    ensures forall i :: 0 <= i < |r| ==> sep !in r[i]
    decreases |s|
  {
    if |s| == 0 then [""]
    else
      var rest := Split(s[1..], sep);
      if s[0] == sep then [""] + rest
      else [[s[0]] + rest[0]] + rest[1..]
  }

  /** JavaScript `parts.join(sep)`. */
  function Join(parts: seq<string>, sep: string): string
  {
    if |parts| == 0 then ""
    else if |parts| == 1 then parts[0]
    else parts[0] + sep + Join(parts[1..], sep)
  }

  /** Joining the pieces of a split with the same separator gives back the string. */
  lemma {:induction false} JoinSplit(s: string, sep: char)
    ensures Join(Split(s, sep), [sep]) == s
    decreases |s|
  {
    if |s| > 0 {
      var rest := Split(s[1..], sep);
      JoinSplit(s[1..], sep);
      if s[0] == sep {
        assert ([""] + rest)[1..] == rest;
      } else {
        var r := [[s[0]] + rest[0]] + rest[1..];
        if |rest| > 1 {
          assert r[1..] == rest[1..];
          assert Join(rest, [sep]) == rest[0] + [sep] + Join(rest[1..], [sep]);
        }
      }
    }
  }

  /** A string without the separator splits into itself alone. */
  lemma {:induction false} SplitWithoutSeparator(s: string, sep: char)
    requires sep !in s
    ensures Split(s, sep) == [s]
    decreases |s|
  {
    if |s| > 0 {
      SplitWithoutSeparator(s[1..], sep);
      assert [s[0]] + s[1..] == s;
    }
  }

  /** Splitting `a + sep + b`, where `a` holds no separator, yields `a` followed by the pieces of `b`. */
  lemma {:induction false} SplitAfterPiece(a: string, sep: char, b: string)
    requires sep !in a
    ensures Split(a + [sep] + b, sep) == [a] + Split(b, sep)
    decreases |a|
  {
    var s := a + [sep] + b;
    if |a| == 0 {
      assert s[1..] == b;
    } else {
      assert s[1..] == a[1..] + [sep] + b;
      SplitAfterPiece(a[1..], sep, b);
      assert [s[0]] + a[1..] == a;
    }
  }

  /** Splitting a join of separator-free pieces recovers the pieces. */
  lemma {:induction false} SplitJoin(parts: seq<string>, sep: char)
    requires |parts| >= 1
    requires forall i :: 0 <= i < |parts| ==> sep !in parts[i]
    ensures Split(Join(parts, [sep]), sep) == parts
    decreases |parts|
  {
    if |parts| == 1 {
      SplitWithoutSeparator(parts[0], sep);
    } else {
      SplitJoin(parts[1..], sep);
      SplitAfterPiece(parts[0], sep, Join(parts[1..], [sep]));
      assert [parts[0]] + parts[1..] == parts;
    }
  }

  /** A join with the empty separator (JavaScript `join("")`) holds only characters of its pieces. */
  lemma {:induction false} JoinEmptyAvoids(parts: seq<string>, c: char)
    requires forall i :: 0 <= i < |parts| ==> c !in parts[i]
    ensures c !in Join(parts, "")
    decreases |parts|
  {
    if |parts| > 1 {
      JoinEmptyAvoids(parts[1..], c);
    }
  }

  /**
   * Java's `String.split(",")` (limit 0): like Split, but trailing empty
   * pieces are removed; no match gives `[s]`. The pieces joined back make
   * up `s` up to its trailing run of separators, which is all that is
   * dropped.
   */
  function JavaSplit(s: string, sep: char): (r: seq<string>)
    ensures sep !in s ==> r == [s]
    ensures forall i :: 0 <= i < |r| ==> sep !in r[i]
    ensures |r| > 0 ==> r[|r| - 1] != "" || sep !in s
    ensures var n := |Join(r, [sep])|;
      && n <= |s| && Join(r, [sep]) == s[..n]
      && forall k :: n <= k < |s| ==> s[k] == sep
  {
    if sep !in s then
      SplitWithoutSeparator(s, sep);
      [s]
    else
      var parts := Split(s, sep);
      var r := DropTrailingEmpty(parts);
      JoinSplit(s, sep);
      JoinTrailingEmpty(parts, |r|, sep);
      r
  }

  /** Appending a piece to a non-empty list adds the separator and the piece to its join. */
  lemma {:induction false} JoinSnoc(parts: seq<string>, x: string, sep: string)
    requires |parts| >= 1
    ensures Join(parts + [x], sep) == Join(parts, sep) + sep + x
    decreases |parts|
  {
    if |parts| > 1 {
      JoinSnoc(parts[1..], x, sep);
      assert (parts + [x])[1..] == parts[1..] + [x];
    }
  }

  /**
   * When every piece from `n` on is empty, the join of the first `n`
   * pieces is a prefix of the join of all, and what follows it is
   * separators only.
   */
  lemma {:induction false} JoinTrailingEmpty(parts: seq<string>, n: nat, sep: char)
    requires n <= |parts|
    requires forall i :: n <= i < |parts| ==> parts[i] == ""
    ensures var j := Join(parts[..n], [sep]); var all := Join(parts, [sep]);
      && |j| <= |all| && all[..|j|] == j
      && forall k :: |j| <= k < |all| ==> all[k] == sep
    decreases |parts|
  {
    if n < |parts| {
      var p := parts[..|parts| - 1];
      assert p[..n] == parts[..n];
      JoinTrailingEmpty(p, n, sep);
      assert parts == p + [""];
      if |p| >= 1 {
        JoinSnoc(p, "", [sep]);
      }
    } else {
      assert parts[..n] == parts;
    }
  }

  /** The longest prefix of `parts` that does not end in an empty string. */
  function DropTrailingEmpty(parts: seq<string>): (r: seq<string>)
    ensures |r| <= |parts| && r == parts[..|r|]
    ensures |r| > 0 ==> r[|r| - 1] != ""
    ensures forall i :: |r| <= i < |parts| ==> parts[i] == ""
  {
    if |parts| > 0 && parts[|parts| - 1] == "" then DropTrailingEmpty(parts[..|parts| - 1])
    else parts
  }

  /** Java treats every character up to U+0020 as blank when trimming: `s[lo..hi]` is all blank. */
  predicate BlankBetween(s: string, lo: int, hi: int)
    requires 0 <= lo <= hi <= |s|
  {
    forall i :: lo <= i < hi ==> s[i] <= ' '
  }

  /** Java's scan for the first character of `s` at or after `i` that is not blank. */
  function TrimStart(s: string, i: nat): (k: nat)
    requires i <= |s|
    ensures i <= k <= |s|
    ensures BlankBetween(s, i, k)
    ensures k < |s| ==> s[k] > ' '
    decreases |s| - i
  {
    if i < |s| && s[i] <= ' ' then TrimStart(s, i + 1) else i
  }

  /** Java's scan back from `j` to just past the last character of `s[lo..j]` that is not blank. */
  function TrimEnd(s: string, lo: nat, j: nat): (k: nat)
    requires lo <= j <= |s|
    ensures lo <= k <= j
    ensures BlankBetween(s, k, j)
    ensures k > lo ==> s[k - 1] > ' '
    decreases j
  {
    if lo < j && s[j - 1] <= ' ' then TrimEnd(s, lo, j - 1) else j
  }

  /**
   * Java `s.trim()`: `s` without its leading and trailing blanks. The result
   * is the slice of `s` that starts at its first non-blank character, has
   * only blanks after it, and neither of its ends is blank.
   */
  function Trim(s: string): (r: string)
    ensures |r| <= |s|
    ensures r == [] || (r[0] > ' ' && r[|r| - 1] > ' ')
    ensures var k := TrimStart(s, 0);
      k + |r| <= |s| && r == s[k..k + |r|] && BlankBetween(s, 0, k) && BlankBetween(s, k + |r|, |s|)
  {
    var k := TrimStart(s, 0);
    var j := TrimEnd(s, k, |s|);
    s[k..j]
  }

  /** Trimming is idempotent: a trimmed string has nothing left to trim. */
  lemma TrimIdempotent(s: string)
    ensures Trim(Trim(s)) == Trim(s)
  {
    var t := Trim(s);
    assert t == [] || TrimStart(t, 0) == 0;
  }
}
