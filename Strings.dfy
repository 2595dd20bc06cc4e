/**
 * The parts of Java's String API that the protocol adapters use, on
 * `seq<char>`: suffix tests, first and last occurrence of a substring,
 * `split` around one separator character, and `equalsIgnoreCase`.
 */
module Strings {

  predicate EndsWith(s: string, suffix: string)
  {
    |suffix| <= |s| && s[|s| - |suffix|..] == suffix
  }

  /** `t` occurs in `s` at index `i`. */
  predicate IsAt(s: string, t: string, i: int)
  {
    0 <= i && i + |t| <= |s| && s[i..i + |t|] == t
  }

  /** First occurrence of `t` in `s` at or after `i`, or -1. */
  function IndexFrom(s: string, t: string, i: nat): (r: int)
    decreases |s| - i
    ensures r == -1 || (i <= r && IsAt(s, t, r))
    ensures forall j {:trigger IsAt(s, t, j)} :: i <= j && (r == -1 || j < r) ==> !IsAt(s, t, j)
  {
    if i + |t| > |s| then -1
    else if s[i..i + |t|] == t then i
    else IndexFrom(s, t, i + 1)
  }

  /** Java's `s.indexOf(t)`. */
  function IndexOf(s: string, t: string): (r: int)
    ensures r == -1 <==> forall j {:trigger IsAt(s, t, j)} :: !IsAt(s, t, j)
    ensures r != -1 ==> IsAt(s, t, r) && forall j {:trigger IsAt(s, t, j)} :: j < r ==> !IsAt(s, t, j)
  {
    IndexFrom(s, t, 0)
  }

  /** Java's `s.contains(t)`. */
  predicate Contains(s: string, t: string)
  {
    IndexOf(s, t) != -1
  }

  /** Last occurrence of `t` in `s` at or before `i`, or -1. */
  function LastIndexFrom(s: string, t: string, i: int): (r: int)
    decreases i + 1
    ensures r == -1 || (r <= i && IsAt(s, t, r))
    ensures forall j {:trigger IsAt(s, t, j)} :: j <= i && r < j ==> !IsAt(s, t, j)
  {
    if i < 0 then -1
    else if IsAt(s, t, i) then i
    else LastIndexFrom(s, t, i - 1)
  }

  /** Java's `s.lastIndexOf(t)`. */
  function LastIndexOf(s: string, t: string): (r: int)
    ensures r == -1 <==> forall j {:trigger IsAt(s, t, j)} :: !IsAt(s, t, j)
    ensures r != -1 ==> IsAt(s, t, r) && forall j {:trigger IsAt(s, t, j)} :: r < j ==> !IsAt(s, t, j)
  {
    LastIndexFrom(s, t, |s| - |t|)
  }

  /** An occurrence with no earlier one is the one `IndexOf` finds. */
  lemma IndexOfIs(s: string, t: string, k: int)
    requires IsAt(s, t, k)
    requires forall j {:trigger IsAt(s, t, j)} :: j < k ==> !IsAt(s, t, j)
    ensures IndexOf(s, t) == k
  {
  }

  /** An occurrence that starts at or after `|p|` in `p + q` is one in `q`. */
  lemma IsAtShift(p: string, q: string, t: string, i: int)
    requires i >= |p|
    ensures IsAt(p + q, t, i) <==> IsAt(q, t, i - |p|)
  {
    if i + |t| <= |p| + |q| {
      assert (p + q)[i..i + |t|] == q[i - |p|..i - |p| + |t|];
    }
  }

  /** The pieces of `s` between occurrences of `sep`, empty pieces included. */
  function RawSplit(s: string, sep: char): (r: seq<string>)
    ensures |r| >= 1
  {
    if s == [] then [""]
    else if s[0] == sep then [""] + RawSplit(s[1..], sep)
    else
      var rest := RawSplit(s[1..], sep);
      [[s[0]] + rest[0]] + rest[1..]
  }

  function DropTrailingEmpty(parts: seq<string>): (r: seq<string>)
    ensures |r| <= |parts| && r == parts[..|r|]
    ensures r == [] || r[|r| - 1] != ""
  {
    if parts == [] then []
    else if parts[|parts| - 1] == "" then DropTrailingEmpty(parts[..|parts| - 1])
    else parts
  }

  /**
   * Java's `s.split(sep)` for a one-character separator: the pieces between
   * separators, a leading empty piece kept, trailing empty pieces dropped,
   * and `[s]` itself when `s` is empty.
   */
  function Split(s: string, sep: char): seq<string>
  {
    if s == "" then [""] else DropTrailingEmpty(RawSplit(s, sep))
  }

  lemma {:induction false} RawSplitNoSeparator(s: string, sep: char)
    requires sep !in s
    ensures RawSplit(s, sep) == [s]
  {
    if s != [] {
      RawSplitNoSeparator(s[1..], sep);
      assert [s[0]] + s[1..] == s;
    }
  }

  /** Splitting around one separator concatenates the pieces of both sides. */
  lemma {:induction false} RawSplitAppend(x: string, y: string, sep: char)
    ensures RawSplit(x + [sep] + y, sep) == RawSplit(x, sep) + RawSplit(y, sep)
  {
    var s := x + [sep] + y;
    if x == [] {
      assert s == [sep] + y;
      assert s[1..] == y;
    } else {
      assert s[0] == x[0] && s[1..] == x[1..] + [sep] + y;
      RawSplitAppend(x[1..], y, sep);
      if x[0] == sep {
        RawSplitOpens(s, x, RawSplit(y, sep), sep);
      } else {
        RawSplitJoins(s, x, RawSplit(y, sep), sep);
      }
    }
  }

  /**
   * The inductive step of `RawSplitAppend` when `s` and `x` start with the
   * separator: a leading separator opens an empty first piece on both sides.
   */
  lemma {:induction false} RawSplitOpens(s: string, x: string, right: seq<string>, sep: char)
    requires s != [] && x != [] && s[0] == x[0] == sep
    requires RawSplit(s[1..], sep) == RawSplit(x[1..], sep) + right
    ensures RawSplit(s, sep) == RawSplit(x, sep) + right
  {
    var tail := RawSplit(x[1..], sep);
    assert RawSplit(s, sep) == [""] + (tail + right);
    assert RawSplit(x, sep) == [""] + tail;
    assert [""] + (tail + right) == ([""] + tail) + right;
  }

  /** A leading ordinary character joins the first piece on both sides. */
  lemma {:induction false} RawSplitJoins(s: string, x: string, right: seq<string>, sep: char)
    requires s != [] && x != [] && s[0] == x[0] != sep
    requires RawSplit(s[1..], sep) == RawSplit(x[1..], sep) + right
    ensures RawSplit(s, sep) == RawSplit(x, sep) + right
  {
    RawSplitJoinsFirst(s, sep);
    RawSplitJoinsFirst(x, sep);
    JoinFirst(x[0], RawSplit(x[1..], sep), right);
  }

  /** `RawSplit` of a string starting with an ordinary character, one step unfolded. */
  lemma RawSplitJoinsFirst(s: string, sep: char)
    requires s != [] && s[0] != sep
    ensures RawSplit(s, sep) == [[s[0]] + RawSplit(s[1..], sep)[0]] + RawSplit(s[1..], sep)[1..]
  {
  }

  /** Prepending to the first piece commutes with appending further pieces. */
  lemma JoinFirst<T>(c: T, tail: seq<seq<T>>, right: seq<seq<T>>)
    requires tail != []
    ensures [[c] + (tail + right)[0]] + (tail + right)[1..] == ([[c] + tail[0]] + tail[1..]) + right
  {
    assert (tail + right)[0] == tail[0];
    assert (tail + right)[1..] == tail[1..] + right;
  }

  /** `a/b/c` with separator-free pieces and a non-empty last piece splits into exactly those pieces. */
  lemma SplitThree(a: string, b: string, c: string, sep: char)
    requires sep !in a && sep !in b && sep !in c && c != ""
    ensures Split(a + [sep] + b + [sep] + c, sep) == [a, b, c]
  {
    var s := a + [sep] + b + [sep] + c;
    assert s == a + [sep] + (b + [sep] + c);
    RawSplitAppend(a, b + [sep] + c, sep);
    RawSplitAppend(b, c, sep);
    RawSplitNoSeparator(a, sep);
    RawSplitNoSeparator(b, sep);
    RawSplitNoSeparator(c, sep);
    assert RawSplit(s, sep) == [a, b, c];
  }

  /** ASCII lower-casing of one character. */
  function LowerAscii(c: char): (r: char)
    ensures 'A' <= c <= 'Z' ==> 'a' <= r <= 'z' && r as int - c as int == 32
    ensures !('A' <= c <= 'Z') ==> r == c
  {
    if 'A' <= c <= 'Z' then (c as int + 32) as char else c
  }

  /** Java's `a.equalsIgnoreCase(b)`, with ASCII case mapping only. */
  predicate EqualsIgnoreCase(a: string, b: string)
  {
    |a| == |b| && forall i :: 0 <= i < |a| ==> LowerAscii(a[i]) == LowerAscii(b[i])
  }
}
