/**
 Models of the Python `str` operations that the ASCII-art statistics rely on:
 `str.isspace`, `str.strip`, `str.split('\n')` and `'\n'.join`.
 Strings are sequences of Unicode scalar values.
 */
module StrOps {

  /** The line separator used by `split` and `join`. */
  const Newline: char := '\n'

  /** Python's whitespace test on one character (`str.isspace`, which `str.strip`
      uses too): the tab-to-carriage-return controls, the four information
      separators, the space, NEL, NO-BREAK SPACE and the Unicode space separators. */
  predicate IsSpace(c: char)
  {
    || ('\t' <= c <= '\r')
    || ('\U{1C}' <= c <= '\U{1F}')
    || c == ' '
    || c == '\U{85}'
    || c == '\U{A0}'
    || c == '\U{1680}'
    || ('\U{2000}' <= c <= '\U{200A}')
    || c == '\U{2028}'
    || c == '\U{2029}'
    || c == '\U{202F}'
    || c == '\U{205F}'
    || c == '\U{3000}'
  }

  /** Every character of `s` is whitespace. */
  predicate AllSpace(s: string)
  {
    forall i :: 0 <= i < |s| ==> IsSpace(s[i])
  }

  /** `s` holds at least one character that is not whitespace. */
  predicate HasNonSpace(s: string)
  {
    exists i :: 0 <= i < |s| && !IsSpace(s[i])
  }

  /** `s.lstrip()`: drops the leading whitespace. The result is a suffix of `s`
      whose cut-off part is all whitespace and which starts with a non-space,
      unless it is empty. */
  function StripLeading(s: string): (r: string)
    ensures |r| <= |s| && r == s[|s| - |r|..]
    ensures AllSpace(s[..|s| - |r|])
    ensures r != [] ==> !IsSpace(r[0])
  {
    if s != [] && IsSpace(s[0]) then
      var r := StripLeading(s[1..]);
      assert s[1..][..|s| - 1 - |r|] == s[1..|s| - |r|];
      r
    else
      s
  }

  /** `s.rstrip()`: drops the trailing whitespace. The result is a prefix of `s`
      whose cut-off part is all whitespace and which ends with a non-space,
      unless it is empty. */
  function StripTrailing(s: string): (r: string)
    ensures |r| <= |s| && r == s[..|r|]
    ensures AllSpace(s[|r|..])
    ensures r != [] ==> !IsSpace(r[|r| - 1])
  {
    if s != [] && IsSpace(s[|s| - 1]) then
      var r := StripTrailing(s[..|s| - 1]);
      assert s[..|s| - 1][|r|..] + [s[|s| - 1]] == s[|r|..];
      r
    else
      s
  }

  /** `s.strip()`: drops the leading and the trailing whitespace. The result
      is a slice of `s` with only whitespace before and after it, and a
      non-empty result starts and ends with a non-space. */
  function Strip(s: string): (r: string)
    ensures exists i, j :: 0 <= i <= j <= |s| && r == s[i..j] && AllSpace(s[..i]) && AllSpace(s[j..])
    ensures r != [] ==> !IsSpace(r[0]) && !IsSpace(r[|r| - 1])
  {
    var l := StripLeading(s);
    var r := StripTrailing(l);
    var i, j := |s| - |l|, |s| - |l| + |r|;
    assert l == s[i..] && r == l[..|r|] && AllSpace(l[|r|..]);
    assert r == s[i..j] && s[j..] == l[|r|..];
    assert 0 <= i <= j <= |s| && AllSpace(s[..i]) && AllSpace(s[j..]);
    r
  }

  /** `s.strip() != ''` holds exactly when `s` holds a non-space character. */
  lemma StripNonEmptyIff(s: string)
    ensures Strip(s) != [] <==> HasNonSpace(s)
  {
  }

  /** Number of occurrences of `c` in `s`. */
  function Occurrences(s: string, c: char): (n: nat)
    ensures n <= |s|
  {
    if s == [] then 0 else (if s[0] == c then 1 else 0) + Occurrences(s[1..], c)
  }

  /** `s.split('\n')`: the pieces of `s` between newlines. Like Python's, it
      returns one piece more than there are newlines, so never an empty list
      (`''.split('\n') == ['']`). */
  function Split(s: string): (lines: seq<string>)
    ensures |lines| == Occurrences(s, Newline) + 1
  {
    if s == [] then
      [[]]
    else
      var rest := Split(s[1..]);
      if s[0] == Newline then [[]] + rest
      else [[s[0]] + rest[0]] + rest[1..]
  }

  /** No piece of a split holds a newline. */
  lemma {:induction false} SplitLinesHaveNoNewline(s: string)
    ensures forall i :: 0 <= i < |Split(s)| ==> Newline !in Split(s)[i]
  {
    if s != [] {
      SplitLinesHaveNoNewline(s[1..]);
      var rest := Split(s[1..]);
      if s[0] != Newline {
        assert Newline !in [s[0]] + rest[0];
      }
    }
  }

  /** `'\n'.join(lines)`: the lines with a newline between each two. */
  function Join(lines: seq<string>): string
  {
    if |lines| == 0 then []
    else if |lines| == 1 then lines[0]
    else lines[0] + [Newline] + Join(lines[1..])
  }

  /** Joining the result of `split` with the separator gives back the input. */
  lemma {:induction false} JoinSplit(s: string)
    ensures Join(Split(s)) == s
  {
    if s != [] {
      var rest := Split(s[1..]);
      JoinSplit(s[1..]);
      if s[0] != Newline {
        if |rest| > 1 {
          assert Join(rest) == rest[0] + [Newline] + Join(rest[1..]);
          assert ([[s[0]] + rest[0]] + rest[1..])[1..] == rest[1..];
        }
      }
    }
  }

  /** A string without a newline splits into itself alone. */
  lemma {:induction false} SplitNoNewline(a: string)
    requires Newline !in a
    ensures Split(a) == [a]
  {
    if a != [] {
      SplitNoNewline(a[1..]);
      assert [a[0]] + a[1..] == a;
    }
  }

  /** A newline-free prefix followed by a newline splits off as one line. */
  lemma {:induction false} SplitAtNewline(a: string, b: string)
    requires Newline !in a
    ensures Split(a + [Newline] + b) == [a] + Split(b)
  {
    if a == [] {
      assert a + [Newline] + b == [Newline] + b;
      assert ([Newline] + b)[1..] == b;
    } else {
      assert (a + [Newline] + b)[0] == a[0] != Newline;
      assert (a + [Newline] + b)[1..] == a[1..] + [Newline] + b;
      SplitAtNewline(a[1..], b);
      assert [a[0]] + a[1..] == a;
    }
  }

  /** Splitting the joined lines gives back the lines, for any non-empty list of
      newline-free lines: `split` and `join` are inverse to each other. */
  lemma {:induction false} SplitJoin(lines: seq<string>)
    requires |lines| >= 1
    requires forall i :: 0 <= i < |lines| ==> Newline !in lines[i]
    ensures Split(Join(lines)) == lines
  {
    if |lines| == 1 {
      SplitNoNewline(lines[0]);
    } else {
      SplitAtNewline(lines[0], Join(lines[1..]));
      SplitJoin(lines[1..]);
    }
  }
}
