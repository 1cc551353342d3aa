/**
 The statistics that the moon-data printer computes for one ASCII-art picture:
 how many lines it has, how many of them are not blank, how wide the widest
 line is and how many non-whitespace characters the fullest line holds.
 */
module AsciiStats {
  import opened StrOps

  /** The four figures reported for a picture. */
  datatype ArtStats = ArtStats(
    totalLines: nat,
    nonWhitespaceLines: nat,
    totalColumns: nat,
    nonWhitespaceColumns: nat)

  /** Python's `max(...)` over a non-empty sequence of naturals: an element of
      the sequence that no element exceeds. */
  function Maximum(xs: seq<nat>): (m: nat)
    requires |xs| > 0
    ensures forall i :: 0 <= i < |xs| ==> xs[i] <= m
    ensures exists i :: 0 <= i < |xs| && xs[i] == m
  {
    if |xs| == 1 then xs[0]
    else
      var m' := Maximum(xs[..|xs| - 1]);
      if m' < xs[|xs| - 1] then xs[|xs| - 1] else m'
  }

  /** `max(xs) if xs else 0`: the largest element, or 0 for no elements. */
  function MaxOrZero(xs: seq<nat>): (m: nat)
    ensures forall i :: 0 <= i < |xs| ==> xs[i] <= m
    ensures |xs| > 0 ==> exists i :: 0 <= i < |xs| && xs[i] == m
    ensures |xs| == 0 ==> m == 0
  {
    if |xs| > 0 then Maximum(xs) else 0
  }

  /** An upper bound of `xs` that is 0 or attained in `xs` is MaxOrZero(xs):
      this is what the running maximum, started at 0, ends up holding. */
  lemma MaxOrZeroUnique(xs: seq<nat>, m: nat)
    requires forall i :: 0 <= i < |xs| ==> xs[i] <= m
    requires m == 0 || exists i :: 0 <= i < |xs| && xs[i] == m
    ensures m == MaxOrZero(xs)
  {
  }

  /** `MaxOrZero(xs)` is 0 exactly when every element is 0. */
  lemma MaxOrZeroIsZeroIff(xs: seq<nat>)
    ensures MaxOrZero(xs) == 0 <==> forall i :: 0 <= i < |xs| ==> xs[i] == 0
  {
  }

  /** `len(line)` for each line. */
  function Widths(lines: seq<string>): (ws: seq<nat>)
    ensures |ws| == |lines|
    ensures forall i :: 0 <= i < |lines| ==> ws[i] == |lines[i]|
  {
    seq(|lines|, i requires 0 <= i < |lines| => |lines[i]|)
  }

  /** `[char for char in line if not char.isspace()]`: the non-whitespace
      characters of the line, in order. */
  function NonSpaceChars(line: string): (cs: string)
    ensures |cs| <= |line|
    ensures forall c :: c in cs ==> c in line && !IsSpace(c)
    ensures |cs| == 0 <==> !HasNonSpace(line)
  {
    if line == [] then []
    else
      var rest := NonSpaceChars(line[1..]);
      assert HasNonSpace(line) <==> !IsSpace(line[0]) || HasNonSpace(line[1..]) by {
        if HasNonSpace(line[1..]) {
          var i :| 0 <= i < |line[1..]| && !IsSpace(line[1..][i]);
          assert line[i + 1] == line[1..][i];
        }
        if HasNonSpace(line) && IsSpace(line[0]) {
          var i :| 0 <= i < |line| && !IsSpace(line[i]);
          assert line[1..][i - 1] == line[i];
        }
      }
      if IsSpace(line[0]) then rest else [line[0]] + rest
  }

  /** `len([char for char in line if not char.isspace()])`: the number of
      non-whitespace characters of the line. */
  function NonSpaceCount(line: string): (n: nat)
    ensures n <= |line|
    ensures n == 0 <==> !HasNonSpace(line)
  {
    |NonSpaceChars(line)|
  }

  /** The filter works character by character: filtering a concatenation
      filters each part and concatenates the results, in order. */
  lemma {:induction false} NonSpaceCharsAppend(a: string, b: string)
    ensures NonSpaceChars(a + b) == NonSpaceChars(a) + NonSpaceChars(b)
  {
    if a != [] {
      assert (a + b)[0] == a[0];
      assert (a + b)[1..] == a[1..] + b;
      NonSpaceCharsAppend(a[1..], b);
    } else {
      assert a + b == b;
    }
  }

  /** One character is kept exactly when it is not whitespace. */
  lemma NonSpaceCharsSingle(c: char)
    ensures NonSpaceChars([c]) == if IsSpace(c) then [] else [c]
  {
  }

  /** The positions of the non-whitespace characters of a line. */
  ghost function NonSpacePositions(line: string): set<nat>
  {
    set i: nat | i < |line| && !IsSpace(line[i])
  }

  /** The per-line figure counts exactly the non-whitespace characters, one
      for each position that holds one. */
  lemma {:induction false} NonSpaceCountIsNonSpacePositions(line: string)
    ensures NonSpaceCount(line) == |NonSpacePositions(line)|
  {
    if line != [] {
      var n := |line|;
      var before := NonSpacePositions(line[..n - 1]);
      NonSpaceCountIsNonSpacePositions(line[..n - 1]);
      NonSpaceCountSnoc(line);
      NonSpacePositionsSnoc(line);
      if !IsSpace(line[n - 1]) {
        assert |before + {n - 1}| == |before| + 1;
      }
    }
  }

  /** A further character adds one to the count exactly when it is not
      whitespace. */
  lemma NonSpaceCountSnoc(line: string)
    requires |line| > 0
    ensures var n := |line|;
      NonSpaceCount(line) == NonSpaceCount(line[..n - 1]) + (if IsSpace(line[n - 1]) then 0 else 1)
  {
    var n := |line|;
    assert line[..n - 1] + [line[n - 1]] == line;
    NonSpaceCharsAppend(line[..n - 1], [line[n - 1]]);
    NonSpaceCharsSingle(line[n - 1]);
  }

  /** A further character adds its position to the non-whitespace positions
      exactly when it is not whitespace. */
  lemma NonSpacePositionsSnoc(line: string)
    requires |line| > 0
    ensures var n := |line|;
      && NonSpacePositions(line)
         == NonSpacePositions(line[..n - 1]) + (if IsSpace(line[n - 1]) then {} else {n - 1})
      && n - 1 !in NonSpacePositions(line[..n - 1])
  {
  }

  /** The non-whitespace count of each line. */
  function NonSpaceCounts(lines: seq<string>): (ns: seq<nat>)
    ensures |ns| == |lines|
    ensures forall i :: 0 <= i < |lines| ==> ns[i] == NonSpaceCount(lines[i])
  {
    seq(|lines|, i requires 0 <= i < |lines| => NonSpaceCount(lines[i]))
  }

  /** `sum(1 for line in lines if line.strip() != '')`, summed from the first
      line to the last. */
  function CountNonBlank(lines: seq<string>): (n: nat)
    ensures n <= |lines|
  {
    if lines == [] then 0
    else CountNonBlank(lines[..|lines| - 1]) + (if Strip(lines[|lines| - 1]) != [] then 1 else 0)
  }

  /** The positions of the lines that hold a non-whitespace character. */
  ghost function NonBlankIndices(lines: seq<string>): set<nat>
  {
    set i: nat | i < |lines| && HasNonSpace(lines[i])
  }

  /** A line is counted as non-blank if and only if it holds a non-whitespace
      character: the count is the number of such lines. */
  lemma {:induction false} CountNonBlankIsNonBlankLines(lines: seq<string>)
    ensures CountNonBlank(lines) == |NonBlankIndices(lines)|
  {
    if lines != [] {
      var n := |lines|;
      var init, last := lines[..n - 1], lines[n - 1];
      var before := NonBlankIndices(init);
      CountNonBlankIsNonBlankLines(init);
      NonBlankIndicesSnoc(lines);
      StripNonEmptyIff(last);
      if HasNonSpace(last) {
        assert |before + {n - 1}| == |before| + 1;
      }
    }
  }

  /** Adding a last line adds its position to the non-blank positions exactly
      when it is non-blank. */
  lemma NonBlankIndicesSnoc(lines: seq<string>)
    requires |lines| > 0
    ensures var n := |lines|;
      && NonBlankIndices(lines)
         == NonBlankIndices(lines[..n - 1]) + (if HasNonSpace(lines[n - 1]) then {n - 1} else {})
      && n - 1 !in NonBlankIndices(lines[..n - 1])
  {
  }

  /** `max(len(line) for line in lines) if lines else 0`: the width of the
      widest line, at least the length of every line and equal to the length
      of one of them; 0 when there are no lines. */
  function MaxWidth(lines: seq<string>): (w: nat)
    ensures forall i :: 0 <= i < |lines| ==> |lines[i]| <= w
    ensures |lines| > 0 ==> exists i :: 0 <= i < |lines| && |lines[i]| == w
    ensures |lines| == 0 ==> w == 0
  {
    var ws := Widths(lines);
    if |lines| > 0 then
      var m := Maximum(ws);
      var j :| 0 <= j < |ws| && ws[j] == m;
      assert |lines[j]| == m;
      m
    else
      0
  }

  /** Of a non-empty list of lines, no line is wider than the widest-line
      figure and some line is as wide. This is `MaxWidth`'s own contract with
      the figure passed in as `w`: lemmas about `Analysis` call it with the
      figure as a plain value, which keeps the solver from unfolding the whole
      of `Analysis` while it searches for the widest line. */
  lemma WidestLineAttained(lines: seq<string>, w: nat)
    requires |lines| > 0 && w == MaxWidth(lines)
    ensures forall i :: 0 <= i < |lines| ==> |lines[i]| <= w
    ensures exists i :: 0 <= i < |lines| && |lines[i]| == w
  {
  }

  /** What `analyze_ascii_art` returns for `text`, as one value. There is
      always at least one line, one more than there are newlines. */
  function Analysis(text: string): (stats: ArtStats)
    ensures stats.totalLines == Occurrences(text, Newline) + 1 >= 1
  {
    var lines := Split(text);
    ArtStats(|lines|, CountNonBlank(lines), MaxWidth(lines), MaxOrZero(NonSpaceCounts(lines)))
  }

  /** The loop of `analyze_ascii_art` over the lines: a running maximum of the
      non-whitespace counts that starts from 0. It ends as the largest count,
      which no line exceeds and which some line attains, or 0 for no lines. */
  method MaxNonWhitespaceColumns(lines: seq<string>) returns (maxCols: nat)
    ensures forall i :: 0 <= i < |lines| ==> NonSpaceCount(lines[i]) <= maxCols
    ensures |lines| > 0 ==> exists i :: 0 <= i < |lines| && NonSpaceCount(lines[i]) == maxCols
    ensures maxCols == MaxOrZero(NonSpaceCounts(lines))
  {
    maxCols := 0;
    for k := 0 to |lines|
      invariant forall i :: 0 <= i < k ==> NonSpaceCount(lines[i]) <= maxCols
      invariant maxCols == 0 || exists i :: 0 <= i < k && NonSpaceCount(lines[i]) == maxCols
    {
      var nonWsChars := NonSpaceCount(lines[k]);
      if maxCols < nonWsChars {
        maxCols := nonWsChars;
      }
    }
    if |lines| > 0 && maxCols == 0 {
      assert NonSpaceCount(lines[0]) == maxCols;
    }
    MaxOrZeroUnique(NonSpaceCounts(lines), maxCols);
  }

  /** `analyze_ascii_art`: splits the text into lines and computes the four
      figures, three of them from `len`, `sum` and `max` and the last by the
      loop above. */
  method AnalyzeAsciiArt(text: string) returns (stats: ArtStats)
    ensures stats == Analysis(text)
  {
    var lines := Split(text);
    var totalLines := |lines|;
    var nonWhitespaceLines := CountNonBlank(lines);
    var maxWidth := MaxWidth(lines);
    var maxNonWhitespaceCols := MaxNonWhitespaceColumns(lines);
    stats := ArtStats(totalLines, nonWhitespaceLines, maxWidth, maxNonWhitespaceCols);
  }

  /** The non-blank lines are exactly the lines with a non-whitespace
      character, and there are no more of them than lines. */
  lemma NonWhitespaceLinesCounted(text: string)
    ensures Analysis(text).nonWhitespaceLines == |NonBlankIndices(Split(text))|
    ensures Analysis(text).nonWhitespaceLines <= Analysis(text).totalLines
  {
    CountNonBlankIsNonBlankLines(Split(text));
  }

  /** The widest-line figure is the length of one of the lines and no line is
      longer: the `else 0` branch is never taken, since there is always a line. */
  lemma TotalColumnsIsWidestLine(text: string)
    ensures forall i :: 0 <= i < |Split(text)| ==> |Split(text)[i]| <= Analysis(text).totalColumns
    ensures exists i :: 0 <= i < |Split(text)| && |Split(text)[i]| == Analysis(text).totalColumns
  {
    WidestLineAttained(Split(text), Analysis(text).totalColumns);
  }

  /** No line has more non-whitespace characters than the widest line has
      characters. */
  lemma NonWhitespaceColumnsAtMostColumns(text: string)
    ensures Analysis(text).nonWhitespaceColumns <= Analysis(text).totalColumns
  {
  }

  /** The fullest line is empty of non-whitespace characters exactly when
      every line is blank. */
  lemma NonWhitespaceColumnsZeroIff(text: string)
    ensures Analysis(text).nonWhitespaceColumns == 0 <==> Analysis(text).nonWhitespaceLines == 0
  {
    var lines := Split(text);
    MaxOrZeroIsZeroIff(NonSpaceCounts(lines));
    CountNonBlankIsNonBlankLines(lines);
    if NonBlankIndices(lines) != {} {
      var i :| i in NonBlankIndices(lines);
      assert NonSpaceCounts(lines)[i] != 0;
    } else {
      forall i | 0 <= i < |lines| ensures NonSpaceCounts(lines)[i] == 0 {
        assert i !in NonBlankIndices(lines);
      }
    }
  }

  /** The empty picture is one empty line. */
  lemma EmptyTextStats()
    ensures Analysis([]) == ArtStats(1, 0, 0, 0)
  {
  }

  /** A picture of nothing but whitespace and newlines has no non-blank line
      and no non-whitespace column. */
  lemma {:induction false} BlankTextStats(text: string)
    requires AllSpace(text)
    ensures Analysis(text).nonWhitespaceLines == 0
    ensures Analysis(text).nonWhitespaceColumns == 0
  {
    var lines := Split(text);
    JoinSplit(text);
    forall i | 0 <= i < |lines| ensures !HasNonSpace(lines[i]) {
      JoinedLineAllSpace(lines, i);
    }
    assert NonBlankIndices(lines) == {};
    NonWhitespaceColumnsZeroIff(text);
    NonWhitespaceLinesCounted(text);
  }

  /** Every line of an all-whitespace join is all whitespace. */
  lemma {:induction false} JoinedLineAllSpace(lines: seq<string>, i: nat)
    requires i < |lines|
    requires AllSpace(Join(lines))
    ensures AllSpace(lines[i])
  {
    if |lines| > 1 {
      var j := Join(lines[1..]);
      assert Join(lines) == lines[0] + [Newline] + j;
      if i == 0 {
        forall k | 0 <= k < |lines[0]| ensures IsSpace(lines[0][k]) {
          assert Join(lines)[k] == lines[0][k];
        }
      } else {
        forall k | 0 <= k < |j| ensures IsSpace(j[k]) {
          assert Join(lines)[|lines[0]| + 1 + k] == j[k];
        }
        JoinedLineAllSpace(lines[1..], i - 1);
      }
    }
  }
}
