# ASCII-art statistics of the moon-data printer

The moon-data printer of *ascii-side-of-the-moon* shows every pre-rendered
moon picture of the texture catalogue together with four figures computed by
`analyze_ascii_art`:

- `total_lines`: the number of lines after splitting the picture on `'\n'`;
- `non_whitespace_lines`: the number of lines with at least one
  non-whitespace character (`line.strip() != ''`);
- `total_columns`: the length of the widest line (`max(...) if lines else 0`);
- `non_whitespace_columns`: the largest number of non-whitespace characters in
  one line, kept as a running maximum that starts at 0.

This project models that function and proves what its figures mean.

- `strops.dfy`, module `StrOps`: the Python string operations the function
  relies on. `IsSpace` is Python's `str.isspace` on one character, written out
  as the table of whitespace code points (U+0009 to U+000D, U+001C to U+001F,
  U+0020, U+0085, U+00A0, U+1680, U+2000 to U+200A, U+2028, U+2029, U+202F,
  U+205F, U+3000); `str.strip` uses the same test. `Strip` is
  `str.strip()`, built from `StripLeading` and `StripTrailing`. `Split` is
  `str.split('\n')` and `Join` is `'\n'.join`. The two are proved inverse to
  each other.
- `asciistats.dfy`, module `AsciiStats`: the `ArtStats` datatype (the
  dictionary the function returns), pure functions for the three figures that
  come from `len`, `sum` and `max` over generator expressions, the method
  `MaxNonWhitespaceColumns` for the accumulator loop (with its loop
  invariants), the method `AnalyzeAsciiArt` for the whole function, the
  specification function `Analysis`, and lemmas about `Analysis`.

Strings are `seq<char>` over Unicode scalar values. Integers are unbounded,
like Python's.

## Model

| member | source | states |
|---|---|---|
| StrOps.IsSpace | scripts/printer.py:48 | `char.isspace()`, the test `strip()` uses too: true exactly for U+0009 to U+000D, U+001C to U+001F, U+0020, U+0085, U+00A0, U+1680, U+2000 to U+200A, U+2028, U+2029, U+202F, U+205F and U+3000 |
| StrOps.Strip | scripts/printer.py:39 | `line.strip()` is a slice of the line with only whitespace before and after it, and a non-empty result starts and ends with a non-space |
| StrOps.StripLeading | scripts/printer.py:39 | the result is a suffix of the line, the dropped prefix is all whitespace, and a non-empty result starts with a non-space |
| StrOps.StripTrailing | scripts/printer.py:39 | the result is a prefix of the line, the dropped suffix is all whitespace, and a non-empty result ends with a non-space |
| StrOps.StripNonEmptyIff | scripts/printer.py:37-39 | `line.strip() != ''` holds if and only if the line has a character that is not whitespace |
| StrOps.Split | scripts/printer.py:32 | `split('\n')` returns exactly one line more than the text has newlines, so never an empty list |
| StrOps.SplitLinesHaveNoNewline | scripts/printer.py:32 | no line produced by the split contains `'\n'` |
| StrOps.JoinSplit | scripts/printer.py:32 | joining the split lines with `'\n'` gives back the text |
| StrOps.SplitJoin | scripts/printer.py:32 | splitting the join of any non-empty list of newline-free lines gives back that list |
| StrOps.SplitNoNewline | scripts/printer.py:32 | a text without a newline splits into itself as the only line |
| StrOps.SplitAtNewline | scripts/printer.py:32 | a newline-free prefix followed by a newline splits off as the first line |
| AsciiStats.Maximum | scripts/printer.py:42 | Python's `max` over a non-empty sequence: no element exceeds the result and some element equals it |
| AsciiStats.MaxOrZero | scripts/printer.py:42 | `max(xs) if xs else 0`: no element exceeds the result, some element equals it when there is one, and it is 0 for no elements |
| AsciiStats.MaxOrZeroUnique | scripts/printer.py:45-49 | a value that bounds every element and is 0 or attained is exactly `max(xs) if xs else 0` |
| AsciiStats.MaxOrZeroIsZeroIff | scripts/printer.py:42 | `max(xs) if xs else 0` is 0 if and only if every element is 0 |
| AsciiStats.NonSpaceChars | scripts/printer.py:48 | the list comprehension keeps only non-whitespace characters of the line, is no longer than the line, and is empty if and only if the line has no non-whitespace character |
| AsciiStats.NonSpaceCount | scripts/printer.py:48 | a line's non-whitespace count is at most its length and is 0 if and only if it has no non-whitespace character |
| AsciiStats.NonSpaceCharsAppend | scripts/printer.py:48 | the list comprehension over a concatenation is the concatenation of the comprehensions over the parts, in order |
| AsciiStats.NonSpaceCharsSingle | scripts/printer.py:48 | a single character is kept exactly when it is not whitespace |
| AsciiStats.NonSpaceCountIsNonSpacePositions | scripts/printer.py:48 | a line's non-whitespace count equals the number of its positions holding a non-whitespace character |
| AsciiStats.NonSpaceCountSnoc | scripts/printer.py:48 | a further character adds one to the count exactly when it is not whitespace |
| AsciiStats.NonSpacePositionsSnoc | scripts/printer.py:48 | a further character adds its position to the non-whitespace positions exactly when it is not whitespace |
| AsciiStats.CountNonBlank | scripts/printer.py:39 | the `sum(1 for ...)` count is at most the number of lines |
| AsciiStats.CountNonBlankIsNonBlankLines | scripts/printer.py:37-39 | the count equals the number of positions whose line has a non-whitespace character, so a line counts if and only if it has one |
| AsciiStats.NonBlankIndicesSnoc | scripts/printer.py:39 | a further line adds its position to the non-blank positions exactly when it has a non-whitespace character |
| AsciiStats.MaxWidth | scripts/printer.py:42 | the widest-line figure bounds every line's length, equals the length of some line when there is one, and is 0 for no lines |
| AsciiStats.WidestLineAttained | scripts/printer.py:42 | for a non-empty list of lines the widest-line figure is attained and never exceeded |
| AsciiStats.MaxNonWhitespaceColumns | scripts/printer.py:45-49 | the loop's running maximum, started at 0, ends bounding every line's non-whitespace count, equal to some line's count when there are lines, and equal to `max(counts) if counts else 0` |
| AsciiStats.Analysis | scripts/printer.py:32-56 | the four figures of the returned dictionary (the `ArtStats` datatype) for a text; `total_lines` is one more than the number of newlines, so at least 1 |
| AsciiStats.AnalyzeAsciiArt | scripts/printer.py:30-56 | the four figures returned are those of the specification `Analysis` of the text |
| AsciiStats.NonWhitespaceLinesCounted | scripts/printer.py:37-39 | `non_whitespace_lines` is the number of lines with a non-whitespace character and at most `total_lines` |
| AsciiStats.TotalColumnsIsWidestLine | scripts/printer.py:41-42 | `total_columns` bounds every line's length and equals the length of one line, so the `else 0` branch is never taken |
| AsciiStats.NonWhitespaceColumnsAtMostColumns | scripts/printer.py:44-49 | `non_whitespace_columns <= total_columns` |
| AsciiStats.NonWhitespaceColumnsZeroIff | scripts/printer.py:37-49 | `non_whitespace_columns == 0` if and only if `non_whitespace_lines == 0` |
| AsciiStats.EmptyTextStats | scripts/printer.py:30-56 | the empty text gives one line and all other figures 0 |
| AsciiStats.BlankTextStats | scripts/printer.py:30-56 | a text of only whitespace and newlines gives 0 non-whitespace lines and 0 non-whitespace columns |
| AsciiStats.JoinedLineAllSpace | scripts/printer.py:32 | every line of a list whose join is all whitespace is itself all whitespace |

## Left out

- `load_moon_data` (scripts/printer.py:10-28): file-system paths, file reading, JSON decoding and its exception handling are I/O.
- `print_moon_info` and `main` (scripts/printer.py:58-94): console output and floating-point formatting.
- scripts/clusters.py: CSV reading, pandas, numpy and scikit-learn clustering over floating-point data; foreign library calls.
- scripts/png2ascii.py: runs the external `chafa` program and writes JSON; a foreign process and file I/O.
- The renderer module that produces the moon pictures is not part of this model.
- Lone surrogates: a Python `str` can hold the code points U+D800 to U+DFFF (for example after `json.load` of `"\ud800"`), but a Dafny `char` is a Unicode scalar value and cannot; pictures holding them are outside the model.
- The result is a datatype with named fields rather than a Python dictionary with string keys.
- Unicode versions: the whitespace table of `IsSpace` is the one of current CPython releases; a Python built on another Unicode version may differ, and the model does not follow such changes.
