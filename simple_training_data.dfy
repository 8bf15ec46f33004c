/** The header reader of the census-income example: the column names are
    taken from the lines of the `adult.names` description file, and a final
    "class" column is added. The file is given as its lines, each with its
    line terminator, as iterating over a text file yields them. */
module SimpleTrainingData {
  import opened PyStr

  /** The name of the label column, always last. */
  const CLASS_COLUMN: string := "class"

  /** Comment lines (`|`), section lines (`>`) and blank lines name no column. */
  predicate Skipped(line: string)
  {
    StartsWith(line, "|") || StartsWith(line, ">") || StartsWith(line, "\n")
  }

  /** `line.split(":")[-1]`: what follows the last colon of the line. */
  function ColumnName(line: string): string
  {
    Last(Split(line, ':'))
  }

  /** The column names the lines contribute, in file order. */
  function ColumnNames(lines: seq<string>): (names: seq<string>)
    ensures |names| <= |lines|
  {
    if lines == [] then []
    else
      var line := lines[|lines| - 1];
      ColumnNames(lines[..|lines| - 1]) + (if Skipped(line) then [] else [ColumnName(line)])
  }

  /** `get_header()`, on the lines of the description file. */
  method GetHeader(lines: seq<string>) returns (header: seq<string>)
    ensures header == ColumnNames(lines) + [CLASS_COLUMN]
    ensures |header| >= 1 && header[|header| - 1] == CLASS_COLUMN
  {
    header := [];
    var i := 0;
    while i < |lines|
      invariant 0 <= i <= |lines|
      invariant header == ColumnNames(lines[..i])
    {
      var line := lines[i];
      assert lines[..i + 1][..i] == lines[..i];
      if StartsWith(line, "|") || StartsWith(line, ">") || StartsWith(line, "\n") {
        // the line names no column
      } else {
        header := header + [Last(Split(line, ':'))];
      }
      i := i + 1;
    }
    assert lines[..i] == lines;
    header := header + [CLASS_COLUMN];
  }

  /** A skipped line adds nothing and any other line adds exactly its column
      name; the names of a file split in two parts are those of the first
      part followed by those of the second, so kept lines stay in order. */
  lemma {:induction false} ColumnNamesInOrder(first: seq<string>, second: seq<string>)
    ensures ColumnNames(first + second) == ColumnNames(first) + ColumnNames(second)
    decreases |second|
  {
    if second == [] {
      assert first + second == first;
    } else {
      var init := second[..|second| - 1];
      assert (first + second)[..|first + second| - 1] == first + init;
      ColumnNamesInOrder(first, init);
    }
  }

  lemma ColumnNamesOfOneLine(line: string)
    ensures Skipped(line) ==> ColumnNames([line]) == []
    ensures !Skipped(line) ==> ColumnNames([line]) == [ColumnName(line)]
  {
    assert [line][..0] == [];
  }

  /** A file with no usable line yields just the label column. */
  lemma {:induction false} AllSkippedGivesClassOnly(lines: seq<string>)
    requires forall k :: 0 <= k < |lines| ==> Skipped(lines[k])
    ensures ColumnNames(lines) == []
  {
    if lines != [] {
      AllSkippedGivesClassOnly(lines[..|lines| - 1]);
    }
  }

  /** The positions among the first `n` lines that name a column. */
  function KeptLines(lines: seq<string>, n: nat): set<nat>
    requires n <= |lines|
  {
    set k: nat | k < n && !Skipped(lines[k])
  }

  /** Line `n - 1` joins the kept positions exactly when it is not skipped. */
  lemma KeptLinesNext(lines: seq<string>, n: nat)
    requires 0 < n <= |lines|
    ensures n - 1 !in KeptLines(lines, n - 1)
    ensures KeptLines(lines, n) == KeptLines(lines, n - 1) + (if Skipped(lines[n - 1]) then {} else {n - 1})
  {
    var now, before := KeptLines(lines, n), KeptLines(lines, n - 1);
    var last: set<nat> := if Skipped(lines[n - 1]) then {} else {n - 1};
    forall k | k in now ensures k in before + last {
      if k < n - 1 {
        assert k in before;
      }
    }
    forall k | k in before + last ensures k in now {
    }
  }

  /** The first `n` lines give one name per kept line. */
  lemma {:induction false} HeaderLengthUpTo(lines: seq<string>, n: nat)
    requires n <= |lines|
    ensures |ColumnNames(lines[..n])| == |KeptLines(lines, n)|
  {
    if n > 0 {
      HeaderLengthUpTo(lines, n - 1);
      KeptLinesNext(lines, n);
      assert lines[..n][..n - 1] == lines[..n - 1];
    }
  }

  /** The header has one name per kept line, plus the label column. */
  lemma HeaderLength(lines: seq<string>)
    ensures |ColumnNames(lines)| == |set k: nat | k < |lines| && !Skipped(lines[k])|
  {
    HeaderLengthUpTo(lines, |lines|);
    assert lines[..|lines|] == lines;
  }

  /** A column name is the text after the last colon of its line (the whole
      line when it has none), with the line terminator kept: a suffix of the
      line holding no colon. */
  lemma ColumnNameIsTextAfterLastColon(line: string)
    ensures var name := ColumnName(line);
      && |name| <= |line| && line[|line| - |name|..] == name
      && ':' !in name
      && (':' !in line ==> name == line)
      && (':' in line ==> |name| < |line| && line[|line| - |name| - 1] == ':')
  {
    SplitLast(line, ':');
  }
}
