/** The line analysis of `Model::readConfig` in src/data.hpp. For every
    non-empty line of the configuration file it reports the indentation
    (the number of leading spaces), whether the line is a list item (its
    first non-space character is a dash) and the name of the block the line
    belongs to (the last line ending in a colon, without the colon). */
module ConfigReader {
  import opened Wrappers

  /** What `readConfig` prints for one non-empty line. */
  datatype LineReport = LineReport(spaceCount: int, isDash: bool, block: string, line: string)

  /** The number of spaces the line starts with. */
  function LeadingSpaces(line: string): (n: nat)
    ensures n <= |line|
    ensures forall i :: 0 <= i < n ==> line[i] == ' '
    ensures n == |line| || line[n] != ' '
    decreases |line|
  {
    if |line| > 0 && line[0] == ' ' then 1 + LeadingSpaces(line[1..]) else 0
  }

  /** The character after the leading spaces exists and is a dash. */
  predicate IsDash(line: string) {
    var n := LeadingSpaces(line);
    n < |line| && line[n] == '-'
  }

  /** A line ending in a colon opens a block. */
  predicate IsHeader(line: string) {
    |line| > 0 && line[|line| - 1] == ':'
  }

  /** The current block once `line` has been read: its name if it is a
      header, the previous block otherwise. */
  function BlockAfter(line: string, block: string): (b: string)
    ensures IsHeader(line) ==> b + [':'] == line
    ensures !IsHeader(line) ==> b == block
  {
    if IsHeader(line) then line[..|line| - 1] else block
  }

  function Describe(line: string, block: string): LineReport {
    LineReport(LeadingSpaces(line), IsDash(line), block, line)
  }

  /** Any count of leading spaces that stops at a non-space or at the end is the count. */
  lemma LeadingSpacesUnique(line: string, n: int)
    requires 0 <= n <= |line|
    requires forall i :: 0 <= i < n ==> line[i] == ' '
    requires n == |line| || line[n] != ' '
    ensures n == LeadingSpaces(line)
  {
  }

  /** `is_dash` holds exactly when the first character that is not a space is a dash. */
  lemma IsDashMeansFirstNonSpaceIsDash(line: string)
    ensures IsDash(line) <==>
      exists i :: 0 <= i < |line| && line[i] == '-' && forall j :: 0 <= j < i ==> line[j] == ' '
  {
    var n := LeadingSpaces(line);
    if IsDash(line) {
      assert line[n] == '-';
    }
    if i :| 0 <= i < |line| && line[i] == '-' && forall j :: 0 <= j < i ==> line[j] == ' ' {
      LeadingSpacesUnique(line, i);
    }
  }

  /** The analysis of one line: an empty line is skipped; otherwise the
      block is updated first, then the leading spaces are counted. */
  method AnalyseLine(line: string, block: string) returns (report: Option<LineReport>, newBlock: string)
    ensures |line| == 0 ==> report == None && newBlock == block
    ensures |line| > 0 ==> newBlock == BlockAfter(line, block)
    ensures |line| > 0 ==> report == Some(Describe(line, newBlock))
  {
    newBlock := block;
    report := None;
    if |line| > 0 {
      if line[|line| - 1] == ':' {
        newBlock := line[..|line| - 1];
      }
      var spaceCount := 0;
      while spaceCount < |line| && line[spaceCount] == ' '
        invariant 0 <= spaceCount <= |line|
        invariant forall i :: 0 <= i < spaceCount ==> line[i] == ' '
      {
        spaceCount := spaceCount + 1;
      }
      LeadingSpacesUnique(line, spaceCount);
      var isDash := spaceCount < |line| && line[spaceCount] == '-';
      report := Some(LineReport(spaceCount, isDash, newBlock, line));
    }
  }

  /** What `readConfig` prints for the lines `lines` when the current block is `block`. */
  function Reports(lines: seq<string>, block: string): seq<LineReport>
    decreases |lines|
  {
    if |lines| == 0 then []
    else
      var b := BlockAfter(lines[0], block);
      (if |lines[0]| > 0 then [Describe(lines[0], b)] else []) + Reports(lines[1..], b)
  }

  /** The current block once all of `lines` have been read. */
  function FinalBlock(lines: seq<string>, block: string): string
    decreases |lines|
  {
    if |lines| == 0 then block else FinalBlock(lines[1..], BlockAfter(lines[0], block))
  }

  /** The name of the last header among `lines`, or `block` if there is none. */
  function LastHeader(lines: seq<string>, block: string): string
    decreases |lines|
  {
    if |lines| == 0 then block
    else if IsHeader(lines[|lines| - 1]) then BlockAfter(lines[|lines| - 1], block)
    else LastHeader(lines[..|lines| - 1], block)
  }

  /** The non-empty lines of `lines`, in order. */
  function NonEmpty(lines: seq<string>): seq<string>
    decreases |lines|
  {
    if |lines| == 0 then [] else (if |lines[0]| > 0 then [lines[0]] else []) + NonEmpty(lines[1..])
  }

  /** The lines the reports describe, in order. */
  function ReportedLines(reports: seq<LineReport>): seq<string>
    decreases |reports|
  {
    if |reports| == 0 then [] else [reports[0].line] + ReportedLines(reports[1..])
  }

  lemma {:induction false} ReportedLinesAppend(r: seq<LineReport>, s: seq<LineReport>)
    ensures ReportedLines(r + s) == ReportedLines(r) + ReportedLines(s)
    decreases |r|
  {
    if |r| > 0 {
      assert (r + s)[0] == r[0];
      assert (r + s)[1..] == r[1..] + s;
      ReportedLinesAppend(r[1..], s);
    } else {
      assert r + s == s;
    }
  }

  /** Exactly the non-empty lines are reported, each once and in file order,
      each with its indentation and its dash flag. */
  lemma {:induction false} ReportsCoverNonEmptyLines(lines: seq<string>, block: string)
    ensures ReportedLines(Reports(lines, block)) == NonEmpty(lines)
    ensures forall r :: r in Reports(lines, block) ==>
      |r.line| > 0 && r.spaceCount == LeadingSpaces(r.line) && r.isDash == IsDash(r.line)
    decreases |lines|
  {
    if |lines| > 0 {
      var b := BlockAfter(lines[0], block);
      var head: seq<LineReport> := if |lines[0]| > 0 then [Describe(lines[0], b)] else [];
      ReportsCoverNonEmptyLines(lines[1..], b);
      ReportedLinesAppend(head, Reports(lines[1..], b));
      assert ReportedLines(head) == (if |lines[0]| > 0 then [lines[0]] else []);
    }
  }

  /** Reading one more line: the current block becomes its name if it is a header. */
  lemma {:induction false} FinalBlockAppend(lines: seq<string>, line: string, block: string)
    ensures FinalBlock(lines + [line], block) == BlockAfter(line, FinalBlock(lines, block))
    decreases |lines|
  {
    if |lines| > 0 {
      assert (lines + [line])[1..] == lines[1..] + [line];
      FinalBlockAppend(lines[1..], line, BlockAfter(lines[0], block));
    }
  }

  /** The last header wins: the block after reading `lines` is the name of
      the last header among them, or the initial block if there is none. */
  lemma {:induction false} FinalBlockIsLastHeader(lines: seq<string>, block: string)
    ensures FinalBlock(lines, block) == LastHeader(lines, block)
    decreases |lines|
  {
    if |lines| > 0 {
      var init := lines[..|lines| - 1];
      var last := lines[|lines| - 1];
      assert lines == init + [last];
      FinalBlockAppend(init, last, block);
      FinalBlockIsLastHeader(init, block);
    }
  }

  /** Reading one more line appends its report, if any, after the earlier ones. */
  lemma {:induction false} ReportsAppend(lines: seq<string>, line: string, block: string)
    ensures Reports(lines + [line], block) ==
      Reports(lines, block) + (if |line| > 0 then [Describe(line, BlockAfter(line, FinalBlock(lines, block)))] else [])
    decreases |lines|
  {
    if |lines| > 0 {
      var b := BlockAfter(lines[0], block);
      assert (lines + [line])[1..] == lines[1..] + [line];
      ReportsAppend(lines[1..], line, b);
    }
  }

  /** Every report names as its block the last header up to and including
      its own line, so a header line reports its own name. */
  lemma ReportOfNextLine(lines: seq<string>, line: string, block: string)
    requires |line| > 0
    ensures Reports(lines + [line], block) == Reports(lines, block) + [Describe(line, LastHeader(lines + [line], block))]
  {
    ReportsAppend(lines, line, block);
    FinalBlockAppend(lines, line, block);
    FinalBlockIsLastHeader(lines + [line], block);
  }

  /** `readConfig`: `None` when the file cannot be opened, which prints
      nothing more than an error; otherwise its lines, analysed one by one
      starting with an empty block. */
  method ReadConfig(file: Option<seq<string>>) returns (out: seq<LineReport>)
    ensures file.None? ==> out == []
    ensures file.Some? ==> out == Reports(file.value, "")
  {
    out := [];
    if file.Some? {
      var lines := file.value;
      var block := "";
      var i := 0;
      while i < |lines|
        invariant 0 <= i <= |lines|
        invariant out == Reports(lines[..i], "") && block == FinalBlock(lines[..i], "")
      {
        var report, next := AnalyseLine(lines[i], block);
        ghost var prefix := lines[..i];
        assert lines[..i + 1] == prefix + [lines[i]];
        ReportsAppend(prefix, lines[i], "");
        FinalBlockAppend(prefix, lines[i], "");
        if report.Some? {
          out := out + [report.value];
        }
        block := next;
        i := i + 1;
      }
      assert lines[..i] == lines;
    }
  }
}
