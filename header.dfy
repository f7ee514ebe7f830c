/**
 * Header-line detection in `try_parse_csv` (main.py:15-24). An export may
 * start with a preamble of `#` comment lines or other text; the CSV reader is
 * started at the first line that is not a comment and contains a comma.
 *
 * Decoding the upload as UTF-8 and splitting it into lines is a partial step
 * whose result is given as `decoded` (None when decoding raised). The CSV
 * reader is the parameter `readCsv`, fed the lines it is to read and giving
 * None when it raised; the bare `except` turns every such failure into None.
 */
module HeaderDetection {
  import opened Wrappers
  import opened Text

  /** `line.startswith("#")`: the line is not empty and its first character is `#`. */
  predicate IsComment(line: string)
    ensures IsComment(line) <==> |line| > 0 && line[0] == '#'
  {
    StartsWith(line, "#")
  }

  /** The test of the generator expression: not a comment, and holds a comma. */
  predicate IsHeader(line: string)
    ensures IsHeader(line) <==>
      (line == [] || line[0] != '#') && exists k :: 0 <= k < |line| && line[k] == ','
  {
    !IsComment(line) && ',' in line
  }

  predicate NoHeader(lines: seq<string>)
  {
    forall j :: 0 <= j < |lines| ==> !IsHeader(lines[j])
  }

  /**
   * `next((i for i, line in enumerate(lines) if ...), None)`: the least index
   * of a header line, or None when there is none.
   */
  function FindHeader(lines: seq<string>): (r: Option<nat>)
    ensures r.None? <==> NoHeader(lines)
    ensures r.Some? ==> r.value < |lines| && IsHeader(lines[r.value]) && NoHeader(lines[..r.value])
  {
    if lines == [] then None
    else if IsHeader(lines[0]) then Some(0)
    else match FindHeader(lines[1..])
      case None => None
      case Some(i) =>
        assert lines[1..][..i] == lines[1..i + 1];
        Some(i + 1)
  }

  /**
   * The lines the CSV reader is given by `skiprows=header_line_index`: the
   * suffix of `lines` that starts at the header line. It is the only suffix
   * whose first line is a header and whose skipped prefix holds no header.
   */
  function CsvLines(lines: seq<string>): (r: Option<seq<string>>)
    ensures r.None? <==> NoHeader(lines)
    ensures r.Some? ==>
      && 0 < |r.value| <= |lines|
      && r.value == lines[|lines| - |r.value|..]
      && IsHeader(r.value[0])
      && NoHeader(lines[..|lines| - |r.value|])
  {
    match FindHeader(lines)
    case None => None
    case Some(i) => Some(lines[i..])
  }

  /** The whole of `try_parse_csv`. */
  function TryParseCsv<T>(decoded: Option<seq<string>>, readCsv: seq<string> -> Option<T>): (r: Option<T>)
    ensures decoded.None? ==> r.None?
    ensures decoded.Some? && NoHeader(decoded.value) ==> r.None?
    ensures r.Some? ==> decoded.Some? && !NoHeader(decoded.value)
    ensures decoded.Some? && !NoHeader(decoded.value) ==>
      r == readCsv(decoded.value[FindHeader(decoded.value).value..])
  {
    match decoded
    case None => None
    case Some(lines) =>
      match CsvLines(lines)
      case None => None
      case Some(text) =>
        readCsv(text)
  }

  /** The header index after `k` more lines have been put in front. */
  function Shift(index: Option<nat>, k: nat): (r: Option<nat>)
    ensures r.None? <==> index.None?
    ensures r.Some? ==> r.value == index.value + k
  {
    match index
    case None => None
    case Some(i) => Some(i + k)
  }

  /**
   * Lines in front of the file that are not header lines, such as `#`
   * comments, move the detected header index by their number.
   */
  lemma {:induction false} PrependNonHeaderLines(pre: seq<string>, lines: seq<string>)
    requires NoHeader(pre)
    ensures FindHeader(pre + lines) == Shift(FindHeader(lines), |pre|)
  {
    if pre == [] {
      assert pre + lines == lines;
    } else {
      var all := pre + lines;
      assert all[1..] == pre[1..] + lines;
      assert !IsHeader(all[0]);
      assert FindHeader(all) == Shift(FindHeader(all[1..]), 1);
      PrependNonHeaderLines(pre[1..], lines);
    }
  }

  /** ... and do not change what the CSV reader is given. */
  lemma PrependNonHeaderLinesKeepsCsvLines(pre: seq<string>, lines: seq<string>)
    requires NoHeader(pre)
    ensures CsvLines(pre + lines) == CsvLines(lines)
  {
    PrependNonHeaderLines(pre, lines);
    if FindHeader(lines).Some? {
      var i := FindHeader(lines).value;
      assert (pre + lines)[i + |pre|..] == lines[i..];
    }
  }

  /** Prepending `k` comment lines shifts the header index by exactly `k`. */
  lemma PrependComments(comments: seq<string>, lines: seq<string>)
    requires forall j :: 0 <= j < |comments| ==> IsComment(comments[j])
    ensures FindHeader(lines).Some? ==> FindHeader(comments + lines) == Some(FindHeader(lines).value + |comments|)
    ensures FindHeader(lines).None? ==> FindHeader(comments + lines).None?
    ensures CsvLines(comments + lines) == CsvLines(lines)
  {
    PrependNonHeaderLines(comments, lines);
    PrependNonHeaderLinesKeepsCsvLines(comments, lines);
  }

  /** The lines handed to the reader start with their header: skipping again skips nothing. */
  lemma CsvLinesIdempotent(lines: seq<string>)
    requires CsvLines(lines).Some?
    ensures CsvLines(CsvLines(lines).value) == CsvLines(lines)
    ensures FindHeader(CsvLines(lines).value) == Some(0)
  {
  }

  /** The whole parse ignores a comment preamble. */
  lemma TryParseCsvIgnoresComments<T>(comments: seq<string>, lines: seq<string>, readCsv: seq<string> -> Option<T>)
    requires forall j :: 0 <= j < |comments| ==> IsComment(comments[j])
    ensures TryParseCsv(Some(comments + lines), readCsv) == TryParseCsv(Some(lines), readCsv)
  {
    PrependComments(comments, lines);
  }
}
