/**
 * What happens to an upload (main.py:57-67), without the page rendering: the
 * file is parsed, its columns normalised and its report type identified.
 * The outcome is one of the three branches the page shows: the file could
 * not be parsed (main.py:93-94), its format is unsupported (main.py:64-65),
 * or the report type was detected and the table is shown (main.py:66-68).
 */
module Upload {
  import opened Wrappers
  import opened HeaderDetection
  import opened Columns
  import opened ReportTypes

  datatype Outcome<V> =
    | Unparsed
    | Unsupported
    | Detected(kind: ReportType, table: seq<Column<V>>)

  function Analyse<V>(decoded: Option<seq<string>>, readCsv: seq<string> -> Option<seq<Column<V>>>): (r: Outcome<V>)
    ensures r.Unparsed? <==> TryParseCsv(decoded, readCsv).None?
    ensures r.Unsupported? <==>
      var parsed := TryParseCsv(decoded, readCsv);
      parsed.Some? && !IsGA4(NormaliseNames(Names(parsed.value))) && !IsGSC(NormaliseNames(Names(parsed.value)))
    ensures r.Detected? <==>
      var parsed := TryParseCsv(decoded, readCsv);
      parsed.Some? && (IsGA4(NormaliseNames(Names(parsed.value))) || IsGSC(NormaliseNames(Names(parsed.value))))
    ensures r.Detected? ==>
      && TryParseCsv(decoded, readCsv).Some?
      && r.table == NormaliseTable(TryParseCsv(decoded, readCsv).value)
      && r.kind == IdentifyReportType(Names(r.table))
      && r.kind != Unknown
      && forall i :: 0 <= i < |r.table| ==> IsNormalName(r.table[i].name)
  {
    match TryParseCsv(decoded, readCsv)
    case None => Unparsed
    case Some(parsed) =>
      var table := NormaliseTable(parsed);
      var kind := IdentifyReportType(Names(table));
      if kind == Unknown then Unsupported else Detected(kind, table)
  }

  /**
   * A detected report is GA4 or GSC, its table has been normalised, and the
   * kind is the one its normalised column names carry.
   */
  lemma DetectedIsNormalised<V>(decoded: Option<seq<string>>, readCsv: seq<string> -> Option<seq<Column<V>>>)
    ensures var out := Analyse(decoded, readCsv);
      out.Detected? ==>
      && out.kind != Unknown
      && (out.kind == GA4 <==> IsGA4(Names(out.table)))
      && (out.kind == GSC <==> !IsGA4(Names(out.table)) && IsGSC(Names(out.table)))
      && forall i :: 0 <= i < |out.table| ==> IsNormalName(out.table[i].name)
  {
    var out := Analyse(decoded, readCsv);
    if out.Detected? {
      var names := Names(out.table);
      assert out.kind == IdentifyReportType(names);
      assert out.kind == GA4 <==> IsGA4(names);
      assert out.kind == GSC <==> !IsGA4(names) && IsGSC(names);
    }
  }

  /** The upload is Unparsed exactly when decoding fails, no header line exists, or the reader fails. */
  lemma UnparsedCases<V>(decoded: Option<seq<string>>, readCsv: seq<string> -> Option<seq<Column<V>>>)
    ensures Analyse(decoded, readCsv).Unparsed? <==>
      decoded.None? || NoHeader(decoded.value) || readCsv(CsvLines(decoded.value).value).None?
  {
  }

  /** A preamble of `#` comment lines does not change the outcome. */
  lemma IgnoresCommentPreamble<V>(comments: seq<string>, lines: seq<string>, readCsv: seq<string> -> Option<seq<Column<V>>>)
    requires forall j :: 0 <= j < |comments| ==> IsComment(comments[j])
    ensures Analyse(Some(comments + lines), readCsv) == Analyse(Some(lines), readCsv)
  {
    TryParseCsvIgnoresComments(comments, lines, readCsv);
  }
}
