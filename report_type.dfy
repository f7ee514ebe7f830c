/**
 * `identify_report_type` (main.py:26-32): the column names are lower-cased
 * and the report is GA4 when they include both `sessions` and `users`, else
 * GSC when they include both `query` and `clicks`, else Unknown.
 */
module ReportTypes {
  import opened Text
  import Seqs

  datatype ReportType = GA4 | GSC | Unknown

  function LowerNames(names: seq<string>): (r: seq<string>)
    ensures |r| == |names|
    ensures forall i :: 0 <= i < |names| ==> r[i] == Lower(names[i])
  {
    Seqs.Map(Lower, names)
  }

  /** Some column's name is `word` once lower-cased. */
  predicate HasColumn(names: seq<string>, word: string)
  {
    exists i :: 0 <= i < |names| && Lower(names[i]) == word
  }

  predicate IsGA4(names: seq<string>)
  {
    HasColumn(names, "sessions") && HasColumn(names, "users")
  }

  predicate IsGSC(names: seq<string>)
  {
    HasColumn(names, "query") && HasColumn(names, "clicks")
  }

  lemma LowerNamesHas(names: seq<string>, word: string)
    ensures word in LowerNames(names) <==> HasColumn(names, word)
  {
    if HasColumn(names, word) {
      var i :| 0 <= i < |names| && Lower(names[i]) == word;
      assert LowerNames(names)[i] == word;
    }
  }

  /**
   * `identify_report_type`. Case by case: GA4 exactly when both GA4 columns
   * are present; GSC exactly when that fails and both GSC columns are
   * present; Unknown otherwise.
   */
  function IdentifyReportType(names: seq<string>): (r: ReportType)
    ensures r == GA4 <==> IsGA4(names)
    ensures r == GSC <==> !IsGA4(names) && IsGSC(names)
    ensures r == Unknown <==> !IsGA4(names) && !IsGSC(names)
  {
    var cols := LowerNames(names);
    LowerNamesHas(names, "sessions");
    LowerNamesHas(names, "users");
    LowerNamesHas(names, "query");
    LowerNamesHas(names, "clicks");
    if "sessions" in cols && "users" in cols then GA4
    else if "query" in cols && "clicks" in cols then GSC
    else Unknown
  }

  /** A list carrying both signatures is GA4: the GA4 test comes first. */
  lemma GA4TakesPriority(names: seq<string>)
    requires IsGA4(names) && IsGSC(names)
    ensures IdentifyReportType(names) == GA4
  {
  }

  /** Names that agree once lower-cased are classified alike. */
  lemma CaseInsensitive(a: seq<string>, b: seq<string>)
    requires |a| == |b|
    requires forall i :: 0 <= i < |a| ==> Lower(a[i]) == Lower(b[i])
    ensures IdentifyReportType(a) == IdentifyReportType(b)
  {
    assert LowerNames(a) == LowerNames(b);
  }

  /** Reordering the columns does not change the classification. */
  lemma OrderInsensitive(a: seq<string>, b: seq<string>)
    requires multiset(a) == multiset(b)
    ensures IdentifyReportType(a) == IdentifyReportType(b)
  {
    forall word | word in ["sessions", "users", "query", "clicks"]
      ensures HasColumn(a, word) <==> HasColumn(b, word)
    {
      if HasColumn(a, word) {
        var i :| 0 <= i < |a| && Lower(a[i]) == word;
        assert a[i] in multiset(b);
        var j :| 0 <= j < |b| && b[j] == a[i];
      }
      if HasColumn(b, word) {
        var j :| 0 <= j < |b| && Lower(b[j]) == word;
        assert b[j] in multiset(a);
        var i :| 0 <= i < |a| && a[i] == b[j];
      }
    }
  }
}
