/** Worked uploads, each proved about the model. */
module Examples {
  import opened Wrappers
  import opened Text
  import opened HeaderDetection
  import opened ReportTypes

  /** A GA4 export: a `#` preamble and a blank line above the header, which is line 3 (index 2). */
  lemma GA4ExportHeader()
    ensures FindHeader(["# Acme Ltd", "", "Date,Sessions,Users", "20240101,10,5"]) == Some(2)
  {
    var preamble := ["# Acme Ltd", ""];
    var rest := ["Date,Sessions,Users", "20240101,10,5"];
    assert preamble[0][0] == '#';
    assert NoHeader(preamble);
    assert rest[0][0] == 'D' && rest[0][4] == ',';
    assert IsHeader(rest[0]);
    PrependNonHeaderLines(preamble, rest);
    assert preamble + rest == ["# Acme Ltd", "", "Date,Sessions,Users", "20240101,10,5"];
  }

  lemma GA4ExportColumns()
    ensures IdentifyReportType(["Date", "Sessions", "Users"]) == GA4
  {
    var names := ["Date", "Sessions", "Users"];
    assert Lower(names[1]) == "sessions";
    assert Lower(names[2]) == "users";
  }

  /** A file without any comma is not parsed at all, semicolons notwithstanding. */
  lemma SemicolonFile()
    ensures FindHeader(["name;value", "foo;1"]) == None
  {
    assert !(',' in "name;value") && !(',' in "foo;1");
  }

  /**
   * A semicolon-delimited file with a decimal comma in a data row: that row
   * is taken for the header.
   */
  lemma DecimalCommaFile()
    ensures FindHeader(["Query;Clicks;CTR", "foo;3;1,5 %"]) == Some(1)
  {
    var lines := ["Query;Clicks;CTR", "foo;3;1,5 %"];
    assert !(',' in lines[0]);
    assert lines[1][0] == 'f' && lines[1][7] == ',';
    assert IsHeader(lines[1]);
    PrependNonHeaderLines([lines[0]], [lines[1]]);
    assert [lines[0]] + [lines[1]] == lines;
  }
}
