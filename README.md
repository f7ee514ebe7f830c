# Website Health Monitor: upload parsing and report classification

The Website Health Monitor is a single-page tool. A user uploads a monthly
Google Analytics 4 (GA4) or Google Search Console (GSC) CSV export, and the
page shows the parsed table. It can then ask a language-model service for a
summary of the report. Three small pure steps run on every upload before any
of that, and this project models them and proves what they do:

1. **Header-line detection** (`try_parse_csv`). The upload is decoded and split
   into lines. The CSV reader starts at the first line that does not start
   with `#` and contains a comma. If there is no such line, or if anything
   raises, the result is `None`.
2. **Column normalisation**. Every column name is whitespace-stripped. Every
   column whose stripped name starts with `Unnamed` is then dropped, and the
   order of the rest is kept.
3. **Report-type classification** (`identify_report_type`). The column names
   are lower-cased. The report is `GA4` if they include `sessions` and
   `users`; otherwise `GSC` if they include `query` and `clicks`; otherwise
   `Unknown`.

The project also models how the page combines the three steps into one of
its three outcomes: the file could not be parsed, the format is unsupported,
or a report type was detected.

Modules:

- `Wrappers` (wrappers.dfy): `Option`.
- `Seqs` (seqs.dfy): an order-preserving filter, an element-wise map, and a
  subsequence relation, with lemmas about them.
- `Text` (text.dfy): Python's `startswith`, `strip()` and `lower()` on
  `string`.
- `HeaderDetection` (header.dfy): `try_parse_csv`.
- `Columns` (columns.dfy): column normalisation. A table is a sequence of
  `Column(name, values)`. The cells are opaque (a type parameter) and move
  with their column.
- `ReportTypes` (report_type.dfy): `identify_report_type`.
- `Upload` (upload.dfy): the three steps chained as at main.py:57-67.
- `Examples` (examples.dfy): worked uploads, proved about the model.

Two things the code calls into are parameters of the model:

- UTF-8 decoding plus `splitlines` is the value `decoded: Option<seq<string>>`.
  `None` means decoding raised.
- `pd.read_csv` is the function `readCsv`. It is given the lines it reads,
  and it returns `None` when it raises. The bare `except` turns any such
  failure into `None`.

What `main.py` does not do, and the model therefore does not do either:

- It decodes only as UTF-8. A file that fails UTF-8 decoding is not parsed.
- It detects only comma-delimited headers. A file with no comma on any
  non-comment line is not parsed, even if it is semicolon-delimited
  (`Examples.SemicolonFile`). If a line of a semicolon-delimited file
  holds a decimal comma, the first such line is taken for the header, even
  when it is a data row (`Examples.DecimalCommaFile`).
- It leaves duplicate column names to the CSV reader.
- It has no separate error for a header with no data rows. Such a file is
  handed to the reader like any other.

## Model

| member | source | states |
|---|---|---|
| `HeaderDetection.IsComment` | main.py:18 | `line.startswith("#")` holds exactly when the line is not empty and its first character is `#`. |
| `HeaderDetection.IsHeader` | main.py:18 | A line is a header candidate exactly when it is empty or does not start with `#`, and some character of it is `,`. |
| `HeaderDetection.FindHeader` | main.py:18 | The result is the least index of a line that does not start with `#` and contains `,`: that line qualifies and no earlier line does. It is None exactly when no line qualifies. |
| `HeaderDetection.CsvLines` | main.py:18-22 | The lines handed to the reader are the suffix of the input that starts at a header line, with no header line in the skipped prefix. It is None exactly when there is no header line. |
| `HeaderDetection.TryParseCsv` | main.py:15-24 | A decoding failure gives None. A file without a header line gives None. Otherwise the result is the reader's result on `lines[idx..]`, where `idx` is the detected header index; a reader failure is None. |
| `HeaderDetection.PrependNonHeaderLines` | main.py:18 | Putting `k` non-header lines in front of the file shifts the detected index by exactly `k`, and a file with no header still has none. |
| `HeaderDetection.PrependNonHeaderLinesKeepsCsvLines` | main.py:18-22 | Putting non-header lines in front of the file does not change the lines handed to the reader. |
| `HeaderDetection.PrependComments` | main.py:18-22 | Prepending `k` lines that start with `#` shifts the header index by `k` and leaves `lines[idx..]` unchanged. |
| `HeaderDetection.CsvLinesIdempotent` | main.py:18-22 | The lines handed to the reader start with the header line: detecting again finds index 0 and skips nothing. |
| `HeaderDetection.TryParseCsvIgnoresComments` | main.py:15-24 | For a reader handed exactly `lines[idx..]`, the parse result of a file with a `#` preamble equals that of the file without it. The real reader's row skipping can differ; see "Left out". |
| `Text.Strip` | main.py:59 | The stripped name has no whitespace at either end and is no longer than the original. |
| `Text.StripIsSlice` | main.py:59 | The stripped name is a slice `s[i..j]` of the original with only whitespace outside the slice. Together with `Text.Strip` this determines `strip()` uniquely. |
| `Text.StripStripped` | main.py:59 | Stripping a name with no whitespace at either end leaves it unchanged. |
| `Text.StripIdempotent` | main.py:59 | Stripping twice is stripping once. |
| `Text.LowerChar` | main.py:27 | One character lower-cased: A-Z map to a-z (code point plus 32), the Kelvin sign maps to `k`, every other character is kept, and the result is never an ASCII capital. |
| `Text.Lower` | main.py:27 | A lower-cased name has the same length as the original, each character is lower-cased by `LowerChar`, and no ASCII capital remains. |
| `Columns.StripNames` | main.py:59 | `df.columns.str.strip()` keeps the number and order of the names, strips each one, and every resulting name is stripped. |
| `Columns.IsUnnamed` | main.py:60 | The `^Unnamed` search matches exactly when the name has at least 7 characters and they begin with `Unnamed`, matching case. |
| `Columns.NormaliseNames` | main.py:59-60 | Every output name is stripped and none starts with `Unnamed`. The output is an order-preserving subsequence of the stripped names. It holds every other stripped name exactly as often as the input does. |
| `Columns.NormaliseNormalNames` | main.py:59-60 | Names that are already stripped and not `Unnamed` come out unchanged. |
| `Columns.NormaliseIdempotent` | main.py:59-60 | Normalising twice equals normalising once. |
| `Columns.NormaliseTable` | main.py:59-60 | On a table, the kept columns' names are the normalised names. The kept columns are, in order, a subsequence of the input columns with stripped names, and their cells are unchanged. |
| `ReportTypes.LowerNames` | main.py:27 | `df.columns.str.lower().tolist()` keeps the number and order of the names and lower-cases each one with `Text.Lower`. |
| `ReportTypes.IdentifyReportType` | main.py:26-32 | GA4 holds exactly when some column lower-cases to `sessions` and some to `users`. GSC holds exactly when that fails and some column lower-cases to `query` and some to `clicks`. Unknown holds exactly when neither does. |
| `ReportTypes.GA4TakesPriority` | main.py:28-31 | A column list carrying both signatures is GA4. |
| `ReportTypes.CaseInsensitive` | main.py:27-32 | Two column lists that agree position by position once lower-cased get the same report type. |
| `ReportTypes.OrderInsensitive` | main.py:27-32 | Any permutation of the column list gets the same report type. |
| `Upload.Analyse` | main.py:57-67 | The outcome is Unparsed exactly when `try_parse_csv` gives None. It is Unsupported exactly when the parse succeeds and the normalised names carry neither signature, and Detected exactly when they carry one. A Detected outcome shows the normalised parsed table (`NormaliseTable` of the parse). Its kind is `identify_report_type` of that table's names, never Unknown, and every column name in the table is stripped and not `Unnamed`. |
| `Upload.DetectedIsNormalised` | main.py:57-67 | A detected report is GA4 or GSC according to its normalised column names, and every column name in its table is stripped and not `Unnamed`. |
| `Upload.UnparsedCases` | main.py:57-58 | An upload is reported unparseable exactly when one of three things holds: decoding failed, there is no header line, or the reader failed on the lines from the header on. |
| `Upload.IgnoresCommentPreamble` | main.py:57-62 | For a reader handed exactly `lines[idx..]`, a preamble of `#` lines does not change the outcome of an upload. The real reader's row skipping can differ; see "Left out". |
| `Examples.GA4ExportHeader` | main.py:18 | With a `#` line and a blank line above it, the header of a GA4-style export is found at index 2. |
| `Examples.GA4ExportColumns` | main.py:26-29 | `Date, Sessions, Users` is GA4. |
| `Examples.SemicolonFile` | main.py:18-20 | A file with no comma in any line, here a semicolon-delimited one, has no header line, so it is not parsed. |
| `Examples.DecimalCommaFile` | main.py:18 | In a semicolon-delimited file whose data row holds a decimal comma (`1,5 %`), that data row is taken for the header (index 1). |

## Left out

- The page itself is not modelled: title, inputs, messages, table display, and the check that both a file and a business name were given (main.py:6-13, 56, 64-94). It is presentation. `Upload.Analyse` keeps only the choice between the three outcomes.
- The language-model request and the API-key lookup (main.py:72-80) are not modelled. They are a network call to an external service.
- `format_prompt` (main.py:34-54) is not modelled. It only concatenates fixed text with the library's rendering of the first rows.
- The download button and its date-stamped file name (main.py:85-90) are not modelled. They are presentation and a clock read.
- UTF-8 decoding and `splitlines` (main.py:17) are the abstract input `decoded`.
- `file.seek(0)` (main.py:21) is not modelled. It is stream I/O.
- `pd.read_csv` (main.py:22) is the abstract parameter `readCsv`. Its field splitting, quoting, type inference and renaming of duplicate columns are not modelled.
- HeaderDetection.TryParseCsv: the model hands the reader `lines[idx..]` of the `splitlines` result. The real reader is given the whole file with `skiprows=idx`, and it skips `idx` rows by its own tokenizer, not `idx` lines. The two differ in two ways, and the model captures neither:
  - `splitlines` also breaks at form feed, vertical tab, U+001C-U+001E, U+0085, U+2028 and U+2029, and the reader does not. A preamble line holding one of these makes the reader start at a different line.
  - A skipped line with a field that starts with `"` opens a quoted field, which runs on across line breaks. For example, in `["# Source,\"Acme", "Date,Sessions,Users", "20240101,10,5"]` the header is found at index 1 and the model's outcome is GA4. The real reader's quote never closes, so it raises, and main.py:23-24 give None ("could not parse").
- HeaderDetection.TryParseCsvIgnoresComments and Upload.IgnoresCommentPreamble hold only for a reader handed exactly `lines[idx..]`, because of the two differences above.
- Text.Lower and Text.LowerChar: only the letters A-Z and the Kelvin sign (U+212A) are lower-cased. Every other character is kept as it is. Python lower-cases many more characters, but the Kelvin sign is the only non-ASCII character whose lower-case form is ASCII. So the model still decides correctly which names lower-case to `sessions`, `users`, `query` or `clicks`. Python's `lower()` also need not keep the length: U+0130 becomes two characters, for example. That `Lower` keeps the length is a property of the model only.
- Non-string column names, for which the pandas string accessor gives missing values, are not modelled. With a header row, the reader always produces string names.
