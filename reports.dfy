/** The reports page's CSV download: one header line, then one comma-separated line per month of
    `monthlyData`, and a file name derived from the report type. */
module Reports {
  import Text
  import JsNumber

  datatype MonthRow = MonthRow(month: string, camps: nat, beneficiaries: nat, schemes: nat)

  const MonthlyData: seq<MonthRow> := [
    MonthRow("Jan", 3, 280, 12),
    MonthRow("Feb", 4, 350, 15),
    MonthRow("Mar", 2, 180, 8),
    MonthRow("Apr", 5, 420, 20),
    MonthRow("May", 3, 290, 14),
    MonthRow("Jun", 1, 95, 6)
  ]

  const HeaderLine := "Month,Camps,Beneficiaries,Schemes"

  /** The header, with its line break. */
  const Header := HeaderLine + "\n"

  /** The four fields of a row, as the template literal renders them. */
  function RowFields(row: MonthRow): (fs: seq<string>)
    ensures |fs| == 4 && fs[0] == row.month
    ensures forall k :: 1 <= k < 4 ==> |fs[k]| > 0 && forall i :: 0 <= i < |fs[k]| ==> '0' <= fs[k][i] <= '9'
    ensures forall k :: 1 <= k < 4 ==> ',' !in fs[k] && '\n' !in fs[k]
  {
    [row.month, JsNumber.NatToString(row.camps), JsNumber.NatToString(row.beneficiaries),
      JsNumber.NatToString(row.schemes)]
  }

  /** `${row.month},${row.camps},${row.beneficiaries},${row.schemes}`. */
  function RowLine(row: MonthRow): string
  {
    Text.Join(RowFields(row), ',')
  }

  /** The data lines, in row order. */
  function RowLines(rows: seq<MonthRow>): (ls: seq<string>)
    ensures |ls| == |rows|
    ensures forall i :: 0 <= i < |rows| ==> ls[i] == RowLine(rows[i])
  {
    seq(|rows|, i requires 0 <= i < |rows| => RowLine(rows[i]))
  }

  /** The file's contents: the header, then the lines joined by line breaks, with none after
      the last. Every report starts with the header line and its break; no rows give the header alone. */
  function Report(rows: seq<MonthRow>): (r: string)
    ensures Text.StartsWith(r, Header)
    ensures r[..|Header|] == "Month,Camps,Beneficiaries,Schemes\n"
    ensures rows == [] ==> r == Header
  {
    Header + Text.Join(RowLines(rows), '\n')
  }

  /** What `downloadReport(reportType)` saves. */
  datatype Download = Download(fileName: string, content: string)

  function DownloadReport(reportType: string, rows: seq<MonthRow>): (d: Download)
    ensures d.fileName == reportType + "-report.csv"
    ensures d.content == Report(rows)
  {
    Download(reportType + "-report.csv", Report(rows))
  }

  /** The report type names the file and nothing else. */
  lemma ContentIgnoresReportType(t1: string, t2: string, rows: seq<MonthRow>)
    ensures DownloadReport(t1, rows).content == DownloadReport(t2, rows).content
    ensures t1 != t2 ==> DownloadReport(t1, rows).fileName != DownloadReport(t2, rows).fileName
  {
    if t1 != t2 {
      var n1, n2 := DownloadReport(t1, rows).fileName, DownloadReport(t2, rows).fileName;
      if |t1| == |t2| {
        assert n1[..|t1|] == t1 && n2[..|t2|] == t2;
      } else {
        assert |n1| != |n2|;
      }
    }
  }

  lemma RowLineHasNoBreak(row: MonthRow)
    requires '\n' !in row.month
    ensures '\n' !in RowLine(row)
  {
    var fs := RowFields(row);
    NoCharInJoin(fs, ',', '\n');
  }

  /** A character in none of the parts and unlike the separator is not in their join. */
  lemma {:induction false} NoCharInJoin(parts: seq<string>, sep: char, c: char)
    requires c != sep
    requires forall k :: 0 <= k < |parts| ==> c !in parts[k]
    ensures c !in Text.Join(parts, sep)
  {
    if |parts| > 1 {
      NoCharInJoin(parts[1..], sep, c);
    }
  }

  /** A row line splits back into the month and the three numbers, which parse back to the row's
      values, when the month has no comma. */
  lemma RowLineFields(row: MonthRow)
    requires ',' !in row.month
    ensures Text.Split(RowLine(row), ',') == RowFields(row)
    ensures |Text.Split(RowLine(row), ',')| == 4
    ensures JsNumber.ParseInt(RowFields(row)[1]) == JsNumber.Int(row.camps)
    ensures JsNumber.ParseInt(RowFields(row)[2]) == JsNumber.Int(row.beneficiaries)
    ensures JsNumber.ParseInt(RowFields(row)[3]) == JsNumber.Int(row.schemes)
  {
    Text.SplitJoin(RowFields(row), ',');
    JsNumber.ParseNumeral(row.camps);
    JsNumber.ParseNumeral(row.beneficiaries);
    JsNumber.ParseNumeral(row.schemes);
  }

  /** Splitting a report with rows at line breaks gives the header line and then one line per
      row, in order: no blank line and no trailing break. */
  lemma ReportLines(rows: seq<MonthRow>)
    requires rows != []
    requires forall i :: 0 <= i < |rows| ==> '\n' !in rows[i].month
    ensures Text.Split(Report(rows), '\n') == [HeaderLine] + RowLines(rows)
  {
    var lines := RowLines(rows);
    var parts := [HeaderLine] + lines;
    assert parts[1..] == lines;
    assert Text.Join(parts, '\n') == Report(rows);
    forall k | 0 <= k < |parts|
      ensures '\n' !in parts[k]
    {
      if k > 0 {
        RowLineHasNoBreak(rows[k - 1]);
      }
    }
    Text.SplitJoin(parts, '\n');
  }

  /** The empty report splits into the header line and one empty line after its break. */
  lemma EmptyReportLines()
    ensures Text.Split(Report([]), '\n') == [HeaderLine, ""]
  {
    Text.SplitJoin([HeaderLine, ""], '\n');
    assert Text.Join([HeaderLine, ""], '\n') == Header;
  }

  /** The page's report: seven lines, the header and the six months. */
  lemma MonthlyReportLines()
    ensures |Text.Split(Report(MonthlyData), '\n')| == 7
  {
    ReportLines(MonthlyData);
  }
}
