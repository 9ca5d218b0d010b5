/** The spreadsheet export of the use cases: a row with the weight
    configuration, then one row per use case, written as comma-separated
    records with every cell enclosed in quotes and inner quotes doubled. */
module ExcelExport {
  import opened Seqs
  import opened Types
  import opened Csv

  /** A cell before it is turned into text. */
  datatype Value = Text(s: string) | Number(x: real)

  /** `value || ''`: the empty string and zero give an empty cell. */
  predicate Falsy(v: Value)
  {
    v == Text("") || v == Number(0.0)
  }

  /** How numbers and dates are written out: `String(x)`, `x.toFixed(1)`
      and `toLocaleDateString`; they depend on the runtime and locale. */
  datatype Formats = Formats(number: real -> string, fixed1: real -> string, date: int -> string)

  /** `String(row[header] || '')`. */
  function CellText(v: Value, number: real -> string): string
  {
    if Falsy(v) then ""
    else match v
      case Text(s) => s
      case Number(x) => number(x)
  }

  /** The column names, in the order the row objects list their keys. */
  const TitleColumn: string := "Title"
  const DescriptionColumn: string := "Description"
  const ObjectiveColumn: string := "Business Objective"
  const OutcomeColumn: string := "Expected Outcome"
  const CriteriaColumn: string := "Success Criteria"
  const TeamColumn: string := "Team"
  const TechnologiesColumn: string := "Technologies"
  const StatusColumn: string := "Status"
  const TotalScoreColumn: string := "Total Score"
  const ImpactColumn: string := "Impact"
  const EaseColumn: string := "Ease of Implementation"
  const DataColumn: string := "Data Availability"
  const ValueColumn: string := "Business Value"
  const FeasibilityColumn: string := "Technical Feasibility"
  const MaintainabilityColumn: string := "Maintainability"
  const EthicsColumn: string := "Ethical Considerations"
  const TimeColumn: string := "Estimated Time"
  const ResourcesColumn: string := "Estimated Resources"
  const CreatedColumn: string := "Created"
  const LastUpdatedColumn: string := "Last Updated"
  const Headers: seq<string> := [
    TitleColumn, DescriptionColumn, ObjectiveColumn, OutcomeColumn, CriteriaColumn, TeamColumn, TechnologiesColumn,
    StatusColumn, TotalScoreColumn, ImpactColumn, EaseColumn, DataColumn, ValueColumn, FeasibilityColumn,
    MaintainabilityColumn, EthicsColumn, TimeColumn, ResourcesColumn, CreatedColumn, LastUpdatedColumn]

  const ColumnCount: nat := 20

  /** The score parameters with a column, in column order. */
  const ImpactKey: string := "impact"
  const EaseKey: string := "easeOfImplementation"
  const DataKey: string := "dataAvailability"
  const ValueKey: string := "businessValue"
  const FeasibilityKey: string := "technicalFeasibility"
  const MaintainabilityKey: string := "maintainability"
  const EthicsKey: string := "ethicalConsiderations"

  const WeightTitle: string := "-- WEIGHT CONFIGURATION --"

  /** `xs.join(sep)`. */
  function Joined(xs: seq<string>, sep: string): string
  {
    if xs == [] then "" else if |xs| == 1 then xs[0] else xs[0] + sep + Joined(xs[1..], sep)
  }

  /** A score, or nothing when the use case has none for the key. */
  function ScoreValue(scores: Scores, key: string): Value
  {
    if key in scores then Number(scores[key] as real) else Text("")
  }

  function WeightValue(weights: map<string, real>, key: string): Value
  {
    if key in weights then Number(weights[key]) else Text("")
  }

  /** A date: the stored `Date` (or the date text read back from storage)
      is always truthy, so the cell always holds the formatted date. */
  function DateValue(t: int, date: int -> string): Value
  {
    Text(date(t))
  }

  /** The weight configuration row. */
  function WeightRow(weights: map<string, real>): (r: seq<Value>)
    ensures |r| == ColumnCount
  {
    [Text(WeightTitle), Text(""), Text(""), Text(""), Text(""), Text(""), Text(""), Text(""), Text(""),
     WeightValue(weights, ImpactKey), WeightValue(weights, EaseKey), WeightValue(weights, DataKey),
     WeightValue(weights, ValueKey), WeightValue(weights, FeasibilityKey), WeightValue(weights, MaintainabilityKey),
     WeightValue(weights, EthicsKey), Text(""), Text(""), Text(""), Text("")]
  }

  /** The row of one use case. */
  function UseCaseRow(uc: UseCase, fmt: Formats): (r: seq<Value>)
    ensures |r| == ColumnCount
    ensures r[0] == Text(uc.title) && r[8] == Text(fmt.fixed1(uc.score))
    ensures r[9] == Text("") <==> ImpactKey !in uc.scores
    ensures r[18] == Text(fmt.date(uc.createdAt)) && r[19] == Text(fmt.date(uc.updatedAt))
  {
    [Text(uc.title), Text(uc.description), Text(uc.businessObjective), Text(uc.expectedOutcome),
     Text(uc.successCriteria), Text(Joined(uc.team, ", ")), Text(Joined(uc.technologies, ", ")),
     Text(uc.status), Text(fmt.fixed1(uc.score)),
     ScoreValue(uc.scores, ImpactKey), ScoreValue(uc.scores, EaseKey), ScoreValue(uc.scores, DataKey),
     ScoreValue(uc.scores, ValueKey), ScoreValue(uc.scores, FeasibilityKey), ScoreValue(uc.scores, MaintainabilityKey),
     ScoreValue(uc.scores, EthicsKey), Text(uc.estimatedTime), Text(uc.estimatedResources),
     DateValue(uc.createdAt, fmt.date), DateValue(uc.updatedAt, fmt.date)]
  }

  /** The weight row, then the use cases in order. */
  function Worksheet(ucs: seq<UseCase>, weights: map<string, real>, fmt: Formats): (ws: seq<seq<Value>>)
    ensures |ws| == |ucs| + 1
  {
    [WeightRow(weights)] + seq(|ucs|, i requires 0 <= i < |ucs| => UseCaseRow(ucs[i], fmt))
  }

  /** The cells of a row, each enclosed in quotes. */
  function Cells(row: seq<Value>, number: real -> string): (fs: seq<Field>)
    ensures |fs| == |row|
  {
    seq(|row|, j requires 0 <= j < |row| => Quoted(CellText(row[j], number)))
  }

  /** The header line: the column names joined by commas, not quoted. */
  function HeaderLine(): string
  {
    Joined(Headers, ",")
  }

  /** Each row as a record ending in a line feed. */
  function Lines(ws: seq<seq<Value>>, number: real -> string): string
    decreases |ws|
  {
    if ws == [] then ""
    else Lines(ws[..|ws| - 1], number) + Line(ws[|ws| - 1], number)
  }

  /** One row as a record ending in a line feed. */
  function Line(row: seq<Value>, number: real -> string): string
  {
    Record(Cells(row, number)) + "\n"
  }

  lemma LinesSnoc(ws: seq<seq<Value>>, number: real -> string)
    requires ws != []
    ensures Lines(ws, number) == Lines(ws[..|ws| - 1], number) + Line(ws[|ws| - 1], number)
  {
  }

  lemma LinesPrefixStep(ws: seq<seq<Value>>, i: nat, number: real -> string)
    requires i < |ws|
    ensures Lines(ws[..i + 1], number) == Lines(ws[..i], number) + Line(ws[i], number)
  {
    LinesSnoc(ws[..i + 1], number);
    assert ws[..i + 1][..i] == ws[..i];
  }

  lemma AppendAssoc(a: string, b: string, c: string)
    ensures (a + b) + c == a + (b + c)
  {
  }

  datatype Result<T> = Ok(value: T) | Failure(message: string)

  const NothingToExport: string := "No use cases to export"

  /** The exported text, or the error raised for an empty list. */
  function ExcelCsv(ucs: seq<UseCase>, weights: map<string, real>, fmt: Formats): Result<string>
  {
    if ucs == [] then Failure(NothingToExport)
    else Ok(HeaderLine() + "\n" + Lines(Worksheet(ucs, weights, fmt), fmt.number))
  }

  /** `exportToExcel` up to the download. */
  method ExportToExcel(ucs: seq<UseCase>, weights: map<string, real>, fmt: Formats) returns (r: Result<string>)
    ensures r == ExcelCsv(ucs, weights, fmt)
  {
    if |ucs| == 0 {
      return Failure(NothingToExport);
    }
    var csv := WriteRows(HeaderLine(), Worksheet(ucs, weights, fmt), fmt.number);
    r := Ok(csv);
  }

  /** The header line, then the rows appended one record at a time. */
  method WriteRows(header: string, worksheet: seq<seq<Value>>, number: real -> string) returns (csv: string)
    ensures csv == header + "\n" + Lines(worksheet, number)
  {
    csv := header + "\n";
    var i := 0;
    while i < |worksheet|
      invariant 0 <= i <= |worksheet|
      invariant csv == header + "\n" + Lines(worksheet[..i], number)
    {
      var line := Line(worksheet[i], number);
      LinesPrefixStep(worksheet, i, number);
      AppendAssoc(header + "\n", Lines(worksheet[..i], number), line);
      csv := csv + line;
      i := i + 1;
    }
    assert worksheet[..i] == worksheet;
  }

  /** The export fails exactly for an empty list; otherwise the header
      line comes first, then the weight row and the use cases in order. */
  lemma ExcelCsvSpec(ucs: seq<UseCase>, weights: map<string, real>, fmt: Formats)
    ensures ExcelCsv(ucs, weights, fmt).Failure? <==> ucs == []
    ensures ucs == [] ==> ExcelCsv(ucs, weights, fmt).message == NothingToExport
    ensures var ws := Worksheet(ucs, weights, fmt);
            && ws[0] == WeightRow(weights) && ws[0][0] == Text(WeightTitle)
            && (forall i :: 0 <= i < |ucs| ==> ws[i + 1] == UseCaseRow(ucs[i], fmt))
            && (ucs != [] ==> ExcelCsv(ucs, weights, fmt).value == HeaderLine() + "\n" + Lines(ws, fmt.number))
  {
    WorksheetRows(ucs, weights, fmt);
  }

  /** The weight row first, then one row per use case, in order. */
  lemma WorksheetRows(ucs: seq<UseCase>, weights: map<string, real>, fmt: Formats)
    ensures var ws := Worksheet(ucs, weights, fmt);
            && ws[0] == WeightRow(weights) && ws[0][0] == Text(WeightTitle)
            && (forall i :: 0 <= i < |ucs| ==> ws[i + 1] == UseCaseRow(ucs[i], fmt))
  {
  }

  /** Every record reads back, field by field, as the texts of the row's
      values, whatever commas, quotes or line breaks they hold. */
  lemma RecordReadsBack(row: seq<Value>, number: real -> string)
    requires row != []
    ensures ParseFields(Record(Cells(row, number))) == Some(seq(|row|, j requires 0 <= j < |row| => CellText(row[j], number)))
  {
    var fs := Cells(row, number);
    ParseRecord(fs);
    assert Texts(fs) == seq(|row|, j requires 0 <= j < |row| => CellText(row[j], number));
  }

  /** Zero and empty values become empty cells; others their text. */
  lemma CellTextSpec(v: Value, number: real -> string)
    ensures Falsy(v) ==> CellText(v, number) == ""
    ensures v.Text? && v.s != "" ==> CellText(v, number) == v.s
    ensures v.Number? && v.x != 0.0 ==> CellText(v, number) == number(v.x)
    ensures Unquote(Quote(CellText(v, number))) == Some(CellText(v, number))
  {
    UnquoteQuote(CellText(v, number));
  }

  /** A weight of 0 is exported as an empty cell, like a missing one. */
  lemma ZeroWeightEmpty(weights: map<string, real>, number: real -> string)
    requires ImpactKey in weights && weights[ImpactKey] == 0.0
    ensures CellText(WeightRow(weights)[9], number) == ""
  {
  }

  /** With no line feed inside a cell, the records hold one line feed each. */
  lemma {:induction false} LinesBreaks(ws: seq<seq<Value>>, number: real -> string)
    requires forall i, j :: 0 <= i < |ws| && 0 <= j < |ws[i]| ==> '\n' !in CellText(ws[i][j], number)
    ensures Breaks(Lines(ws, number)) == |ws|
    decreases |ws|
  {
    if ws != [] {
      var init := ws[..|ws| - 1];
      var row := ws[|ws| - 1];
      LinesBreaks(init, number);
      RecordNoBreak(Cells(row, number));
      NoBreaks(Record(Cells(row, number)));
      assert Lines(ws, number) == Lines(init, number) + Record(Cells(row, number)) + "\n";
      BreaksConcat(Lines(init, number), Record(Cells(row, number)));
      BreaksConcat(Lines(init, number) + Record(Cells(row, number)), "\n");
    }
  }

  /** Line feeds end lines: with none inside a cell the export has the
      header line, the weight line and one line per use case. */
  lemma LineCount(ucs: seq<UseCase>, weights: map<string, real>, fmt: Formats)
    requires ucs != []
    requires var ws := Worksheet(ucs, weights, fmt);
             forall i, j :: 0 <= i < |ws| && 0 <= j < |ws[i]| ==> '\n' !in CellText(ws[i][j], fmt.number)
    ensures Breaks(ExcelCsv(ucs, weights, fmt).value) == |ucs| + 2
  {
    var ws := Worksheet(ucs, weights, fmt);
    LinesBreaks(ws, fmt.number);
    HeaderNoBreak();
    NoBreaks(HeaderLine());
    BreaksConcat(HeaderLine(), "\n");
    BreaksConcat(HeaderLine() + "\n", Lines(ws, fmt.number));
  }

  lemma {:induction false} JoinedNoBreak(xs: seq<string>, sep: string)
    requires '\n' !in sep
    requires forall i :: 0 <= i < |xs| ==> '\n' !in xs[i]
    ensures '\n' !in Joined(xs, sep)
    decreases |xs|
  {
    if |xs| > 1 {
      JoinedNoBreak(xs[1..], sep);
    }
  }

  lemma HeaderNoBreak()
    ensures '\n' !in HeaderLine()
  {
    forall i | 0 <= i < |Headers|
      ensures '\n' !in Headers[i]
    {
      if i < 5 { NoBreakInHeaders1(i); }
      else if i < 10 { NoBreakInHeaders2(i); }
      else if i < 15 { NoBreakInHeaders3(i); }
      else { NoBreakInHeaders4(i); }
    }
    JoinedNoBreak(Headers, ",");
  }

  lemma NoBreakInHeaders1(i: nat)
    requires 0 <= i < 5
    ensures '\n' !in Headers[i]
  {
  }

  lemma NoBreakInHeaders2(i: nat)
    requires 5 <= i < 10
    ensures '\n' !in Headers[i]
  {
  }

  lemma NoBreakInHeaders3(i: nat)
    requires 10 <= i < 15
    ensures '\n' !in Headers[i]
  {
  }

  lemma NoBreakInHeaders4(i: nat)
    requires 15 <= i < 20
    ensures '\n' !in Headers[i]
  {
  }
}
