/** The CSV text of the quiz history (frontend/src/App.jsx, `exportCSV`): a
    fixed header, then one row per record in log order, joined by newlines.
    Nothing is quoted or escaped.

    Quiz answers are JavaScript numbers, and JavaScript decides how a number
    is written (`${x}`); that rendering is the parameter `num`. The eco score
    is a whole number from 0 to 100 and is written in decimal. */
module CsvExport {
  import opened Text
  import opened Scoring
  import opened Records

  /** The column names, in the order every row lists its values. */
  const Columns: seq<string> := ["ts", "name", "shower_min", "uses_bucket", "hours_devices", "num_led",
    "ac_hours", "uses_reusable", "recycles", "disposable_count", "eco"]

  /** The header line, `ts,name,shower_min,...,eco`. */
  const Header: string := Join(Columns, ",")

  /** How a JavaScript boolean is written into a template literal. */
  function BoolText(b: bool): (r: string)
    ensures r == "true" <==> b
    ensures r == "false" <==> !b
  {
    if b then "true" else "false"
  }

  /** A rendering of numbers that never writes a comma or a line break, as
      JavaScript's number-to-string conversion never does. */
  ghost predicate PlainNumbers(num: real -> string)
  {
    forall x :: ',' !in num(x) && '\n' !in num(x)
  }

  /** The value a record writes under column `col` of the header, looked up
      by the column's name; "" for a name that is not a column. */
  function ColumnValue(col: string, r: QuizRecord, num: real -> string): string
  {
    if col == "ts" then r.ts
    else if col == "name" then r.name
    else if col == "shower_min" then num(r.inputs.showerMin)
    else if col == "uses_bucket" then BoolText(r.inputs.usesBucket)
    else if col == "hours_devices" then num(r.inputs.hoursDevices)
    else if col == "num_led" then num(r.inputs.numLed)
    else if col == "ac_hours" then num(r.inputs.acHours)
    else if col == "uses_reusable" then BoolText(r.inputs.usesReusable)
    else if col == "recycles" then BoolText(r.inputs.recycles)
    else if col == "disposable_count" then num(r.inputs.disposableCount)
    else if col == "eco" then IntText(r.scores.eco)
    else ""
  }

  /** The eleven values of a record's row, one per header column
      (`RowUnderHeader` ties each to its column). */
  function RowFields(r: QuizRecord, num: real -> string): (f: seq<string>)
    ensures |f| == |Columns| == 11
    ensures f[0] == r.ts && f[1] == r.name && f[10] == IntText(r.scores.eco)
  {
    [r.ts, r.name, num(r.inputs.showerMin), BoolText(r.inputs.usesBucket),
     num(r.inputs.hoursDevices), num(r.inputs.numLed), num(r.inputs.acHours),
     BoolText(r.inputs.usesReusable), BoolText(r.inputs.recycles),
     num(r.inputs.disposableCount), IntText(r.scores.eco)]
  }

  /** Under each header column a row holds the record's value for that column. */
  lemma RowUnderHeader(r: QuizRecord, num: real -> string)
    ensures forall k :: 0 <= k < |Columns| ==> RowFields(r, num)[k] == ColumnValue(Columns[k], r, num)
  {
    var f := RowFields(r, num);
    forall k | 0 <= k < |Columns| ensures f[k] == ColumnValue(Columns[k], r, num) {
      if k == 0 { assert Columns[k] == "ts"; }
      else if k == 1 { assert Columns[k] == "name"; }
      else if k == 2 { assert Columns[k] == "shower_min"; }
      else if k == 3 { assert Columns[k] == "uses_bucket"; }
      else if k == 4 { assert Columns[k] == "hours_devices"; }
      else if k == 5 { assert Columns[k] == "num_led"; }
      else if k == 6 { assert Columns[k] == "ac_hours"; }
      else if k == 7 { assert Columns[k] == "uses_reusable"; }
      else if k == 8 { assert Columns[k] == "recycles"; }
      else if k == 9 { assert Columns[k] == "disposable_count"; }
      else { assert Columns[k] == "eco"; }
    }
  }

  /** The row template `${ts},${name},...,${eco}` of `exportCSV`: the eleven
      values with a comma between neighbours. */
  function Row(r: QuizRecord, num: real -> string): string
  {
    Join(RowFields(r, num), ",")
  }

  function Rows(records: seq<QuizRecord>, num: real -> string): (rows: seq<string>)
    ensures |rows| == |records|
    ensures forall k :: 0 <= k < |records| ==> rows[k] == Row(records[k], num)
  {
    seq(|records|, k requires 0 <= k < |records| => Row(records[k], num))
  }

  /** The exported text. */
  function Csv(records: seq<QuizRecord>, num: real -> string): string
  {
    Join([Header] + Rows(records, num), "\n")
  }

  // ---------------------------------------------------------------------
  // Rows
  // ---------------------------------------------------------------------

  /** Apart from the time and the name, no value of a row writes a comma or a line break. */
  lemma PlainFields(r: QuizRecord, num: real -> string)
    requires PlainNumbers(num)
    ensures forall k :: 2 <= k < 11 ==> ',' !in RowFields(r, num)[k] && '\n' !in RowFields(r, num)[k]
  {
    var f := RowFields(r, num);
    forall k | 2 <= k < 11 ensures ',' !in f[k] && '\n' !in f[k] {
      if k == 10 {
        assert forall j :: 0 <= j < |f[10]| ==> f[10][j] == '-' || '0' <= f[10][j] <= '9';
      }
    }
  }

  /** A row splits into 11 fields plus one per comma in the time and the name:
      it has exactly 11 fields if and only if neither holds a comma. */
  lemma RowFieldCount(r: QuizRecord, num: real -> string)
    requires PlainNumbers(num)
    ensures |Split(Row(r, num), ',')| == 11 + multiset(r.ts)[','] + multiset(r.name)[',']
    ensures |Split(Row(r, num), ',')| == 11 <==> ',' !in r.ts && ',' !in r.name
  {
    var f := RowFields(r, num);
    PlainFields(r, num);
    JoinCount(f, ",", ',');
    CountAllNone(f[2..], ',');
    assert f[1..][1..] == f[2..];
  }

  /** A row whose time and name hold no comma splits back into its values. */
  lemma RowSplitsIntoFields(r: QuizRecord, num: real -> string)
    requires PlainNumbers(num)
    requires ',' !in r.ts && ',' !in r.name
    ensures Split(Row(r, num), ',') == RowFields(r, num)
  {
    PlainFields(r, num);
    SplitJoin(RowFields(r, num), ',');
  }

  /** A row holds a line break only if its time or name does. */
  lemma RowIsOneLine(r: QuizRecord, num: real -> string)
    requires PlainNumbers(num)
    requires '\n' !in r.ts && '\n' !in r.name
    ensures '\n' !in Row(r, num)
  {
    PlainFields(r, num);
    JoinAvoids(RowFields(r, num), ",", '\n');
  }

  /** No column name holds a comma or a line break. */
  lemma PlainColumns()
    ensures forall k :: 0 <= k < |Columns| ==> ',' !in Columns[k] && '\n' !in Columns[k]
  {
    forall k | 0 <= k < |Columns| ensures ',' !in Columns[k] && '\n' !in Columns[k] {
    }
  }

  /** The header splits at its commas into the eleven column names, in row order. */
  lemma HeaderColumns()
    ensures |Columns| == 11
    ensures Split(Header, ',') == Columns
  {
    PlainColumns();
    SplitJoin(Columns, ',');
  }

  /** The header is a single line. */
  lemma HeaderIsOneLine()
    ensures '\n' !in Header
  {
    PlainColumns();
    JoinAvoids(Columns, ",", '\n');
  }

  // ---------------------------------------------------------------------
  // The whole text
  // ---------------------------------------------------------------------

  /** The text has one line per record after the header, in log order, and no
      trailing line break, as long as no time or name holds a line break. */
  lemma CsvLines(records: seq<QuizRecord>, num: real -> string)
    requires PlainNumbers(num)
    requires forall k :: 0 <= k < |records| ==> '\n' !in records[k].ts && '\n' !in records[k].name
    ensures Split(Csv(records, num), '\n') == [Header] + Rows(records, num)
    ensures |Split(Csv(records, num), '\n')| == |records| + 1
  {
    HeaderIsOneLine();
    LinesAfter(Header, records, num);
  }

  /** A first line and the rows below it, joined by line breaks, split back
      into the same lines when none of them holds a line break. */
  lemma LinesAfter(first: string, records: seq<QuizRecord>, num: real -> string)
    requires '\n' !in first
    requires PlainNumbers(num)
    requires forall k :: 0 <= k < |records| ==> '\n' !in records[k].ts && '\n' !in records[k].name
    ensures Split(Join([first] + Rows(records, num), "\n"), '\n') == [first] + Rows(records, num)
  {
    var lines := [first] + Rows(records, num);
    forall k | 0 <= k < |lines| ensures '\n' !in lines[k] {
      if k > 0 {
        RowIsOneLine(records[k - 1], num);
      }
    }
    SplitJoin(lines, '\n');
  }

  /** With no records the export is the header alone. */
  lemma EmptyLogCsv(num: real -> string)
    ensures Csv([], num) == Header
  {
    assert [Header] + Rows([], num) == [Header];
  }

  /** Appending a record to the log appends a line break and its row to the text. */
  lemma CsvAppend(records: seq<QuizRecord>, rec: QuizRecord, num: real -> string)
    ensures Csv(AppendRecord(records, rec), num) == Csv(records, num) + "\n" + Row(rec, num)
  {
    RowsAppend(Header, records, rec, num);
  }

  /** One more record adds a line break and its row at the end, whatever the first line. */
  lemma RowsAppend(first: string, records: seq<QuizRecord>, rec: QuizRecord, num: real -> string)
    ensures Join([first] + Rows(records + [rec], num), "\n") == Join([first] + Rows(records, num), "\n") + "\n" + Row(rec, num)
  {
    var lines := [first] + Rows(records, num);
    assert [first] + Rows(records + [rec], num) == lines + [Row(rec, num)];
    JoinSnoc(lines, Row(rec, num), "\n");
  }

  /** After a Calculate the export gains exactly the new record's row. */
  lemma CsvAfterCalculate(log: seq<QuizRecord>, inputs: QuizInputs, ts: string, num: real -> string)
    ensures Csv(Calculate(log, inputs, ts).records, num) ==
      Csv(log, num) + "\n" + Row(QuizRecord(ts, DisplayName(inputs.name), inputs, Scores(inputs)), num)
  {
    CsvAppend(log, QuizRecord(ts, DisplayName(inputs.name), inputs, Scores(inputs)), num);
  }
}
