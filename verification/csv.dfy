/** The text part of `exportToCSV` (src/lib/utils.ts:97-101): a header line
    of the first row's keys, then one line per row with its values in header
    order, `;` between fields, `\n` between lines, and no quoting. */
module Csv {
  import opened Wrappers
  import opened Text

  /** A value of a row: `string | number`. */
  datatype Cell = Num(x: real) | Txt(s: string)

  datatype Field = Field(key: string, cell: Cell)

  /** An object, as its fields in `Object.keys` order. */
  type Row = seq<Field>

  const FieldSeparator := ";"
  const LineSeparator := "\n"

  /** `Object.keys(row)`. */
  function Keys(row: Row): (ks: seq<string>)
    ensures |ks| == |row|
    ensures forall i :: 0 <= i < |row| ==> ks[i] == row[i].key
  {
    seq(|row|, i requires 0 <= i < |row| => row[i].key)
  }

  /** `row[key]`: the value of the first field with that key, if any. */
  function Lookup(row: Row, key: string): (r: Option<Cell>)
    ensures r.None? <==> key !in Keys(row)
    ensures r.Some? ==> exists i :: 0 <= i < |row| && row[i] == Field(key, r.value)
  {
    if |row| == 0 then None
    else if row[0].key == key then Some(row[0].cell)
    else
      assert Keys(row) == [row[0].key] + Keys(row[1..]);
      var r := Lookup(row[1..], key);
      assert r.Some? ==> exists i :: 0 <= i < |row| && row[i] == Field(key, r.value) by {
        if r.Some? {
          var i :| 0 <= i < |row[1..]| && row[1..][i] == Field(key, r.value);
          assert row[i + 1] == Field(key, r.value);
        }
      }
      r
  }

  /** `String(row[key] ?? "")`; numbers go through the runtime's `String`,
      which is the parameter `show`. */
  function CellText(c: Option<Cell>, show: real -> string): (t: string)
    ensures c.None? ==> t == ""
    ensures c == Some(Txt(t)) || c.None? || (c.Some? && c.value.Num? && t == show(c.value.x))
  {
    match c
    case None => ""
    case Some(Txt(s)) => s
    case Some(Num(x)) => show(x)
  }

  /** The values of `row` in the order of `headers`, missing ones empty. */
  function RowCells(row: Row, headers: seq<string>, show: real -> string): (cs: seq<string>)
    ensures |cs| == |headers|
    ensures forall j :: 0 <= j < |headers| ==> cs[j] == CellText(Lookup(row, headers[j]), show)
  {
    seq(|headers|, j requires 0 <= j < |headers| => CellText(Lookup(row, headers[j]), show))
  }

  /** `Object.keys(rows[0] || {})`. */
  function Headers(rows: seq<Row>): (hs: seq<string>)
    ensures |rows| == 0 ==> hs == []
    ensures |rows| > 0 ==> hs == Keys(rows[0])
  {
    if |rows| == 0 then [] else Keys(rows[0])
  }

  function Lines(rows: seq<Row>, show: real -> string): (ls: seq<string>)
    ensures |ls| == |rows| + 1
  {
    var headers := Headers(rows);
    [Join(headers, FieldSeparator)] +
    seq(|rows|, i requires 0 <= i < |rows| => Join(RowCells(rows[i], headers, show), FieldSeparator))
  }

  /** The CSV text of `rows`. */
  function ExportToCsv(rows: seq<Row>, show: real -> string): (text: string)
    ensures |rows| == 0 ==> text == ""
  {
    Join(Lines(rows, show), LineSeparator)
  }

  predicate IsPlain(t: string) {
    ';' !in t && '\n' !in t
  }

  /** Every header and every value is free of both separators. */
  predicate AllPlain(rows: seq<Row>, show: real -> string) {
    && (forall j :: 0 <= j < |Headers(rows)| ==> IsPlain(Headers(rows)[j]))
    && (forall i, j :: 0 <= i < |rows| && 0 <= j < |Headers(rows)| ==>
          IsPlain(RowCells(rows[i], Headers(rows), show)[j]))
  }

  lemma JoinPlain(parts: seq<string>)
    requires forall j :: 0 <= j < |parts| ==> IsPlain(parts[j])
    ensures '\n' !in Join(parts, FieldSeparator)
  {
    JoinAvoids(parts, FieldSeparator, '\n');
  }

  /** Without separators in headers and values, no line holds a line break. */
  lemma PlainLines(rows: seq<Row>, show: real -> string)
    requires AllPlain(rows, show)
    ensures forall i :: 0 <= i < |Lines(rows, show)| ==> LineSeparator[0] !in Lines(rows, show)[i]
  {
    forall i | 0 <= i < |Lines(rows, show)|
      ensures LineSeparator[0] !in Lines(rows, show)[i]
    {
      PlainLine(rows, show, i);
    }
  }

  lemma PlainLine(rows: seq<Row>, show: real -> string, i: nat)
    requires AllPlain(rows, show) && i < |Lines(rows, show)|
    ensures LineSeparator[0] !in Lines(rows, show)[i]
  {
    var headers := Headers(rows);
    if i == 0 {
      JoinPlain(headers);
    } else {
      var cells := RowCells(rows[i - 1], headers, show);
      assert Lines(rows, show)[i] == Join(cells, FieldSeparator);
      assert forall j :: 0 <= j < |cells| ==> IsPlain(cells[j]);
      JoinPlain(cells);
    }
  }

  /** The line of row `i` splits back into that row's values in header order. */
  lemma RowLineSplits(rows: seq<Row>, show: real -> string, i: nat)
    requires AllPlain(rows, show)
    requires |Headers(rows)| > 0 && i < |rows|
    ensures Split(Lines(rows, show)[i + 1], FieldSeparator) == RowCells(rows[i], Headers(rows), show)
  {
    var cells := RowCells(rows[i], Headers(rows), show);
    assert Lines(rows, show)[i + 1] == Join(cells, FieldSeparator);
    assert forall j :: 0 <= j < |cells| ==> IsPlain(cells[j]);
    SplitJoin(cells, FieldSeparator);
  }

  /** When no header or value contains `;` or a line break, the text splits
      back into one line per row after the header line, and each line splits
      back into its fields in header order. */
  lemma CsvRoundTrip(rows: seq<Row>, show: real -> string)
    requires AllPlain(rows, show)
    requires |Headers(rows)| > 0
    ensures var lines := Split(ExportToCsv(rows, show), LineSeparator);
            && |lines| == |rows| + 1
            && Split(lines[0], FieldSeparator) == Headers(rows)
            && forall i :: 0 <= i < |rows| ==>
                 Split(lines[i + 1], FieldSeparator) == RowCells(rows[i], Headers(rows), show)
  {
    var ls := Lines(rows, show);
    PlainLines(rows, show);
    SplitJoin(ls, LineSeparator);
    SplitJoin(Headers(rows), FieldSeparator);
    forall i | 0 <= i < |rows|
      ensures Split(ls[i + 1], FieldSeparator) == RowCells(rows[i], Headers(rows), show)
    {
      RowLineSplits(rows, show, i);
    }
  }

  /** The two-column example row with `;` inside its first value. */
  function ShiftExample(): Row {
    [Field("periodo", Txt("a;b")), Field("vbv", Txt("1"))]
  }

  /** The example exports a header line and one row line. */
  lemma ShiftExampleLines(show: real -> string)
    ensures Lines([ShiftExample()], show) == ["periodo;vbv", "a;b;1"]
  {
    var rows := [ShiftExample()];
    var headers := Headers(rows);
    assert headers == ["periodo", "vbv"];
    assert ["periodo", "vbv"][1..] == ["vbv"];
    assert Join(headers, FieldSeparator) == "periodo;vbv";
    var cells := RowCells(rows[0], headers, show);
    assert Lookup(rows[0], "vbv") == Some(Txt("1")) by {
      assert rows[0][1..] == [Field("vbv", Txt("1"))];
    }
    assert cells == ["a;b", "1"];
    assert ["a;b", "1"][1..] == ["1"];
    assert Join(cells, FieldSeparator) == "a;b;1";
  }

  /** Fields are not quoted: a value holding `;` adds a column, so the row
      line of a two-column export splits into three fields. */
  lemma SeparatorInValueShiftsColumns(show: real -> string)
    ensures var rows := [[Field("periodo", Txt("a;b")), Field("vbv", Txt("1"))]];
            && Split(ExportToCsv(rows, show), LineSeparator) == ["periodo;vbv", "a;b;1"]
            && Split("a;b;1", FieldSeparator) == ["a", "b", "1"]
  {
    var ls := Lines([ShiftExample()], show);
    ShiftExampleLines(show);
    assert LineSeparator[0] !in ls[0] && LineSeparator[0] !in ls[1];
    SplitJoin(ls, LineSeparator);
    ThreeFields();
  }

  lemma ThreeFields()
    ensures Split("a;b;1", FieldSeparator) == ["a", "b", "1"]
  {
    assert ["a", "b", "1"][1..] == ["b", "1"];
    assert ["b", "1"][1..] == ["1"];
    assert Join(["a", "b", "1"], FieldSeparator) == "a;b;1";
    SplitJoin(["a", "b", "1"], FieldSeparator);
  }
}
