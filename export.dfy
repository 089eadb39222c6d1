/** The rows save_to_csv hands to the CSV writer: a header row, then the
    saved samples in order. Cells keep their Python type (str or int); their
    rendering as text is not modelled. */
module Export {
  import opened Session

  datatype Cell = Text(text: string) | Int(n: int)

  type CsvRow = seq<Cell>

  /** The header row `["Data Point", "Value"]`. */
  const Header: CsvRow := [Text("Data Point"), Text("Value")]

  /** A file written by save_to_csv: the chosen path and its rows. */
  datatype CsvFile = CsvFile(path: string, rows: seq<CsvRow>)

  function RowCells(r: Row): CsvRow {
    [Int(r.index), Int(r.value)]
  }

  /** `writerows(self.data)`: one row per saved sample, in order, unmodified. */
  function DataRows(data: seq<Row>): (rows: seq<CsvRow>)
    ensures |rows| == |data|
    ensures forall i :: 0 <= i < |data| ==> rows[i] == [Int(data[i].index), Int(data[i].value)]
  {
    if data == [] then [] else [RowCells(data[0])] + DataRows(data[1..])
  }

  /** Everything written to the file: the header row, then the data rows. */
  function CsvRows(data: seq<Row>): seq<CsvRow> {
    [Header] + DataRows(data)
  }

  // Reading a file back: the partner of CsvRows.

  function ParseRow(row: CsvRow): Option<Row> {
    if |row| == 2 && row[0].Int? && row[1].Int? then Some(Row(row[0].n, row[1].n)) else None
  }

  function ParseDataRows(rows: seq<CsvRow>): Option<seq<Row>> {
    if rows == [] then Some([])
    else
      match (ParseRow(rows[0]), ParseDataRows(rows[1..]))
      case (Some(r), Some(rest)) => Some([r] + rest)
      case _ => None
  }

  /** The samples of a file that starts with the header row, or None. */
  function ParseCsv(rows: seq<CsvRow>): Option<seq<Row>> {
    if rows == [] || rows[0] != Header then None else ParseDataRows(rows[1..])
  }

  lemma {:induction false} DataRowsRoundTrip(data: seq<Row>)
    ensures ParseDataRows(DataRows(data)) == Some(data)
  {
    if data != [] {
      DataRowsRoundTrip(data[1..]);
      assert DataRows(data)[1..] == DataRows(data[1..]);
      assert [data[0]] + data[1..] == data;
    }
  }

  /** Reading back what save_to_csv writes gives the saved samples exactly. */
  lemma CsvRoundTrip(data: seq<Row>)
    ensures ParseCsv(CsvRows(data)) == Some(data)
  {
    DataRowsRoundTrip(data);
    assert CsvRows(data)[1..] == DataRows(data);
  }

  /** The samples (1,5), (2,12), (3,3) are written as the header and the
      rows 1,5 then 2,12 then 3,3. */
  lemma ExampleExport()
    ensures CsvRows([Row(1, 5), Row(2, 12), Row(3, 3)])
         == [[Text("Data Point"), Text("Value")], [Int(1), Int(5)], [Int(2), Int(12)], [Int(3), Int(3)]]
  {
  }

  /** The file for a buffer of numbered values: the header, then [k, v_k]. */
  lemma ExportOfBuffer(vs: seq<int>)
    ensures var rows := CsvRows(Rows(vs));
      && |rows| == |vs| + 1
      && rows[0] == Header
      && forall k :: 1 <= k <= |vs| ==> rows[k] == [Int(k), Int(vs[k - 1])]
  {
    var data := Rows(vs);
    var rows := CsvRows(data);
    assert |rows| == |vs| + 1 && rows[0] == Header;
    forall k | 1 <= k <= |vs|
      ensures rows[k] == [Int(k), Int(vs[k - 1])]
    {
      calc {
        rows[k];
        DataRows(data)[k - 1];
        [Int(data[k - 1].index), Int(data[k - 1].value)];
        { assert data[k - 1] == Row(k, vs[k - 1]); }
        [Int(k), Int(vs[k - 1])];
      }
    }
  }

  /** Saving after a session over lines writes the header then, for the k-th
      accepted value v, the row [k, v]. */
  lemma SessionExport(s: State, lines: seq<Option<int>>)
    requires Inv(s) && !s.exited && s.port != NoPort
    ensures StartStep(s).reading
    ensures var rows := CsvRows(RunLines(StartStep(s), lines).data);
      && |rows| == |Accepted(lines)| + 1
      && rows[0] == Header
      && forall k :: 1 <= k <= |Accepted(lines)| ==> rows[k] == [Int(k), Int(Accepted(lines)[k - 1])]
  {
    FreshSession(s, lines);
    ExportOfBuffer(Accepted(lines));
  }
}
