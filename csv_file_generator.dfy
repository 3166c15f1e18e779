/** The CSV contract export: a header row and one data row. */
module CsvFileGenerator {
  import opened Common
  import opened Dtos
  import opened Strings
  import opened Rendering
  import TxtFileGenerator

  /** The column names, in print order. */
  const Columns: seq<string> :=
    ["Contract ID", "Start Date", "Duration", "Details", "User ID", "Property ID"]

  /** The header row the writer prints first:
      `Contract ID,Start Date,Duration,Details,User ID,Property ID` and a line break. */
  const Header: string := "Contract ID,Start Date,Duration,Details,User ID,Property ID\n"

  /** The data row: the six fields joined by commas and a line break. The details
      are printed as they are, without quoting. */
  function Row(c: ContractDto, r: Renderer): string {
    var f := ContractFields(c, r);
    f[0] + "," + f[1] + "," + f[2] + "," + f[3] + "," + f[4] + "," + f[5] + "\n"
  }

  /** What the output stream holds once the writer is flushed. */
  function Content(c: ContractDto, r: Renderer): string {
    Header + Row(c, r)
  }

  /** `generateFile`: write the header and the row through a writer into a fresh
      byte stream, flush, and return the bytes. */
  method GenerateFile(c: ContractDto, r: Renderer) returns (bytes: string)
    ensures bytes == Content(c, r)
  {
    var f := ContractFields(c, r);
    var outputStream := new TextBuffer();
    var header := Header;
    outputStream.Append(header);
    assert outputStream.content == header;
    var row := f[0] + "," + f[1] + "," + f[2] + "," + f[3] + "," + f[4] + "," + f[5] + "\n";
    outputStream.Append(row);
    bytes := outputStream.content;
  }

  /** The header names the six columns, comma separated. */
  lemma HeaderNamesColumns()
    ensures Header == Join(Columns, ',') + "\n"
  {
    JoinSix(Columns, ',');
    HeaderStep1();
    HeaderStep2();
    HeaderStep3();
    HeaderStep4();
  }

  /** `HeaderStep1` to `HeaderStep4` build the header literal one short piece at a time:
      each is a lemma of its own so that the solver compares one short literal at a time
      instead of the whole header at once. */
  lemma HeaderStep1()
    ensures "Contract ID" + [','] + "Start Date" + [','] == "Contract ID,Start Date,"
  {
  }

  lemma HeaderStep2()
    ensures "Contract ID,Start Date," + "Duration" + [','] + "Details" + [','] == "Contract ID,Start Date,Duration,Details,"
  {
  }

  lemma HeaderStep3()
    ensures "Contract ID,Start Date,Duration,Details," + "User ID" + [','] == "Contract ID,Start Date,Duration,Details,User ID,"
  {
  }

  lemma HeaderStep4()
    ensures "Contract ID,Start Date,Duration,Details,User ID," + "Property ID" + "\n" == Header
  {
  }

  /** Splitting the header line at commas gives back the column names. */
  lemma HeaderSplitsIntoColumns()
    ensures Split(Header[..|Header| - 1], ',') == Columns
  {
    HeaderNamesColumns();
    var j := Join(Columns, ',');
    assert (j + "\n")[..|j|] == j;
    ColumnsWithoutComma();
    SplitJoin(Columns, ',');
  }

  lemma ColumnsWithoutComma()
    ensures forall i :: 0 <= i < |Columns| ==> ',' !in Columns[i]
  {
  }

  /** The text export's labels are the CSV column names followed by ": ". */
  lemma LabelsMatchColumns()
    ensures forall i :: 0 <= i < 6 ==> TxtFileGenerator.Labels[i] == Columns[i] + ": "
  {
  }

  /** The row, without its line break, is the six fields joined by commas. */
  lemma RowIsJoin(c: ContractDto, r: Renderer)
    ensures Row(c, r) == Join(ContractFields(c, r), ',') + "\n"
  {
    JoinSix(ContractFields(c, r), ',');
  }

  lemma JoinSix(f: seq<string>, sep: char)
    requires |f| == 6
    ensures Join(f, sep) == f[0] + [sep] + f[1] + [sep] + f[2] + [sep] + f[3] + [sep] + f[4] + [sep] + f[5]
  {
    var j5 := Join(f[5..], sep);
    assert j5 == f[5];
    var j4 := Join(f[4..], sep);
    assert f[4..][1..] == f[5..];
    assert j4 == f[4] + [sep] + j5;
    var j3 := Join(f[3..], sep);
    assert f[3..][1..] == f[4..];
    assert j3 == f[3] + [sep] + j4;
    var j2 := Join(f[2..], sep);
    assert f[2..][1..] == f[3..];
    assert j2 == f[2] + [sep] + j3;
    var j1 := Join(f[1..], sep);
    assert f[1..][1..] == f[2..];
    assert j1 == f[1] + [sep] + j2;
    assert Join(f, sep) == f[0] + [sep] + j1;
  }

  /** When the renderings and the details are free of commas, reading the row back
      by splitting at commas recovers the six fields. */
  lemma RowRoundTrip(c: ContractDto, r: Renderer)
    requires RendersWithout(r, ',') && ',' !in c.details
    ensures Split(Row(c, r)[..|Row(c, r)| - 1], ',') == ContractFields(c, r)
  {
    var f := ContractFields(c, r);
    RowIsJoin(c, r);
    assert Row(c, r)[..|Row(c, r)| - 1] == Join(f, ',');
    FieldsWithout(c, r, ',');
    SplitJoin(f, ',');
  }

  /** Since the details are not quoted, every comma in them adds a column: the row
      splits into six cells exactly when the details hold no comma. */
  lemma RowCellCount(c: ContractDto, r: Renderer)
    requires RendersWithout(r, ',')
    ensures |Split(Row(c, r)[..|Row(c, r)| - 1], ',')| == 6 + Count(c.details, ',')
    ensures |Split(Row(c, r)[..|Row(c, r)| - 1], ',')| == 6 <==> ',' !in c.details
  {
    var f := ContractFields(c, r);
    RowIsJoin(c, r);
    assert Row(c, r)[..|Row(c, r)| - 1] == Join(f, ',');
    CountJoin(f, ',');
    FieldsWithout(c, r, ',');
    forall i | 0 <= i < 6 && i != 3
      ensures Count(f[i], ',') == 0
    {
      CountAbsent(f[i], ',');
    }
    SumCountSix(f, ',');
    CountAbsent(c.details, ',');
  }

  lemma SumCountSix(f: seq<string>, ch: char)
    requires |f| == 6
    ensures SumCount(f, ch) ==
      Count(f[0], ch) + Count(f[1], ch) + Count(f[2], ch) + Count(f[3], ch) + Count(f[4], ch) + Count(f[5], ch)
  {
    assert f[5..][1..] == [];
    assert SumCount(f[5..], ch) == Count(f[5], ch);
    assert f[4..][1..] == f[5..];
    assert SumCount(f[4..], ch) == Count(f[4], ch) + SumCount(f[5..], ch);
    assert f[3..][1..] == f[4..];
    assert SumCount(f[3..], ch) == Count(f[3], ch) + SumCount(f[4..], ch);
    assert f[2..][1..] == f[3..];
    assert SumCount(f[2..], ch) == Count(f[2], ch) + SumCount(f[3..], ch);
    assert f[1..][1..] == f[2..];
    assert SumCount(f[1..], ch) == Count(f[1], ch) + SumCount(f[2..], ch);
  }
}
