/**
 * The CSV datatable codec of the interpreter (interpreter/src/csv.rs).
 *
 * Reading: the token list of the CSV lexer is read as a header line of
 * titles, then one row of values per line up to the EOF token, and the rows
 * are transposed into one `Column` per title.
 *
 * Writing: a `DataTable` becomes the titles joined by ", ", then one line per
 * row, each starting with a newline and holding its cells joined by ", ". A
 * column whose first cell is `Uncertain` is written as two columns, the
 * values and then the uncertainties, the second one titled
 * `uncertainty<title>`.
 */
module Csv {
  import opened Outcomes
  import opened Common
  import Lexing
  import CsvLexing
  import Operations

  const NOT_A_TITLE := "Expected identifier as title of CSV column, found "
  const NO_LITERAL := "Expected a literal, found None (there's probably 2 commas without a value in between in your CSV)"
  const NOT_A_COLUMN := "Expected column, found "

  // ---------------------------------------------------------------------------
  // Reading: the header.

  /** The String value a token carries, if it carries one. */
  predicate HasTitle(t: Token)
  {
    t.literal.Some? && t.literal.value.String?
  }

  /** A header token `parse_titles` gets past: one carrying a String, or a comma. */
  predicate HeaderCell(t: Token)
  {
    HasTitle(t) || t.tokenType == TokenType.Comma
  }

  /** The Strings the tokens `ts[i..n]` carry, in order. */
  function TitleNames(ts: seq<Token>, i: nat, n: nat): seq<string>
    requires n <= |ts|
    decreases n - i
  {
    if n <= i then []
    else (if HasTitle(ts[i]) then [ts[i].literal.value.s] else []) + TitleNames(ts, i + 1, n)
  }

  /** `parse_titles` from index `i` on, with the titles collected so far: the index past the header and the titles. */
  function Titles(ts: seq<Token>, i: nat, titles: seq<string>, line: nat): Result<(nat, seq<string>)>
    decreases |ts| - i
  {
    if i >= |ts| then Panic(OUT_OF_BOUNDS)
    else if ts[i].tokenType == TokenType.NewLine then Ok((i + 1, titles))
    else if HasTitle(ts[i]) then Titles(ts, i + 1, titles + [ts[i].literal.value.s], line)
    else if ts[i].tokenType == TokenType.Comma then Titles(ts, i + 1, titles, line)
    else if ts[i].literal.Some? then Fail(NOT_A_TITLE + Operations.Render(ts[i].literal.value), line)
    else Fail(NO_LITERAL, line)
  }

  /** `parse_titles`: the while loop over the header, as in the source. */
  method ParseTitles(ts: seq<Token>, line: nat) returns (r: Result<(nat, seq<string>)>)
    ensures r == Titles(ts, 0, [], line)
  {
    var titles: seq<string> := [];
    var i: nat := 0;
    while i < |ts| && ts[i].tokenType != TokenType.NewLine
      invariant Titles(ts, i, titles, line) == Titles(ts, 0, [], line)
      decreases |ts| - i
    {
      var t := ts[i];
      if HasTitle(t) {
        titles := titles + [t.literal.value.s];
      } else if t.tokenType != TokenType.Comma {
        if t.literal.Some? {
          return Fail(NOT_A_TITLE + Operations.Render(t.literal.value), line);
        }
        return Fail(NO_LITERAL, line);
      }
      i := i + 1;
    }
    if i >= |ts| {
      return Panic(OUT_OF_BOUNDS);
    }
    i := i + 1;
    r := Ok((i, titles));
  }

  /**
   * A header of title-carrying tokens and commas up to a NewLine is read as
   * the titles in order, and reading goes on just past the NewLine.
   */
  lemma {:induction false} TitlesHeader(ts: seq<Token>, i: nat, n: nat, titles: seq<string>, line: nat)
    requires i <= n < |ts| && ts[n].tokenType == TokenType.NewLine
    requires forall k :: i <= k < n ==> ts[k].tokenType != TokenType.NewLine && HeaderCell(ts[k])
    ensures Titles(ts, i, titles, line) == Ok((n + 1, titles + TitleNames(ts, i, n)))
    decreases n - i
  {
    if i < n {
      var piece := if HasTitle(ts[i]) then [ts[i].literal.value.s] else [];
      var rest := TitleNames(ts, i + 1, n);
      assert TitleNames(ts, i, n) == piece + rest;
      TitlesCell(ts, i, titles, line);
      TitlesHeader(ts, i + 1, n, titles + piece, line);
      assert titles + piece + rest == titles + (piece + rest);
    } else {
      assert TitleNames(ts, i, n) == [];
      assert titles + [] == titles;
    }
  }

  /** A title or a comma of the header is taken in and reading moves to the next token. */
  lemma TitlesCell(ts: seq<Token>, i: nat, titles: seq<string>, line: nat)
    requires i < |ts| && ts[i].tokenType != TokenType.NewLine && HeaderCell(ts[i])
    ensures Titles(ts, i, titles, line) ==
      Titles(ts, i + 1, titles + (if HasTitle(ts[i]) then [ts[i].literal.value.s] else []), line)
  {
    if !HasTitle(ts[i]) {
      assert titles + [] == titles;
    }
  }

  /**
   * The first header token that is neither a title nor a comma is an error:
   * it names the literal the token carries, or says that it carries none.
   */
  lemma {:induction false} TitlesRejects(ts: seq<Token>, i: nat, k: nat, titles: seq<string>, line: nat)
    requires i <= k < |ts|
    requires forall j :: i <= j < k ==> ts[j].tokenType != TokenType.NewLine && HeaderCell(ts[j])
    requires ts[k].tokenType != TokenType.NewLine && !HeaderCell(ts[k])
    ensures ts[k].literal.Some? ==>
      Titles(ts, i, titles, line) == Fail(NOT_A_TITLE + Operations.Render(ts[k].literal.value), line)
    ensures ts[k].literal.None? ==> Titles(ts, i, titles, line) == Fail(NO_LITERAL, line)
    decreases k - i
  {
    if i < k {
      var piece := if HasTitle(ts[i]) then [ts[i].literal.value.s] else [];
      TitlesCell(ts, i, titles, line);
      TitlesRejects(ts, i + 1, k, titles + piece, line);
    }
  }

  // ---------------------------------------------------------------------------
  // Reading: the rows.

  /** A token that ends a row: a NewLine or the EOF. */
  predicate RowEnd(t: Token)
  {
    t.tokenType == TokenType.NewLine || t.tokenType == TokenType.EOF
  }

  /** The literals the tokens `ts[i..j]` carry, in order. */
  function Literals(ts: seq<Token>, i: nat, j: nat): seq<Object>
    requires j <= |ts|
    decreases j - i
  {
    if j <= i then []
    else (if ts[i].literal.Some? then [ts[i].literal.value] else []) + Literals(ts, i + 1, j)
  }

  /** The inner loop of `parse_values`: the cells of a row, and the index of the token that ends it. */
  function Row(ts: seq<Token>, i: nat, cells: seq<Object>): (r: Result<(nat, seq<Object>)>)
    ensures r.Ok? ==> i <= r.value.0 < |ts| && RowEnd(ts[r.value.0])
    decreases |ts| - i
  {
    if i >= |ts| then Panic(OUT_OF_BOUNDS)
    else if RowEnd(ts[i]) then Ok((i, cells))
    else Row(ts, i + 1, if ts[i].literal.Some? then cells + [ts[i].literal.value] else cells)
  }

  /** `parse_values` from index `i` on, with the rows read so far. */
  function Values(ts: seq<Token>, i: nat, rows: seq<seq<Object>>): Result<seq<seq<Object>>>
    decreases |ts| - i
  {
    if i >= |ts| then Panic(OUT_OF_BOUNDS)
    else if ts[i].tokenType == TokenType.EOF then Ok(rows)
    else
      var row := Row(ts, i, []);
      if !row.Ok? then row.PropagateFailure()
      else
        var (j, cells) := row.value;
        Values(ts, if ts[j].tokenType == TokenType.NewLine then j + 1 else j, rows + [cells])
  }

  /** `parse_values`: the nested while loops of the source. */
  method ParseValues(ts: seq<Token>, start: nat) returns (r: Result<seq<seq<Object>>>)
    ensures r == Values(ts, start, [])
  {
    var values: seq<seq<Object>> := [];
    var i: nat := start;
    while i < |ts| && ts[i].tokenType != TokenType.EOF
      invariant Values(ts, i, values) == Values(ts, start, [])
      decreases |ts| - i
    {
      var rowStart := i;
      var cells: seq<Object> := [];
      while i < |ts| && !RowEnd(ts[i])
        invariant rowStart <= i
        invariant Row(ts, i, cells) == Row(ts, rowStart, [])
        decreases |ts| - i
      {
        if ts[i].literal.Some? {
          cells := cells + [ts[i].literal.value];
        }
        i := i + 1;
      }
      if i >= |ts| {
        return Panic(OUT_OF_BOUNDS);
      }
      if ts[i].tokenType == TokenType.NewLine {
        i := i + 1;
      }
      values := values + [cells];
    }
    if i >= |ts| {
      return Panic(OUT_OF_BOUNDS);
    }
    r := Ok(values);
  }

  /** A row holds, in order, the literals of its tokens up to the NewLine or EOF that ends it. */
  lemma {:induction false} RowValues(ts: seq<Token>, i: nat, j: nat, cells: seq<Object>)
    requires i <= j < |ts| && RowEnd(ts[j])
    requires forall k :: i <= k < j ==> !RowEnd(ts[k])
    ensures Row(ts, i, cells) == Ok((j, cells + Literals(ts, i, j)))
    decreases j - i
  {
    if i < j {
      var piece := if ts[i].literal.Some? then [ts[i].literal.value] else [];
      assert !RowEnd(ts[i]);
      assert cells + [] == cells;
      RowValues(ts, i + 1, j, cells + piece);
      assert cells + piece + Literals(ts, i + 1, j) == cells + Literals(ts, i, j);
    }
  }

  /**
   * Each line up to a NewLine or EOF becomes one row of its literals, and
   * reading goes on past the NewLine; the EOF itself ends the reading.
   */
  lemma ValuesStep(ts: seq<Token>, i: nat, j: nat, rows: seq<seq<Object>>)
    requires i <= j < |ts| && RowEnd(ts[j]) && ts[i].tokenType != TokenType.EOF
    requires forall k :: i <= k < j ==> !RowEnd(ts[k])
    ensures Values(ts, i, rows)
         == Values(ts, if ts[j].tokenType == TokenType.NewLine then j + 1 else j, rows + [Literals(ts, i, j)])
  {
    RowValues(ts, i, j, []);
    assert [] + Literals(ts, i, j) == Literals(ts, i, j);
  }

  /** A row in a token list that ends with EOF always finds its end. */
  lemma {:induction false} RowEnds(ts: seq<Token>, i: nat, cells: seq<Object>)
    requires i < |ts| && ts[|ts| - 1].tokenType == TokenType.EOF
    ensures Row(ts, i, cells).Ok?
    decreases |ts| - i
  {
    if !RowEnd(ts[i]) {
      RowEnds(ts, i + 1, if ts[i].literal.Some? then cells + [ts[i].literal.value] else cells);
    }
  }

  /** On a token list that ends with EOF, as the CSV lexer's does, `parse_values` cannot panic. */
  lemma {:induction false} ValuesEnd(ts: seq<Token>, i: nat, rows: seq<seq<Object>>)
    requires i < |ts| && ts[|ts| - 1].tokenType == TokenType.EOF
    ensures Values(ts, i, rows).Ok?
    decreases |ts| - i
  {
    if ts[i].tokenType != TokenType.EOF {
      RowEnds(ts, i, []);
      var (j, cells) := Row(ts, i, []).value;
      ValuesEnd(ts, if ts[j].tokenType == TokenType.NewLine then j + 1 else j, rows + [cells]);
    }
  }

  // ---------------------------------------------------------------------------
  // Reading: from rows to columns.

  /** Every row has a value for each of `n` titles. */
  predicate Rectangular(values: seq<seq<Object>>, n: nat)
  {
    forall k :: 0 <= k < |values| ==> n <= |values[k]|
  }

  /** The `j`-th value of every row. */
  function ColumnOf(values: seq<seq<Object>>, j: nat): seq<Object>
    requires Rectangular(values, j + 1)
  {
    seq(|values|, k requires 0 <= k < |values| => values[k][j])
  }

  /** `values_to_columns`: column `j` holds the `j`-th value of every row; a row with too few values panics. */
  function Columns(n: nat, values: seq<seq<Object>>): Result<seq<Object>>
  {
    if !Rectangular(values, n) then Panic(OUT_OF_BOUNDS)
    else Ok(seq(n, j requires 0 <= j < n => Object.Column(ColumnOf(values, j))))
  }

  /** `values_to_columns`: the nested for loops of the source. */
  method ValuesToColumns(titles: seq<string>, values: seq<seq<Object>>) returns (r: Result<seq<Object>>)
    ensures r == Columns(|titles|, values)
  {
    var columns: seq<Object> := [];
    var numCols := |titles|;
    var numRows := |values|;
    for j := 0 to numCols
      invariant |columns| == j
      invariant Rectangular(values, j)
      invariant forall c :: 0 <= c < j ==> columns[c] == Object.Column(ColumnOf(values, c))
    {
      var vals: seq<Object> := [];
      for k := 0 to numRows
        invariant |vals| == k
        invariant forall k' :: 0 <= k' < k ==> j < |values[k']| && vals[k'] == values[k'][j]
      {
        if j >= |values[k]| {
          return Panic(OUT_OF_BOUNDS);
        }
        vals := vals + [values[k][j]];
      }
      assert vals == ColumnOf(values, j);
      columns := columns + [Object.Column(vals)];
    }
    assert columns == Columns(numCols, values).value;
    r := Ok(columns);
  }

  /** The rows of a list of columns of `m` cells each. */
  function RowsOf(columns: seq<Object>, m: nat): seq<seq<Object>>
    requires forall j :: 0 <= j < |columns| ==> columns[j].Column? && |columns[j].cells| == m
  {
    seq(m, k requires 0 <= k < m => seq(|columns|, j requires 0 <= j < |columns| => columns[j].cells[k]))
  }

  /**
   * The transposition is undone by reading the columns back as rows: every
   * row comes back cut to its first `n` values, one per title.
   */
  lemma ColumnsTranspose(n: nat, values: seq<seq<Object>>)
    requires Rectangular(values, n)
    ensures Columns(n, values).Ok?
    ensures |Columns(n, values).value| == n
    ensures forall j :: 0 <= j < n ==>
      Columns(n, values).value[j].Column? && |Columns(n, values).value[j].cells| == |values|
    ensures RowsOf(Columns(n, values).value, |values|) == seq(|values|, k requires 0 <= k < |values| => values[k][..n])
  {
    var cols := Columns(n, values).value;
    var rows := RowsOf(cols, |values|);
    forall k | 0 <= k < |values|
      ensures rows[k] == values[k][..n]
    {
      assert |rows[k]| == n;
      forall j | 0 <= j < n
        ensures rows[k][j] == values[k][j]
      {
        assert rows[k][j] == cols[j].cells[k];
      }
    }
  }

  // ---------------------------------------------------------------------------
  // Reading: the whole table.

  /** `parse_csv`: the titles, then the rows after the header, then one column per title. */
  function Table(ts: seq<Token>, line: nat): Result<Object>
  {
    var header :- Titles(ts, 0, [], line);
    var values :- Values(ts, header.0, []);
    var columns :- Columns(|header.1|, values);
    Ok(DataTable(header.1, columns))
  }

  /** `parse_csv`. */
  method ParseCsv(ts: seq<Token>, line: nat) returns (r: Result<Object>)
    ensures r == Table(ts, line)
  {
    var header := ParseTitles(ts, line);
    if !header.Ok? {
      return header.PropagateFailure();
    }
    var (i, titles) := header.value;
    var values := ParseValues(ts, i);
    if !values.Ok? {
      return values.PropagateFailure();
    }
    var columns := ValuesToColumns(titles, values.value);
    if !columns.Ok? {
      return columns.PropagateFailure();
    }
    r := Ok(DataTable(titles, columns.value));
  }

  /** `csv_to_datatable`: the table in the file the host's `filein` reads. */
  function ReadTable<W>(cb: Callbacks<W>, w: W, filename: string, line: nat): Result<Object>
  {
    match cb.filein(w, filename)
    case None => Fail("Couldn't read file: " + filename, line)
    case Some(text) =>
      var tokens :- CsvLexing.CsvTokens(Lexing.Graphemes(text));
      Table(tokens, line)
  }

  /** `csv_to_datatable`. */
  method CsvToDatatable<W>(cb: Callbacks<W>, w: W, filename: string, line: nat) returns (r: Result<Object>)
    ensures r == ReadTable(cb, w, filename, line)
  {
    var file := cb.filein(w, filename);
    if file.None? {
      return Fail("Couldn't read file: " + filename, line);
    }
    var tokens := CsvLexing.CsvLexer.Lex(Lexing.Graphemes(file.value));
    if !tokens.Ok? {
      return tokens.PropagateFailure();
    }
    r := ParseCsv(tokens.value, line);
  }

  // ---------------------------------------------------------------------------
  // Writing: the measure of the writer's recursion through nested tables.

  /** The number of objects in `o`, counting the cells of columns and tables. */
  function Size(o: Object): nat
    decreases o, 1
  {
    match o
    case Column(cells) => 1 + SizeSum(cells)
    case DataTable(_, data) => 1 + SizeSum(data)
    case _ => 1
  }

  function SizeSum(os: seq<Object>): nat
    decreases os, 0
  {
    if |os| == 0 then 0 else Size(os[0]) + SizeSum(os[1..])
  }

  lemma {:induction false} SizeSumBound(os: seq<Object>, k: nat)
    requires k < |os|
    ensures Size(os[k]) <= SizeSum(os)
    decreases k
  {
    if k > 0 {
      SizeSumBound(os[1..], k - 1);
      assert os[1..][k - 1] == os[k];
    }
  }

  /** Every cell of the columns among `wide` has a size below `bound`. */
  predicate CellsBelow(wide: seq<Object>, bound: nat)
  {
    forall j, k :: 0 <= j < |wide| && wide[j].Column? && 0 <= k < |wide[j].cells| ==> Size(wide[j].cells[k]) < bound
  }

  lemma CellsBelowAppend(a: seq<Object>, b: seq<Object>, bound: nat)
    requires CellsBelow(a, bound) && CellsBelow(b, bound)
    ensures CellsBelow(a + b, bound)
  {
    forall j, k | 0 <= j < |a + b| && (a + b)[j].Column? && 0 <= k < |(a + b)[j].cells|
      ensures Size((a + b)[j].cells[k]) < bound
    {
      if j >= |a| {
        assert (a + b)[j] == b[j - |a|];
      }
    }
  }

  // ---------------------------------------------------------------------------
  // Writing: the split of an Uncertain column.

  /** A column that is written as two: its first cell is `Uncertain`. */
  predicate SplitsUncertain(col: Object)
  {
    col.Column? && |col.cells| > 0 && col.cells[0].Uncertain?
  }

  /** The values of the Uncertain cells, as Decimals, in order. */
  function UncertainValues(cells: seq<Object>): seq<Object>
  {
    if |cells| == 0 then []
    else
      var last := cells[|cells| - 1];
      UncertainValues(cells[..|cells| - 1]) + (if last.Uncertain? then [Object.Decimal(last.value)] else [])
  }

  /** The uncertainties of the Uncertain cells, as Decimals, in order. */
  function Uncertainties(cells: seq<Object>): seq<Object>
  {
    if |cells| == 0 then []
    else
      var last := cells[|cells| - 1];
      Uncertainties(cells[..|cells| - 1]) + (if last.Uncertain? then [Object.Decimal(last.uncertainty)] else [])
  }

  /** The columns a column is written as. */
  function DataPiece(col: Object): seq<Object>
  {
    if SplitsUncertain(col) then [Object.Column(UncertainValues(col.cells)), Object.Column(Uncertainties(col.cells))]
    else [col]
  }

  /** The titles the `k`-th column is written under; a column past the titles has none. */
  function NamePiece(names: seq<string>, data: seq<Object>, k: nat): seq<string>
    requires k < |data|
  {
    if k >= |names| then []
    else if SplitsUncertain(data[k]) then [names[k], "uncertainty" + names[k]]
    else [names[k]]
  }

  /** The columns the first `i` columns are written as. */
  function WideData(data: seq<Object>, i: nat): seq<Object>
    requires i <= |data|
  {
    if i == 0 then [] else WideData(data, i - 1) + DataPiece(data[i - 1])
  }

  /** The titles the first `i` columns are written under. */
  function WideNames(names: seq<string>, data: seq<Object>, i: nat): seq<string>
    requires i <= |data|
  {
    if i == 0 then [] else WideNames(names, data, i - 1) + NamePiece(names, data, i - 1)
  }

  function Min(a: nat, b: nat): nat
  {
    if a < b then a else b
  }

  /** The header of the written table: the titles of the columns, then any titles past the last column. */
  function Header(names: seq<string>, data: seq<Object>): seq<string>
  {
    WideNames(names, data, |data|) + names[Min(|data|, |names|)..]
  }

  /**
   * The loop of `format_datatable_csv` from column `i` on: whether it gets
   * through. A cell that is not a column is an error naming the first column;
   * an empty column, or an Uncertain column past the titles, panics.
   */
  function Checked(names: seq<string>, data: seq<Object>, i: nat, line: nat): Result<()>
    requires |data| > 0
    decreases |data| - i
  {
    if i >= |data| then Ok(())
    else if !data[i].Column? then Fail(NOT_A_COLUMN + Operations.Render(data[0]), line)
    else if |data[i].cells| == 0 then Panic(OUT_OF_BOUNDS)
    else if data[i].cells[0].Uncertain? && i >= |names| then Panic(OUT_OF_BOUNDS)
    else Checked(names, data, i + 1, line)
  }

  lemma {:induction false} UncertainValuesAreDecimals(cells: seq<Object>)
    ensures forall c :: c in UncertainValues(cells) ==> c.Decimal?
    ensures forall c :: c in Uncertainties(cells) ==> c.Decimal?
  {
    if |cells| > 0 {
      UncertainValuesAreDecimals(cells[..|cells| - 1]);
    }
  }

  /** The columns the writer produces hold no cell as large as the table. */
  lemma {:induction false} WideCellsBelow(data: seq<Object>, i: nat)
    requires i <= |data|
    ensures CellsBelow(WideData(data, i), 1 + SizeSum(data))
    decreases i
  {
    if i > 0 {
      WideCellsBelow(data, i - 1);
      var col := data[i - 1];
      SizeSumBound(data, i - 1);
      var bound := 1 + SizeSum(data);
      assert CellsBelow(DataPiece(col), bound) by {
        if SplitsUncertain(col) {
          UncertainValuesAreDecimals(col.cells);
          var piece := DataPiece(col);
          forall j, k | 0 <= j < |piece| && piece[j].Column? && 0 <= k < |piece[j].cells|
            ensures Size(piece[j].cells[k]) < bound
          {
            assert piece[j].cells[k] in piece[j].cells;
          }
        } else if col.Column? {
          forall k | 0 <= k < |col.cells|
            ensures Size(col.cells[k]) < bound
          {
            SizeSumBound(col.cells, k);
          }
        }
      }
      CellsBelowAppend(WideData(data, i - 1), DataPiece(col), bound);
    }
  }

  // ---------------------------------------------------------------------------
  // Writing: the text.

  /** The text of `a` followed by the text of `b`, or the first failure. */
  function Cat(a: Result<string>, b: Result<string>): Result<string>
  {
    if !a.Ok? then a else if !b.Ok? then b else Ok(a.value + b.value)
  }

  lemma CatAssoc(a: Result<string>, b: Result<string>, c: Result<string>)
    ensures Cat(a, Cat(b, c)) == Cat(Cat(a, b), c)
  {
    if a.Ok? && b.Ok? && c.Ok? {
      assert a.value + (b.value + c.value) == a.value + b.value + c.value;
    }
  }

  /** `format_datatable_csv_column_names` over the first `k` names: each followed by ", " but the last. */
  function ColumnNames(names: seq<string>, k: nat): string
    requires k <= |names|
  {
    if k == 0 then ""
    else ColumnNames(names, k - 1) + names[k - 1] + (if k - 1 < |names| - 1 then ", " else "")
  }

  /** `format_for_csv`; `show` is the text of a Decimal (`Display` of `d128`). */
  function CsvText(o: Object, line: nat, show: real -> string): Result<string>
    decreases Size(o), 3, 0
  {
    match o
    case Boolean(b) => Ok(if b then "true" else "false")
    case Decimal(d) => Ok(show(d))
    case Int(i) => Ok(IntToString(i))
    case String(s) => Ok(s)
    case Uncertain(v, _) => Ok(show(v))
    case DataTable(names, data) => TableText(names, data, line, show)
    case _ => Fail("Can't write " + Operations.Render(o) + " to CSV", line)
  }

  /** `format_datatable_csv`: the header, then the rows of the written columns. */
  function TableText(names: seq<string>, data: seq<Object>, line: nat, show: real -> string): Result<string>
    decreases Size(Object.DataTable(names, data)), 2, 0
  {
    if |data| == 0 then Panic(OUT_OF_BOUNDS)
    else if !data[0].Column? then Fail(NOT_A_COLUMN + Operations.Render(data[0]), line)
    else
      var checked := Checked(names, data, 0, line);
      if !checked.Ok? then checked.PropagateFailure()
      else
        var header := Header(names, data);
        WideCellsBelow(data, |data|);
        Cat(Ok(ColumnNames(header, |header|)),
            RowsText(WideData(data, |data|), |data[0].cells|, 0, line, show, Size(Object.DataTable(names, data))))
  }

  /** `format_datatable_csv_data` from row `i` on: each row starts with a newline. */
  function RowsText(wide: seq<Object>, len: nat, i: nat, line: nat, show: real -> string, bound: nat): Result<string>
    requires i <= len && CellsBelow(wide, bound)
    decreases bound, 1, len - i
  {
    if i == len then Ok("")
    else Cat(Cat(Ok("\n"), RowText(wide, i, 0, line, show, bound)), RowsText(wide, len, i + 1, line, show, bound))
  }

  /** Row `i` of `format_datatable_csv_data` from column `idx` on: each cell followed by ", " but the last. */
  function RowText(wide: seq<Object>, i: nat, idx: nat, line: nat, show: real -> string, bound: nat): Result<string>
    requires idx <= |wide| && CellsBelow(wide, bound)
    decreases bound, 0, |wide| - idx
  {
    if idx == |wide| then Ok("")
    else if !wide[idx].Column? then RowText(wide, i, idx + 1, line, show, bound)
    else if i >= |wide[idx].cells| then Panic(OUT_OF_BOUNDS)
    else
      Cat(Cat(CsvText(wide[idx].cells[i], line, show), Ok(if idx < |wide| - 1 then ", " else "")),
          RowText(wide, i, idx + 1, line, show, bound))
  }

  /** `datatable_to_csv`: the host state after `fileout` writes the text of the table, or the error. */
  function WriteTable<W>(cb: Callbacks<W>, w: W, filename: string, table: Object, line: nat, show: real -> string): Result<W>
  {
    if !table.DataTable? then Fail("Expected datatable, found " + Operations.Render(table), line)
    else
      var text :- CsvText(table, line, show);
      match cb.fileout(w, filename, text)
      case None => Fail("Couldn't write to file " + filename, line)
      case Some(w') => Ok(w')
  }

  // ---------------------------------------------------------------------------
  // Writing: the methods of the source, with the in-place inserts.

  /** The element after a prefix `w`, and the sequence cut just after it. */
  lemma SplitAfter<T>(w: seq<T>, rest: seq<T>)
    requires |rest| > 0
    ensures (w + rest)[|w|] == rest[0]
    ensures (w + rest)[..|w| + 1] == w + [rest[0]]
    ensures (w + rest)[|w| + 1..] == rest[1..]
  {
    assert (w + rest)[..|w| + 1] == w + [rest[0]];
    assert (w + rest)[|w| + 1..] == rest[1..];
  }

  /** `name.insert(k + 1, y)` just after the name at index `k`. */
  lemma InsertAfter<T>(w: seq<T>, rest: seq<T>, y: T)
    requires |rest| > 0
    ensures (w + rest)[..|w| + 1] + [y] + (w + rest)[|w| + 1..] == w + [rest[0], y] + rest[1..]
  {
    SplitAfter(w, rest);
    assert w + [rest[0]] + [y] + rest[1..] == w + [rest[0], y] + rest[1..];
  }

  /** `new_data[k] = x; new_data.insert(k + 1, u)` at index `k`. */
  lemma ReplaceInsert<T>(w: seq<T>, rest: seq<T>, x: T, u: T)
    requires |rest| > 0
    ensures var s := (w + rest)[|w| := x]; s[..|w| + 1] + [u] + s[|w| + 1..] == w + [x, u] + rest[1..]
  {
    var s := (w + rest)[|w| := x];
    assert s == w + ([x] + rest[1..]);
    InsertAfter(w, [x] + rest[1..], u);
    assert ([x] + rest[1..])[1..] == rest[1..];
  }

  method FormatForCsv(o: Object, line: nat, show: real -> string) returns (r: Result<string>)
    ensures r == CsvText(o, line, show)
    decreases Size(o), 3, 0
  {
    match o {
      case Boolean(b) => r := Ok(if b then "true" else "false");
      case Decimal(d) => r := Ok(show(d));
      case Int(i) => r := Ok(IntToString(i));
      case String(s) => r := Ok(s);
      case Uncertain(v, _) => r := Ok(show(v));
      case DataTable(names, data) => r := FormatDatatableCsv(names, data, line, show);
      case _ => r := Fail("Can't write " + Operations.Render(o) + " to CSV", line);
    }
  }

  /** The values and the uncertainties of the Uncertain cells of a column: the inner for loop. */
  method SplitColumn(a: seq<Object>) returns (vals: seq<Object>, uncerts: seq<Object>)
    ensures vals == UncertainValues(a) && uncerts == Uncertainties(a)
  {
    vals := [];
    uncerts := [];
    for k := 0 to |a|
      invariant vals == UncertainValues(a[..k]) && uncerts == Uncertainties(a[..k])
    {
      assert a[..k + 1][..k] == a[..k];
      if a[k].Uncertain? {
        vals := vals + [Object.Decimal(a[k].value)];
        uncerts := uncerts + [Object.Decimal(a[k].uncertainty)];
      }
    }
    assert a[..|a|] == a;
  }

  /** One pass of the loop over an Uncertain column `i`: its title and its cells each become two. */
  lemma SplitStep(names: seq<string>, data: seq<Object>, i: nat, added: nat, titles: seq<string>, newData: seq<Object>)
    requires i < |data| && i < |names| && SplitsUncertain(data[i])
    requires newData == WideData(data, i) + data[i..] && |WideData(data, i)| == i + added
    requires titles == WideNames(names, data, i) + names[i..] && |WideNames(names, data, i)| == i + added
    ensures titles[i + added] == names[i]
    ensures titles[..i + added + 1] + ["uncertainty" + names[i]] + titles[i + added + 1..]
         == WideNames(names, data, i + 1) + names[i + 1..]
    ensures var s := newData[i + added := Object.Column(UncertainValues(data[i].cells))];
      s[..i + added + 1] + [Object.Column(Uncertainties(data[i].cells))] + s[i + added + 1..]
      == WideData(data, i + 1) + data[i + 1..]
  {
    SplitAfter(WideNames(names, data, i), names[i..]);
    InsertAfter(WideNames(names, data, i), names[i..], "uncertainty" + names[i]);
    assert names[i..][1..] == names[i + 1..];
    ReplaceInsert(WideData(data, i), data[i..],
      Object.Column(UncertainValues(data[i].cells)), Object.Column(Uncertainties(data[i].cells)));
    assert data[i..][1..] == data[i + 1..];
  }

  /** One pass of the loop over a column `i` that is written as it is. */
  lemma KeepStep(names: seq<string>, data: seq<Object>, i: nat, added: nat, titles: seq<string>, newData: seq<Object>)
    requires i < |data| && !SplitsUncertain(data[i])
    requires newData == WideData(data, i) + data[i..]
    requires titles == WideNames(names, data, i) + names[Min(i, |names|)..]
    ensures newData == WideData(data, i + 1) + data[i + 1..]
    ensures titles == WideNames(names, data, i + 1) + names[Min(i + 1, |names|)..]
  {
    SplitAfter(WideData(data, i), data[i..]);
    assert data[i..][1..] == data[i + 1..];
    if i < |names| {
      SplitAfter(WideNames(names, data, i), names[i..]);
      assert names[i..][1..] == names[i + 1..];
    }
  }

  /** The columns and titles the writer produces, or why it stops. */
  function Widened(names: seq<string>, data: seq<Object>, line: nat): Result<(seq<string>, seq<Object>)>
    requires |data| > 0
  {
    var checked := Checked(names, data, 0, line);
    if !checked.Ok? then checked.PropagateFailure()
    else Ok((Header(names, data), WideData(data, |data|)))
  }

  /**
   * The for loop of `format_datatable_csv`: `names` and `new_data` are
   * updated in place, an Uncertain column replaced by its values, with its
   * uncertainties inserted just after it.
   */
  method WidenColumns(names: seq<string>, data: seq<Object>, line: nat) returns (r: Result<(seq<string>, seq<Object>)>)
    requires |data| > 0
    ensures r == Widened(names, data, line)
  {
    var titles := names;
    var newData := data;
    var added: nat := 0;
    for i := 0 to |data|
      invariant Checked(names, data, i, line) == Checked(names, data, 0, line)
      invariant newData == WideData(data, i) + data[i..]
      invariant titles == WideNames(names, data, i) + names[Min(i, |names|)..]
      invariant |WideData(data, i)| == i + added
      invariant i <= |names| ==> |WideNames(names, data, i)| == i + added
      invariant |titles| == |names| + added
    {
      var col := data[i];
      if !col.Column? {
        return Fail(NOT_A_COLUMN + Operations.Render(data[0]), line);
      }
      var a := col.cells;
      if |a| == 0 {
        return Panic(OUT_OF_BOUNDS);
      }
      if a[0].Uncertain? {
        if i + added >= |titles| {
          assert Checked(names, data, i, line) == Panic(OUT_OF_BOUNDS);
          return Panic(OUT_OF_BOUNDS);
        }
        SplitStep(names, data, i, added, titles, newData);
        titles := titles[..i + added + 1] + ["uncertainty" + titles[i + added]] + titles[i + added + 1..];
        var vals, uncerts := SplitColumn(a);
        newData := newData[i + added := Object.Column(vals)];
        newData := newData[..i + 1 + added] + [Object.Column(uncerts)] + newData[i + 1 + added..];
        added := added + 1;
      } else {
        KeepStep(names, data, i, added, titles, newData);
      }
    }
    assert data[|data|..] == [];
    assert newData == WideData(data, |data|);
    r := Ok((titles, newData));
  }

  /** `format_datatable_csv`. */
  method FormatDatatableCsv(names: seq<string>, data: seq<Object>, line: nat, show: real -> string) returns (r: Result<string>)
    ensures r == TableText(names, data, line, show)
    decreases Size(Object.DataTable(names, data)), 2, 0
  {
    if |data| == 0 {
      return Panic(OUT_OF_BOUNDS);
    }
    if !data[0].Column? {
      return Fail(NOT_A_COLUMN + Operations.Render(data[0]), line);
    }
    var len := |data[0].cells|;
    var widened := WidenColumns(names, data, line);
    if !widened.Ok? {
      return widened.PropagateFailure();
    }
    var (titles, newData) := widened.value;
    var header := FormatDatatableCsvColumnNames(titles, "");
    assert "" + ColumnNames(titles, |titles|) == ColumnNames(titles, |titles|);
    WideCellsBelow(data, |data|);
    r := FormatDatatableCsvData(newData, header.value, len, line, show, Size(Object.DataTable(names, data)));
  }

  /** `format_datatable_csv_data`: the rows of the columns, appended to `str`. */
  method FormatDatatableCsvData(data: seq<Object>, str: string, len: nat, line: nat, show: real -> string, ghost bound: nat)
    returns (r: Result<string>)
    requires CellsBelow(data, bound)
    ensures r == Cat(Ok(str), RowsText(data, len, 0, line, show, bound))
    decreases bound, 1, len
  {
    var s := str;
    for i := 0 to len
      invariant Cat(Ok(s), RowsText(data, len, i, line, show, bound)) == Cat(Ok(str), RowsText(data, len, 0, line, show, bound))
    {
      ghost var rest := RowsText(data, len, i + 1, line, show, bound);
      CatAssoc(Ok(s), Cat(Ok("\n"), RowText(data, i, 0, line, show, bound)), rest);
      CatAssoc(Ok(s), Ok("\n"), RowText(data, i, 0, line, show, bound));
      s := s + "\n";
      for idx := 0 to |data|
        invariant Cat(Cat(Ok(s), RowText(data, i, idx, line, show, bound)), rest)
               == Cat(Ok(str), RowsText(data, len, 0, line, show, bound))
      {
        var column := data[idx];
        if column.Column? {
          if i >= |column.cells| {
            return Panic(OUT_OF_BOUNDS);
          }
          var cell := FormatForCsv(column.cells[i], line, show);
          if !cell.Ok? {
            return cell;
          }
          var sep := if idx < |data| - 1 then ", " else "";
          CatAssoc(Ok(s), Cat(Ok(cell.value), Ok(sep)), RowText(data, i, idx + 1, line, show, bound));
          assert s + (cell.value + sep) == s + cell.value + sep;
          s := s + cell.value + sep;
        }
      }
      assert s + "" == s;
    }
    assert s + "" == s;
    r := Ok(s);
  }

  /** `format_datatable_csv_column_names`: the names appended to `str`, each followed by ", " but the last. */
  method FormatDatatableCsvColumnNames(names: seq<string>, str: string) returns (r: Result<string>)
    ensures r == Ok(str + ColumnNames(names, |names|))
  {
    var s := str;
    for idx := 0 to |names|
      invariant s == str + ColumnNames(names, idx)
    {
      if idx < |names| - 1 {
        s := s + names[idx] + ", ";
      } else {
        s := s + names[idx];
      }
    }
    r := Ok(s);
  }

  /** `datatable_to_csv`. */
  method DatatableToCsv<W>(cb: Callbacks<W>, w: W, filename: string, table: Object, line: nat, show: real -> string)
    returns (r: Result<W>)
    ensures r == WriteTable(cb, w, filename, table, line, show)
  {
    if !table.DataTable? {
      return Fail("Expected datatable, found " + Operations.Render(table), line);
    }
    var text := FormatForCsv(table, line, show);
    if !text.Ok? {
      return text.PropagateFailure();
    }
    var written := cb.fileout(w, filename, text.value);
    if written.None? {
      return Fail("Couldn't write to file " + filename, line);
    }
    r := Ok(written.value);
  }

  // ---------------------------------------------------------------------------
  // What the written text says.

  /** The strings joined by ", ". */
  function Joined(xs: seq<string>): string
  {
    if |xs| == 0 then "" else if |xs| == 1 then xs[0] else xs[0] + ", " + Joined(xs[1..])
  }

  lemma {:induction false} JoinedSnoc(xs: seq<string>, x: string)
    requires |xs| > 0
    ensures Joined(xs + [x]) == Joined(xs) + ", " + x
    decreases |xs|
  {
    if |xs| == 1 {
      assert (xs + [x])[1..] == [x];
    } else {
      assert (xs + [x])[1..] == xs[1..] + [x];
      JoinedSnoc(xs[1..], x);
    }
  }

  lemma {:induction false} ColumnNamesPrefix(names: seq<string>, k: nat)
    requires 1 <= k < |names|
    ensures ColumnNames(names, k) == Joined(names[..k]) + ", "
    decreases k
  {
    if k == 1 {
      assert names[..1] == [names[0]];
    } else {
      ColumnNamesPrefix(names, k - 1);
      JoinedSnoc(names[..k - 1], names[k - 1]);
      assert names[..k - 1] + [names[k - 1]] == names[..k];
    }
  }

  /** The header line is the titles joined by ", ". */
  lemma ColumnNamesJoined(names: seq<string>)
    ensures ColumnNames(names, |names|) == Joined(names)
  {
    if |names| == 1 {
      ColumnNamesSingle(names);
    } else if |names| > 1 {
      ColumnNamesLast(names);
      JoinedLast(names);
    }
  }

  /** A single title is the header line on its own. */
  lemma ColumnNamesSingle(names: seq<string>)
    requires |names| == 1
    ensures ColumnNames(names, 1) == names[0] == Joined(names)
  {
    assert ColumnNames(names, 1) == "" + names[0] + "";
    assert "" + names[0] + "" == names[0];
  }

  /** `Joined` of two or more titles ends with ", " and the last one. */
  lemma JoinedLast(xs: seq<string>)
    requires |xs| > 1
    ensures Joined(xs) == Joined(xs[..|xs| - 1]) + ", " + xs[|xs| - 1]
  {
    var init, last := xs[..|xs| - 1], xs[|xs| - 1];
    assert init + [last] == xs;
    JoinedSnoc(init, last);
  }

  /** The last title follows the others and a ", ", with nothing after it. */
  lemma ColumnNamesLast(names: seq<string>)
    requires |names| > 1
    ensures ColumnNames(names, |names|) == Joined(names[..|names| - 1]) + ", " + names[|names| - 1]
  {
    var n := |names|;
    ColumnNamesPrefix(names, n - 1);
    assert ColumnNames(names, n) == ColumnNames(names, n - 1) + names[n - 1] + "";
    assert ColumnNames(names, n - 1) + names[n - 1] + "" == ColumnNames(names, n - 1) + names[n - 1];
  }

  /**
   * When each written column from `idx` on has a cell in row `i`, and each
   * of those cells has a text, the row is those texts joined by ", ".
   */
  lemma {:induction false} RowJoined(wide: seq<Object>, i: nat, idx: nat, line: nat, show: real -> string, bound: nat, texts: seq<string>)
    requires idx <= |wide| && CellsBelow(wide, bound) && |texts| == |wide|
    requires forall j :: idx <= j < |wide| ==>
      wide[j].Column? && i < |wide[j].cells| && CsvText(wide[j].cells[i], line, show) == Ok(texts[j])
    ensures RowText(wide, i, idx, line, show, bound) == Ok(Joined(texts[idx..]))
    decreases |wide| - idx
  {
    if idx < |wide| {
      RowJoined(wide, i, idx + 1, line, show, bound, texts);
      assert texts[idx..][1..] == texts[idx + 1..];
      if idx == |wide| - 1 {
        assert texts[idx + 1..] == [];
        assert texts[idx] + "" + "" == texts[idx];
      }
    }
  }

  /** The text of a table starts with its header, joined by ", ". */
  lemma TableStartsWithHeader(names: seq<string>, data: seq<Object>, line: nat, show: real -> string)
    requires TableText(names, data, line, show).Ok?
    ensures Joined(Header(names, data)) <= TableText(names, data, line, show).value
  {
    ColumnNamesJoined(Header(names, data));
  }

  /** Uncertain cells are written as their values only: the uncertainty is dropped. */
  lemma UncertainWrittenAsValue(v: real, u: real, line: nat, show: real -> string)
    ensures CsvText(Object.Uncertain(v, u), line, show) == CsvText(Object.Decimal(v), line, show) == Ok(show(v))
  {
  }

  /** Besides tables, only Booleans, Decimals, Ints, Strings and Uncertains have a CSV text; the rest is an error. */
  lemma UnwritableObjects(o: Object, line: nat, show: real -> string)
    requires !o.DataTable?
    ensures CsvText(o, line, show).Ok? <==> o.Boolean? || o.Decimal? || o.Int? || o.String? || o.Uncertain?
    ensures !CsvText(o, line, show).Ok? ==>
      CsvText(o, line, show) == Fail("Can't write " + Operations.Render(o) + " to CSV", line)
  {
  }

  lemma {:induction false} WideUnchanged(names: seq<string>, data: seq<Object>, i: nat)
    requires i <= |data|
    requires forall k :: 0 <= k < i ==> !SplitsUncertain(data[k])
    ensures WideData(data, i) == data[..i]
    ensures WideNames(names, data, i) == names[..Min(i, |names|)]
    decreases i
  {
    if i > 0 {
      WideUnchanged(names, data, i - 1);
      assert data[..i] == data[..i - 1] + [data[i - 1]];
      if i <= |names| {
        assert names[..i] == names[..i - 1] + [names[i - 1]];
      }
    }
  }

  lemma Rejoin<T>(s: seq<T>, m: nat)
    requires m <= |s|
    ensures s[..m] + s[m..] == s
  {
  }

  /** A table without Uncertain columns is written with its own titles and columns. */
  lemma NoUncertainUnchanged(names: seq<string>, data: seq<Object>)
    requires forall k :: 0 <= k < |data| ==> !SplitsUncertain(data[k])
    ensures Header(names, data) == names
    ensures WideData(data, |data|) == data
  {
    WideUnchanged(names, data, |data|);
    assert data[..|data|] == data;
    Rejoin(names, Min(|data|, |names|));
  }

  lemma {:induction false} WidePrefix(names: seq<string>, data: seq<Object>, a: nat, b: nat)
    requires a <= b <= |data|
    ensures WideData(data, a) <= WideData(data, b)
    ensures WideNames(names, data, a) <= WideNames(names, data, b)
    decreases b - a
  {
    if a < b {
      WidePrefix(names, data, a, b - 1);
    }
  }

  lemma {:induction false} WideLengths(names: seq<string>, data: seq<Object>, i: nat)
    requires i <= |data| && i <= |names|
    ensures |WideNames(names, data, i)| == |WideData(data, i)|
    decreases i
  {
    if i > 0 {
      WideLengths(names, data, i - 1);
    }
  }

  /**
   * An Uncertain column is written as the column of its values followed
   * immediately by the column of its uncertainties, titled with its own
   * title and with `uncertainty<title>`.
   */
  lemma SplitPlacement(names: seq<string>, data: seq<Object>, k: nat)
    requires k < |data| && k < |names| && SplitsUncertain(data[k])
    ensures var p := |WideData(data, k)|;
      var wide := WideData(data, |data|);
      var header := Header(names, data);
      p + 1 < |wide| && p + 1 < |header|
      && wide[p] == Object.Column(UncertainValues(data[k].cells))
      && wide[p + 1] == Object.Column(Uncertainties(data[k].cells))
      && header[p] == names[k]
      && header[p + 1] == "uncertainty" + names[k]
  {
    WidePrefix(names, data, k + 1, |data|);
    WideLengths(names, data, k);
    var p := |WideData(data, k)|;
    assert WideData(data, k + 1)[p] == Object.Column(UncertainValues(data[k].cells));
    assert WideData(data, k + 1)[p + 1] == Object.Column(Uncertainties(data[k].cells));
    assert WideNames(names, data, k + 1)[p] == names[k];
    assert WideNames(names, data, k + 1)[p + 1] == "uncertainty" + names[k];
  }

  /** A column of Uncertain cells only is split cell by cell into its values and its uncertainties. */
  lemma {:induction false} AllUncertainSplit(cells: seq<Object>)
    requires forall k :: 0 <= k < |cells| ==> cells[k].Uncertain?
    ensures |UncertainValues(cells)| == |cells| == |Uncertainties(cells)|
    ensures forall k :: 0 <= k < |cells| ==>
      UncertainValues(cells)[k] == Object.Decimal(cells[k].value)
      && Uncertainties(cells)[k] == Object.Decimal(cells[k].uncertainty)
  {
    if |cells| > 0 {
      AllUncertainSplit(cells[..|cells| - 1]);
    }
  }

  /** `datatable_to_csv` fails on anything but a DataTable, and when the host cannot write the file. */
  lemma WriteTableOutcomes<W>(cb: Callbacks<W>, w: W, filename: string, table: Object, line: nat, show: real -> string)
    ensures !table.DataTable? ==>
      WriteTable(cb, w, filename, table, line, show) == Fail("Expected datatable, found " + Operations.Render(table), line)
    ensures table.DataTable? && CsvText(table, line, show).Ok? ==>
      var written := cb.fileout(w, filename, CsvText(table, line, show).value);
      WriteTable(cb, w, filename, table, line, show)
        == if written.Some? then Ok(written.value) else Fail("Couldn't write to file " + filename, line)
  {
  }
}
