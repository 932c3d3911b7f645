/** The tables `DelayModel.preprocess` reads and writes, the one-hot dummy
    columns `pd.get_dummies` builds, the ten selected feature columns, and
    the order in which preprocessing raises. */
module Encoding {
  import opened Wrappers
  import opened Calendar
  import opened Features
  import opened Delay

  /** One input row; `None` stands for a missing (NaN) date cell. */
  datatype Row = Row(opera: string, tipoVuelo: string, mes: int, fechaI: Option<DateTime>, fechaO: Option<DateTime>)

  /** A DataFrame: the names of its columns and its rows. A row's value under
      a column the table lacks is never read. */
  datatype Table = Table(columns: set<string>, rows: seq<Row>)

  /** The columns of the input the core reads. */
  const InputColumns: set<string> := {"OPERA", "TIPOVUELO", "MES", "Fecha-I", "Fecha-O"}

  /** One column of the processed DataFrame, as `processed_data[[name]]` returns it. */
  datatype Column =
    | Texts(texts: seq<string>)
    | Ints(ints: seq<int>)
    | Reals(reals: seq<real>)
    | Stamps(stamps: seq<Option<DateTime>>)
    | Periods(periods: seq<Option<Period>>)

  function ColumnLength(c: Column): nat {
    match c
    case Texts(s) => |s|
    case Ints(s) => |s|
    case Reals(s) => |s|
    case Stamps(s) => |s|
    case Periods(s) => |s|
  }

  /** The feature DataFrame handed to the classifier: column names and rows of 0/1 cells. */
  datatype FeatureTable = FeatureTable(columns: seq<string>, rows: seq<seq<int>>)

  /** The tuple `(features, target)`, or the features alone when `target` is `None`. */
  datatype Preprocessed = Preprocessed(features: FeatureTable, target: Option<Column>)

  // ---------------------------------------------------------------- str(int)

  function DigitChar(n: int): char
    requires 0 <= n < 10
  {
    ('0' as int + n) as char
  }

  function NatDecimal(n: nat): (s: string)
    ensures |s| >= 1 && s[0] != '-'
    decreases n
  {
    if n < 10 then [DigitChar(n)] else NatDecimal(n / 10) + [DigitChar(n % 10)]
  }

  /** Python's `str` of an integer. */
  function Decimal(n: int): string {
    if n < 0 then "-" + NatDecimal(-n) else NatDecimal(n)
  }

  lemma {:induction false} NatDecimalInjective(a: nat, b: nat)
    requires NatDecimal(a) == NatDecimal(b)
    ensures a == b
    decreases a
  {
    var s := NatDecimal(a);
    if a >= 10 && b >= 10 {
      assert s[..|s| - 1] == NatDecimal(a / 10) && s[..|s| - 1] == NatDecimal(b / 10);
      assert s[|s| - 1] == DigitChar(a % 10) == DigitChar(b % 10);
      NatDecimalInjective(a / 10, b / 10);
    }
  }

  /** Distinct months give distinct dummy column names. */
  lemma {:induction false} DecimalInjective(a: int, b: int)
    requires Decimal(a) == Decimal(b)
    ensures a == b
  {
    if a < 0 && b < 0 {
      assert NatDecimal(-a) == Decimal(a)[1..];
      NatDecimalInjective(-a, -b);
    } else if 0 <= a && 0 <= b {
      NatDecimalInjective(a, b);
    }
  }

  // ------------------------------------------------ categories and columns

  /** A category one dummy column stands for. */
  datatype Category = Airline(name: string) | FlightType(code: string) | Month(number: int)

  /** `pd.get_dummies(..., prefix=p)` names a category's column `p + '_' + str(value)`. */
  function ColumnName(c: Category): string {
    match c
    case Airline(name) => "OPERA_" + name
    case FlightType(code) => "TIPOVUELO_" + code
    case Month(m) => "MES_" + Decimal(m)
  }

  predicate Matches(row: Row, c: Category) {
    match c
    case Airline(name) => row.opera == name
    case FlightType(code) => row.tipoVuelo == code
    case Month(m) => row.mes == m
  }

  /** `top_10_features`, in order. */
  const Top10: seq<string> := [
    "OPERA_Latin American Wings",
    "MES_7",
    "MES_10",
    "OPERA_Grupo LATAM",
    "MES_12",
    "TIPOVUELO_I",
    "MES_4",
    "MES_11",
    "OPERA_Sky Airline",
    "OPERA_Copa Air"
  ]

  /** The categories behind `top_10_features`, in the same order. */
  const Top10Categories: seq<Category> := [
    Airline("Latin American Wings"),
    Month(7),
    Month(10),
    Airline("Grupo LATAM"),
    Month(12),
    FlightType("I"),
    Month(4),
    Month(11),
    Airline("Sky Airline"),
    Airline("Copa Air")
  ]

  lemma MonthNames()
    ensures Decimal(4) == "4" && Decimal(7) == "7"
    ensures Decimal(10) == "10" && Decimal(11) == "11" && Decimal(12) == "12"
  {
    assert NatDecimal(1) == "1";
    assert NatDecimal(10) == NatDecimal(1) + "0";
    assert NatDecimal(11) == NatDecimal(1) + "1";
    assert NatDecimal(12) == NatDecimal(1) + "2";
  }

  lemma LatinAmericanWingsNamed()
    ensures ColumnName(Top10Categories[0]) == Top10[0]
  {
  }

  lemma OtherAirlinesNamed()
    ensures ColumnName(Top10Categories[3]) == Top10[3]
    ensures ColumnName(Top10Categories[8]) == Top10[8]
    ensures ColumnName(Top10Categories[9]) == Top10[9]
  {
  }

  lemma Top10Named()
    ensures |Top10| == |Top10Categories| == 10
    ensures forall j :: 0 <= j < 10 ==> ColumnName(Top10Categories[j]) == Top10[j]
  {
    MonthNames();
    LatinAmericanWingsNamed();
    OtherAirlinesNamed();
    assert ColumnName(Top10Categories[5]) == Top10[5];
    assert ColumnName(Top10Categories[1]) == Top10[1];
    assert ColumnName(Top10Categories[2]) == Top10[2];
    assert ColumnName(Top10Categories[4]) == Top10[4];
    assert ColumnName(Top10Categories[6]) == Top10[6];
    assert ColumnName(Top10Categories[7]) == Top10[7];
  }

  /** The value a row has under a dummy column `name` of any of the three prefixes. */
  function Cell(row: Row, name: string): int {
    if || name == "OPERA_" + row.opera
       || name == "TIPOVUELO_" + row.tipoVuelo
       || name == "MES_" + Decimal(row.mes)
    then 1 else 0
  }

  lemma PrefixCancel(p: string, a: string, b: string)
    ensures p + a == p + b <==> a == b
  {
    if p + a == p + b {
      assert a == (p + a)[|p|..];
      assert b == (p + b)[|p|..];
    }
  }

  /** A dummy cell is 1 exactly when the row has that column's category. */
  lemma {:induction false} CellMeaning(row: Row, c: Category)
    ensures Cell(row, ColumnName(c)) == if Matches(row, c) then 1 else 0
  {
    var name := ColumnName(c);
    var o, t, m := "OPERA_" + row.opera, "TIPOVUELO_" + row.tipoVuelo, "MES_" + Decimal(row.mes);
    assert o[0] == 'O' && t[0] == 'T' && m[0] == 'M';
    match c
    case Airline(n) =>
      assert name[0] == 'O';
      PrefixCancel("OPERA_", n, row.opera);
    case FlightType(code) =>
      assert name[0] == 'T';
      PrefixCancel("TIPOVUELO_", code, row.tipoVuelo);
    case Month(k) =>
      assert name[0] == 'M';
      PrefixCancel("MES_", Decimal(k), Decimal(row.mes));
      if Decimal(k) == Decimal(row.mes) {
        DecimalInjective(k, row.mes);
      }
  }

  // ------------------------------------------------------- the feature rows

  /** The selected features of one row, in `top_10_features` order. */
  function EncodeRow(row: Row): (v: seq<int>)
    ensures |v| == |Top10|
  {
    seq(|Top10|, j requires 0 <= j < |Top10| => Cell(row, Top10[j]))
  }

  function Encode(rows: seq<Row>): (m: seq<seq<int>>)
    ensures |m| == |rows|
  {
    seq(|rows|, i requires 0 <= i < |rows| => EncodeRow(rows[i]))
  }

  /** Each of the ten cells is 1 exactly when the row has that column's category. */
  lemma EncodedMeaning(row: Row)
    ensures forall j :: 0 <= j < |Top10| ==>
      EncodeRow(row)[j] == if Matches(row, Top10Categories[j]) then 1 else 0
  {
    Top10Named();
    forall j | 0 <= j < |Top10|
      ensures EncodeRow(row)[j] == if Matches(row, Top10Categories[j]) then 1 else 0
    {
      CellMeaning(row, Top10Categories[j]);
    }
  }

  /** A row sets at most one `OPERA_` column and at most one `MES_` column. */
  lemma AtMostOneAirlineAndMonth(row: Row)
    ensures forall j, k :: 0 <= j < k < |Top10| && Top10Categories[j].Airline? && Top10Categories[k].Airline? ==>
      EncodeRow(row)[j] == 0 || EncodeRow(row)[k] == 0
    ensures forall j, k :: 0 <= j < k < |Top10| && Top10Categories[j].Month? && Top10Categories[k].Month? ==>
      EncodeRow(row)[j] == 0 || EncodeRow(row)[k] == 0
  {
    EncodedMeaning(row);
  }

  /** An airline other than the four selected ones sets no `OPERA_` column. */
  lemma UnknownAirlineIsZero(row: Row)
    requires row.opera !in {"Latin American Wings", "Grupo LATAM", "Sky Airline", "Copa Air"}
    ensures forall j :: 0 <= j < |Top10| && Top10Categories[j].Airline? ==> EncodeRow(row)[j] == 0
  {
    EncodedMeaning(row);
  }

  // -------------------------------------------------------- pd.get_dummies

  /** Column `name` of the dummies of `values`, where `prefix` ends in the separator '_'. */
  function DummyColumn(prefix: string, values: seq<string>, name: string): seq<int> {
    seq(|values|, i requires 0 <= i < |values| => if prefix + values[i] == name then 1 else 0)
  }

  /** `pd.get_dummies(values, prefix=...)`: one column per distinct value present. */
  function Dummies(prefix: string, values: seq<string>): (m: map<string, seq<int>>)
    ensures forall i :: 0 <= i < |values| ==> prefix + values[i] in m
    ensures forall name :: name in m ==> |m[name]| == |values| && exists i :: 0 <= i < |values| && m[name][i] == 1
    ensures forall name :: name in m ==> exists i :: 0 <= i < |values| && name == prefix + values[i]
    ensures forall name :: name in m ==> m[name] == DummyColumn(prefix, values, name)
  {
    var m := map name | name in (set v | v in values :: prefix + v) :: DummyColumn(prefix, values, name);
    assert forall name :: name in m ==> exists i :: 0 <= i < |values| && m[name][i] == 1 by {
      forall name | name in m
        ensures exists i :: 0 <= i < |values| && m[name][i] == 1
      {
        var v :| v in values && name == prefix + v;
        var i :| 0 <= i < |values| && values[i] == v;
        assert m[name][i] == 1;
      }
    }
    assert forall name :: name in m ==> exists i :: 0 <= i < |values| && name == prefix + values[i] by {
      forall name | name in m
        ensures exists i :: 0 <= i < |values| && name == prefix + values[i]
      {
        var v :| v in values && name == prefix + v;
        var i :| 0 <= i < |values| && values[i] == v;
      }
    }
    m
  }

  function Operas(rows: seq<Row>): seq<string> {
    seq(|rows|, i requires 0 <= i < |rows| => rows[i].opera)
  }

  function FlightTypes(rows: seq<Row>): seq<string> {
    seq(|rows|, i requires 0 <= i < |rows| => rows[i].tipoVuelo)
  }

  function MonthTexts(rows: seq<Row>): seq<string> {
    seq(|rows|, i requires 0 <= i < |rows| => Decimal(rows[i].mes))
  }

  /** The `pd.concat` of the three dummy tables. */
  function Wide(rows: seq<Row>): map<string, seq<int>> {
    Dummies("OPERA_", Operas(rows)) + Dummies("TIPOVUELO_", FlightTypes(rows)) + Dummies("MES_", MonthTexts(rows))
  }

  /** The column of `name` cells for every row. */
  function CellColumn(rows: seq<Row>, name: string): seq<int> {
    seq(|rows|, i requires 0 <= i < |rows| => Cell(rows[i], name))
  }

  lemma {:induction false} DummyIsCellColumn(prefix: string, values: seq<string>, rows: seq<Row>, name: string)
    requires |values| == |rows|
    requires forall i :: 0 <= i < |rows| ==> (prefix + values[i] == name <==> Cell(rows[i], name) == 1)
    ensures DummyColumn(prefix, values, name) == CellColumn(rows, name)
  {
  }

  /** Under a name of one prefix, a row's cell is 1 exactly when the row's
      value under that prefix gives the name: the other prefixes start with
      other letters. */
  lemma {:induction false} AirlineCells(rows: seq<Row>, name: string)
    requires |name| > 0 && name[0] == 'O'
    ensures forall i :: 0 <= i < |rows| ==> ("OPERA_" + Operas(rows)[i] == name <==> Cell(rows[i], name) == 1)
  {
    forall i | 0 <= i < |rows|
      ensures "OPERA_" + Operas(rows)[i] == name <==> Cell(rows[i], name) == 1
    {
      assert ("TIPOVUELO_" + rows[i].tipoVuelo)[0] == 'T' && ("MES_" + Decimal(rows[i].mes))[0] == 'M';
    }
  }

  lemma {:induction false} FlightTypeCells(rows: seq<Row>, name: string)
    requires |name| > 0 && name[0] == 'T'
    ensures forall i :: 0 <= i < |rows| ==> ("TIPOVUELO_" + FlightTypes(rows)[i] == name <==> Cell(rows[i], name) == 1)
  {
    forall i | 0 <= i < |rows|
      ensures "TIPOVUELO_" + FlightTypes(rows)[i] == name <==> Cell(rows[i], name) == 1
    {
      assert ("OPERA_" + rows[i].opera)[0] == 'O' && ("MES_" + Decimal(rows[i].mes))[0] == 'M';
    }
  }

  lemma {:induction false} MonthCells(rows: seq<Row>, name: string)
    requires |name| > 0 && name[0] == 'M'
    ensures forall i :: 0 <= i < |rows| ==> ("MES_" + MonthTexts(rows)[i] == name <==> Cell(rows[i], name) == 1)
  {
    forall i | 0 <= i < |rows|
      ensures "MES_" + MonthTexts(rows)[i] == name <==> Cell(rows[i], name) == 1
    {
      assert ("OPERA_" + rows[i].opera)[0] == 'O' && ("TIPOVUELO_" + rows[i].tipoVuelo)[0] == 'T';
    }
  }

  /** Every dummy column of the concatenation holds the one-hot cells of its name. */
  lemma {:induction false} WideCells(rows: seq<Row>, name: string)
    requires name in Wide(rows)
    ensures Wide(rows)[name] == CellColumn(rows, name)
  {
    var ops, tys, ms := Operas(rows), FlightTypes(rows), MonthTexts(rows);
    if name in Dummies("MES_", ms) {
      var v :| v in ms && name == "MES_" + v;
      MonthCells(rows, name);
      DummyIsCellColumn("MES_", ms, rows, name);
    } else if name in Dummies("TIPOVUELO_", tys) {
      var v :| v in tys && name == "TIPOVUELO_" + v;
      FlightTypeCells(rows, name);
      DummyIsCellColumn("TIPOVUELO_", tys, rows, name);
    } else {
      assert name in Dummies("OPERA_", ops);
      var v :| v in ops && name == "OPERA_" + v;
      AirlineCells(rows, name);
      DummyIsCellColumn("OPERA_", ops, rows, name);
    }
  }

  /** The concatenated dummies hold the one-hot cells of their names, and
      every name they lack is all zeros. */
  lemma WideColumns(rows: seq<Row>)
    ensures forall name :: name in Wide(rows) ==> Wide(rows)[name] == CellColumn(rows, name)
    ensures forall name :: name !in Wide(rows) ==> CellColumn(rows, name) == seq(|rows|, i => 0)
  {
    forall name | name in Wide(rows)
      ensures Wide(rows)[name] == CellColumn(rows, name)
    {
      WideCells(rows, name);
    }
    forall name | name !in Wide(rows)
      ensures CellColumn(rows, name) == seq(|rows|, i => 0)
    {
      AbsentCategoryIsZero(rows, name);
    }
  }

  /** A category that no row of the batch has gets no dummy column, and its
      cells are all 0: filling it with zeros is exact. */
  lemma {:induction false} AbsentCategoryIsZero(rows: seq<Row>, name: string)
    requires name !in Wide(rows)
    ensures CellColumn(rows, name) == seq(|rows|, i => 0)
  {
    var ops, tys, ms := Operas(rows), FlightTypes(rows), MonthTexts(rows);
    assert name !in Dummies("OPERA_", ops) && name !in Dummies("TIPOVUELO_", tys) && name !in Dummies("MES_", ms);
    NoDummyNoValue("OPERA_", ops, name);
    NoDummyNoValue("TIPOVUELO_", tys, name);
    NoDummyNoValue("MES_", ms, name);
    ZeroCells(rows, name);
  }

  /** A name that is the dummy name of none of a row's three values has only zero cells. */
  lemma ZeroCells(rows: seq<Row>, name: string)
    requires forall i :: 0 <= i < |rows| ==> "OPERA_" + Operas(rows)[i] != name
    requires forall i :: 0 <= i < |rows| ==> "TIPOVUELO_" + FlightTypes(rows)[i] != name
    requires forall i :: 0 <= i < |rows| ==> "MES_" + MonthTexts(rows)[i] != name
    ensures CellColumn(rows, name) == seq(|rows|, i => 0)
  {
    forall i | 0 <= i < |rows|
      ensures Cell(rows[i], name) == 0
    {
      assert Operas(rows)[i] == rows[i].opera && FlightTypes(rows)[i] == rows[i].tipoVuelo;
      assert MonthTexts(rows)[i] == Decimal(rows[i].mes);
    }
  }

  /** A name with no dummy column is the name of no value. */
  lemma NoDummyNoValue(prefix: string, values: seq<string>, name: string)
    requires name !in Dummies(prefix, values)
    ensures forall i :: 0 <= i < |values| ==> prefix + values[i] != name
  {
  }

  // ------------------------------------------------- errors of preprocessing

  function MissingColumn(name: string): Exception {
    Exception(KeyError, "'" + name + "'")
  }

  /** What `datetime.strptime(cell, '%Y-%m-%d %H:%M:%S')` raises, if anything. */
  function StrptimeError(cell: Option<DateTime>): Option<Exception> {
    match cell
    case None => Some(Exception(TypeError, "strptime() argument 1 must be str, not float"))
    case Some(d) =>
      if WellFormed(d) then None
      else Some(Exception(ValueError, "time data does not match format '%Y-%m-%d %H:%M:%S'"))
  }

  /** The error of the first cell that fails to parse, as `Series.apply` meets it. */
  function FirstParseError(cells: seq<Option<DateTime>>): (r: Option<Exception>)
    ensures r.None? <==> forall i :: 0 <= i < |cells| ==> cells[i].Some? && WellFormed(cells[i].value)
    ensures r.Some? ==> exists i :: (0 <= i < |cells| && r == StrptimeError(cells[i])
      && forall k :: 0 <= k < i ==> StrptimeError(cells[k]).None?)
  {
    if cells == [] then None
    else if StrptimeError(cells[0]).Some? then StrptimeError(cells[0])
    else
      var rest := FirstParseError(cells[1..]);
      assert forall i :: 1 <= i < |cells| ==> cells[i] == cells[1..][i - 1];
      assert rest.Some? ==> exists i :: (0 <= i < |cells| && rest == StrptimeError(cells[i])
        && forall k :: 0 <= k < i ==> StrptimeError(cells[k]).None?) by {
        if rest.Some? {
          var j :| 0 <= j < |cells[1..]| && rest == StrptimeError(cells[1..][j])
            && forall k :: 0 <= k < j ==> StrptimeError(cells[1..][k]).None?;
          assert rest == StrptimeError(cells[j + 1]);
          forall k | 0 <= k < j + 1
            ensures StrptimeError(cells[k]).None?
          {
            if k > 0 {
              assert cells[k] == cells[1..][k - 1];
            }
          }
        }
      }
      rest
  }

  /** What `_is_high_season` raises for one cell: the window bound
      f'15-Dec-{year}' does not parse with '%d-%b-%Y' unless the year has
      four digits. A missing cell never gets here. */
  function YearError(cell: Option<DateTime>): Option<Exception> {
    if cell.Some? && !HighSeasonParses(cell.value) then
      Some(Exception(ValueError, "time data '15-Dec-" + Decimal(cell.value.year) + "' does not match format '%d-%b-%Y'"))
    else None
  }

  /** The error `_is_high_season` raises on the first date whose year does
      not print as four digits. */
  function FirstYearError(cells: seq<Option<DateTime>>): (r: Option<Exception>)
    ensures r.None? <==> forall i :: 0 <= i < |cells| && cells[i].Some? ==> HighSeasonParses(cells[i].value)
    ensures r.Some? ==> r.value.kind == ValueError
    ensures r.Some? ==> exists i :: (0 <= i < |cells| && r == YearError(cells[i])
      && forall k :: 0 <= k < i ==> YearError(cells[k]).None?)
  {
    if cells == [] then None
    else if YearError(cells[0]).Some? then YearError(cells[0])
    else
      var rest := FirstYearError(cells[1..]);
      assert forall i :: 1 <= i < |cells| ==> cells[i] == cells[1..][i - 1];
      assert rest.Some? ==> exists i :: (0 <= i < |cells| && rest == YearError(cells[i])
        && forall k :: 0 <= k < i ==> YearError(cells[k]).None?) by {
        if rest.Some? {
          var j :| 0 <= j < |cells[1..]| && rest == YearError(cells[1..][j])
            && forall k :: 0 <= k < j ==> YearError(cells[1..][k]).None?;
          assert rest == YearError(cells[j + 1]);
          forall k | 0 <= k < j + 1
            ensures YearError(cells[k]).None?
          {
            if k > 0 {
              assert cells[k] == cells[1..][k - 1];
            }
          }
        }
      }
      rest
  }

  function FechaI(rows: seq<Row>): seq<Option<DateTime>> {
    seq(|rows|, i requires 0 <= i < |rows| => rows[i].fechaI)
  }

  function FechaO(rows: seq<Row>): seq<Option<DateTime>> {
    seq(|rows|, i requires 0 <= i < |rows| => rows[i].fechaO)
  }

  /** What `preprocess` raises, in the order it reads the table: the
      'Fecha-I' column, its parse for `period_day`, the window years of
      `high_season`, the 'Fecha-O' parse of `min_diff` when that column
      exists, then the 'OPERA', 'TIPOVUELO' and 'MES' columns. */
  function PreprocessError(t: Table): (r: Option<Exception>)
    ensures r.None? ==> {"Fecha-I", "OPERA", "TIPOVUELO", "MES"} <= t.columns
    ensures "Fecha-I" !in t.columns ==> r == Some(MissingColumn("Fecha-I"))
    ensures r.Some? ==> r.value.kind == KeyError || r.value.kind == TypeError || r.value.kind == ValueError
  {
    if "Fecha-I" !in t.columns then Some(MissingColumn("Fecha-I"))
    else if FirstParseError(FechaI(t.rows)).Some? then FirstParseError(FechaI(t.rows))
    else if FirstYearError(FechaI(t.rows)).Some? then FirstYearError(FechaI(t.rows))
    else if "Fecha-O" in t.columns && FirstParseError(FechaO(t.rows)).Some? then FirstParseError(FechaO(t.rows))
    else if "OPERA" !in t.columns then Some(MissingColumn("OPERA"))
    else if "TIPOVUELO" !in t.columns then Some(MissingColumn("TIPOVUELO"))
    else if "MES" !in t.columns then Some(MissingColumn("MES"))
    else None
  }

  /** Preprocessing raises nothing exactly when the four input columns exist
      and every date it reads is present and parses. */
  lemma {:induction false} PreprocessSucceeds(t: Table)
    ensures PreprocessError(t).None? <==>
      && {"Fecha-I", "OPERA", "TIPOVUELO", "MES"} <= t.columns
      && (forall i :: 0 <= i < |t.rows| ==>
            t.rows[i].fechaI.Some? && WellFormed(t.rows[i].fechaI.value) && HighSeasonParses(t.rows[i].fechaI.value))
      && ("Fecha-O" in t.columns ==>
            forall i :: 0 <= i < |t.rows| ==> t.rows[i].fechaO.Some? && WellFormed(t.rows[i].fechaO.value))
  {
    assert forall i :: 0 <= i < |t.rows| ==> FechaI(t.rows)[i] == t.rows[i].fechaI;
    assert forall i :: 0 <= i < |t.rows| ==> FechaO(t.rows)[i] == t.rows[i].fechaO;
  }

  /** Once preprocessing does not raise, every date it reads is present and parses. */
  lemma {:induction false} DatesParse(t: Table)
    requires PreprocessError(t).None?
    ensures forall i :: 0 <= i < |t.rows| ==> t.rows[i].fechaI.Some? && WellFormed(t.rows[i].fechaI.value)
    ensures forall i :: 0 <= i < |t.rows| ==> HighSeasonParses(t.rows[i].fechaI.value)
    ensures "Fecha-O" in t.columns ==>
      forall i :: 0 <= i < |t.rows| ==> t.rows[i].fechaO.Some? && WellFormed(t.rows[i].fechaO.value)
  {
    assert forall i :: 0 <= i < |t.rows| ==> FechaI(t.rows)[i] == t.rows[i].fechaI;
    assert forall i :: 0 <= i < |t.rows| ==> FechaO(t.rows)[i] == t.rows[i].fechaO;
  }

  // ----------------------------------------------------- the processed table

  /** The columns of `processed_data`: the input's, the two derived ones, and
      `min_diff` and `delay` when 'Fecha-O' is present. */
  function ProcessedColumns(t: Table): (names: set<string>)
    ensures names * InputColumns == t.columns * InputColumns
    ensures "period_day" in names && "high_season" in names
    ensures "min_diff" in names <==> "Fecha-O" in t.columns
    ensures "delay" in names <==> "Fecha-O" in t.columns
  {
    (t.columns * InputColumns) + {"period_day", "high_season"}
    + (if "Fecha-O" in t.columns then {"min_diff", "delay"} else {})
  }

  /** `processed_data[[name]]`. */
  function ProcessedColumn(t: Table, name: string): (c: Column)
    requires PreprocessError(t).None?
    requires name in ProcessedColumns(t)
    ensures ColumnLength(c) == |t.rows|
    ensures name in {"MES", "high_season", "delay"} ==> c.Ints?
    ensures name in {"high_season", "delay"} ==> forall i :: 0 <= i < |c.ints| ==> c.ints[i] == 0 || c.ints[i] == 1
  {
    DatesParse(t);
    var rows := t.rows;
    if name == "OPERA" then Texts(Operas(rows))
    else if name == "TIPOVUELO" then Texts(FlightTypes(rows))
    else if name == "MES" then Ints(seq(|rows|, i requires 0 <= i < |rows| => rows[i].mes))
    else if name == "Fecha-I" then Stamps(FechaI(rows))
    else if name == "Fecha-O" then Stamps(FechaO(rows))
    else if name == "period_day" then
      Periods(seq(|rows|, i requires 0 <= i < |rows| => PeriodDay(rows[i].fechaI.value)))
    else if name == "high_season" then
      Ints(seq(|rows|, i requires 0 <= i < |rows| => IsHighSeason(rows[i].fechaI.value)))
    else if name == "min_diff" then
      Reals(seq(|rows|, i requires 0 <= i < |rows| => MinDiff(rows[i].fechaO.value, rows[i].fechaI.value)))
    else
      Ints(seq(|rows|, i requires 0 <= i < |rows| => DelayLabel(MinDiff(rows[i].fechaO.value, rows[i].fechaI.value))))
  }

  /** The second result of `preprocess`: the named column when a non-empty name
      is given and the processed table has it, else nothing. */
  function TargetOf(t: Table, targetColumn: Option<string>): (r: Option<Column>)
    requires PreprocessError(t).None?
    ensures r.Some? <==> targetColumn.Some? && targetColumn.value != "" && targetColumn.value in ProcessedColumns(t)
    ensures r.Some? ==> r.value == ProcessedColumn(t, targetColumn.value) && ColumnLength(r.value) == |t.rows|
  {
    if targetColumn.Some? && targetColumn.value != "" && targetColumn.value in ProcessedColumns(t)
    then Some(ProcessedColumn(t, targetColumn.value))
    else None
  }

  /** The label column exists exactly when 'Fecha-O' does, and holds one 0/1
      label per row: 1 exactly when the flight left more than 15 minutes late. */
  lemma {:induction false} DelayTarget(t: Table)
    requires PreprocessError(t).None?
    ensures TargetOf(t, Some("delay")).Some? <==> "Fecha-O" in t.columns
    ensures TargetOf(t, Some("delay")).Some? ==>
      var c := TargetOf(t, Some("delay")).value;
      && c.Ints?
      && |c.ints| == |t.rows|
      && forall i :: 0 <= i < |t.rows| ==>
           && t.rows[i].fechaO.Some? && t.rows[i].fechaI.Some?
           && (c.ints[i] == 0 || c.ints[i] == 1)
           && (c.ints[i] == 1 <==> Instant(t.rows[i].fechaO.value) - Instant(t.rows[i].fechaI.value) > 900)
  {
    DatesParse(t);
    if "Fecha-O" in t.columns {
      var c := TargetOf(t, Some("delay")).value;
      forall i | 0 <= i < |t.rows|
        ensures c.ints[i] == 1 <==> Instant(t.rows[i].fechaO.value) - Instant(t.rows[i].fechaI.value) > 900
      {
        DelayThreshold(t.rows[i].fechaO.value, t.rows[i].fechaI.value);
      }
    }
  }
}
