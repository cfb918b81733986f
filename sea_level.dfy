/**
 * The sea-level table of Class_SeaLevel.py and the resolver that answers a
 * year, either from the historical table or from one of four scenario
 * curves.
 *
 * The table is read from already-parsed rows (year, level); the curves
 * `coefficient * year ** exponent` have non-integer exponents, so the power
 * is a parameter `rpow` and only the coefficient, the exponent and the
 * rounding to three decimals are modelled.
 */
module SeaLevelModel {
  import opened Wrappers
  import opened Numerics

  /** One parsed row of the sea-level file: `int(row[0])` and `float(row[1])`. */
  datatype CsvRow = CsvRow(year: int, level: real)

  /**
   * The table after the loader's loop over `rows`, starting from `table`:
   * each row whose year is a multiple of 5 writes its level at its year,
   * a later row overwriting an earlier one.
   */
  function LoadRows(table: map<int, real>, rows: seq<CsvRow>): map<int, real>
  {
    if |rows| == 0 then table
    else
      var before := LoadRows(table, rows[..|rows| - 1]);
      var row := rows[|rows| - 1];
      if row.year % 5 == 0 then before[row.year := row.level] else before
  }

  /** The years the table holds are multiples of 5. */
  predicate KeysMultipleOf5(table: map<int, real>)
  {
    forall y :: y in table ==> y % 5 == 0
  }

  /** Loading row by row: the new row acts on the table the earlier rows left. */
  lemma LoadRowsSnoc(table: map<int, real>, rows: seq<CsvRow>, row: CsvRow)
    ensures LoadRows(table, rows + [row]) == if row.year % 5 == 0 then LoadRows(table, rows)[row.year := row.level] else LoadRows(table, rows)
  {
    assert (rows + [row])[..|rows|] == rows;
  }

  /** Loading only ever adds years that are multiples of 5. */
  lemma {:induction false} LoadKeepsMultiplesOf5(table: map<int, real>, rows: seq<CsvRow>)
    requires KeysMultipleOf5(table)
    ensures KeysMultipleOf5(LoadRows(table, rows))
  {
    if |rows| > 0 {
      LoadKeepsMultiplesOf5(table, rows[..|rows| - 1]);
    }
  }

  /** The years of the rows that the loader keeps. */
  function KeptYears(rows: seq<CsvRow>): set<int>
  {
    set k | 0 <= k < |rows| && rows[k].year % 5 == 0 :: rows[k].year
  }

  lemma KeptYearsSnoc(rows: seq<CsvRow>, row: CsvRow)
    ensures KeptYears(rows + [row]) == if row.year % 5 == 0 then KeptYears(rows) + {row.year} else KeptYears(rows)
  {
    var t := rows + [row];
    forall y | y in KeptYears(t)
      ensures y in (if row.year % 5 == 0 then KeptYears(rows) + {row.year} else KeptYears(rows))
    {
      var k :| 0 <= k < |t| && t[k].year % 5 == 0 && t[k].year == y;
      if k < |rows| {
        assert t[k] == rows[k];
      }
    }
    forall y | y in KeptYears(rows)
      ensures y in KeptYears(t)
    {
      var k :| 0 <= k < |rows| && rows[k].year % 5 == 0 && rows[k].year == y;
      assert t[k] == rows[k];
    }
    if row.year % 5 == 0 {
      assert t[|rows|] == row;
    }
  }

  /** The years after loading are the old ones and the years of the kept rows. */
  lemma {:induction false} LoadKeySet(table: map<int, real>, rows: seq<CsvRow>)
    ensures LoadRows(table, rows).Keys == table.Keys + KeptYears(rows)
  {
    if |rows| > 0 {
      var front, row := rows[..|rows| - 1], rows[|rows| - 1];
      LoadKeySet(table, front);
      assert front + [row] == rows;
      KeptYearsSnoc(front, row);
    }
  }

  /**
   * A year that no kept row names keeps what the table had for it; in
   * particular the rows whose year is not a multiple of 5 change nothing.
   */
  lemma {:induction false} LoadUntouched(table: map<int, real>, rows: seq<CsvRow>, y: int)
    requires forall k :: 0 <= k < |rows| ==> rows[k].year != y || rows[k].year % 5 != 0
    ensures y in LoadRows(table, rows) <==> y in table
    ensures y in table ==> LoadRows(table, rows)[y] == table[y]
  {
    if |rows| > 0 {
      LoadUntouched(table, rows[..|rows| - 1], y);
    }
  }

  /** A year that is not a multiple of 5 is never written, whatever the rows. */
  lemma LoadDropsOtherYears(table: map<int, real>, rows: seq<CsvRow>, y: int)
    requires y % 5 != 0
    ensures y in LoadRows(table, rows) <==> y in table
    ensures y in table ==> LoadRows(table, rows)[y] == table[y]
  {
    LoadUntouched(table, rows, y);
  }

  /** When a year repeats, the last kept row naming it gives the stored level. */
  lemma {:induction false} LoadLastRowWins(table: map<int, real>, rows: seq<CsvRow>, k: nat)
    requires k < |rows| && rows[k].year % 5 == 0
    requires forall j :: k < j < |rows| ==> rows[j].year != rows[k].year
    ensures rows[k].year in LoadRows(table, rows)
    ensures LoadRows(table, rows)[rows[k].year] == rows[k].level
  {
    var front := rows[..|rows| - 1];
    if k < |rows| - 1 {
      assert front[k] == rows[k];
      LoadLastRowWins(table, front, k);
    }
  }

  /** The rows the loop reads: the header is skipped when `jumpFirstLine` holds. */
  function BodyRows(rows: seq<CsvRow>, jumpFirstLine: bool): seq<CsvRow>
    requires jumpFirstLine ==> |rows| > 0
  {
    if jumpFirstLine then rows[1..] else rows
  }

  /** Twice the same non-header rows load to the same table as once: the last write per year wins either way. */
  lemma {:induction false} LoadRowsIdempotent(table: map<int, real>, rows: seq<CsvRow>)
    ensures LoadRows(LoadRows(table, rows), rows) == LoadRows(table, rows)
  {
    LoadKeySet(table, rows);
    LoadKeySet(LoadRows(table, rows), rows);
    forall y | y in LoadRows(table, rows)
      ensures LoadRows(LoadRows(table, rows), rows)[y] == LoadRows(table, rows)[y]
    {
      if k :| 0 <= k < |rows| && rows[k].year == y && y % 5 == 0 {
        var last := LastIndexOf(rows, y, k);
        LoadLastRowWins(table, rows, last);
        LoadLastRowWins(LoadRows(table, rows), rows, last);
      } else {
        LoadUntouched(LoadRows(table, rows), rows, y);
      }
    }
  }

  /** The index of the last row naming `y`, at or after `k`. */
  function LastIndexOf(rows: seq<CsvRow>, y: int, k: nat): (last: nat)
    requires k < |rows| && rows[k].year == y
    ensures k <= last < |rows| && rows[last].year == y
    ensures forall j :: last < j < |rows| ==> rows[j].year != y
    decreases |rows| - k
  {
    if exists j :: k < j < |rows| && rows[j].year == y then
      var j :| k < j < |rows| && rows[j].year == y;
      LastIndexOf(rows, y, j)
    else k
  }

  /** A scenario curve: `coefficient * year ** exponent` rounded to three decimals. */
  function Curve(coefficient: real, exponent: real, year: int, rpow: (real, real) -> real): real
  {
    RoundTo(coefficient * rpow(year as real, exponent), 1000.0)
  }

  /** compute_sea_level_1: `6e-82 * year ** 24.366`. */
  function ComputeSeaLevel1(year: int, rpow: (real, real) -> real): real
  {
    Curve(6.0 / Pow10(82), 24.366, year, rpow)
  }

  /** compute_sea_level_2: `7e-91 * year ** 27.078`. */
  function ComputeSeaLevel2(year: int, rpow: (real, real) -> real): real
  {
    Curve(7.0 / Pow10(91), 27.078, year, rpow)
  }

  /** compute_sea_level_3: `1e-107 * year ** 32.127`. */
  function ComputeSeaLevel3(year: int, rpow: (real, real) -> real): real
  {
    Curve(1.0 / Pow10(107), 32.127, year, rpow)
  }

  /** compute_sea_level_4: `3e-128 * year ** 38.388`. */
  function ComputeSeaLevel4(year: int, rpow: (real, real) -> real): real
  {
    Curve(3.0 / Pow10(128), 38.388, year, rpow)
  }

  /** A curve with a positive coefficient rises with the year wherever the power does. */
  lemma CurveMonotone(coefficient: real, exponent: real, y1: int, y2: int, rpow: (real, real) -> real)
    requires coefficient > 0.0
    requires rpow(y1 as real, exponent) <= rpow(y2 as real, exponent)
    ensures Curve(coefficient, exponent, y1, rpow) <= Curve(coefficient, exponent, y2, rpow)
  {
    assert coefficient * rpow(y1 as real, exponent) <= coefficient * rpow(y2 as real, exponent);
    RoundToMonotone(coefficient * rpow(y1 as real, exponent), coefficient * rpow(y2 as real, exponent), 1000.0);
  }

  lemma PositiveCoefficient(c: real, d: nat)
    requires c > 0.0
    ensures c / Pow10(d) > 0.0
  {
  }

  /** Every scenario's sea level rises with the year wherever the power does. */
  lemma ScenariosRise(y1: int, y2: int, rpow: (real, real) -> real)
    requires rpow(y1 as real, 24.366) <= rpow(y2 as real, 24.366)
    requires rpow(y1 as real, 27.078) <= rpow(y2 as real, 27.078)
    requires rpow(y1 as real, 32.127) <= rpow(y2 as real, 32.127)
    requires rpow(y1 as real, 38.388) <= rpow(y2 as real, 38.388)
    ensures ComputeSeaLevel1(y1, rpow) <= ComputeSeaLevel1(y2, rpow)
    ensures ComputeSeaLevel2(y1, rpow) <= ComputeSeaLevel2(y2, rpow)
    ensures ComputeSeaLevel3(y1, rpow) <= ComputeSeaLevel3(y2, rpow)
    ensures ComputeSeaLevel4(y1, rpow) <= ComputeSeaLevel4(y2, rpow)
  {
    PositiveCoefficient(6.0, 82);
    CurveMonotone(6.0 / Pow10(82), 24.366, y1, y2, rpow);
    PositiveCoefficient(7.0, 91);
    CurveMonotone(7.0 / Pow10(91), 27.078, y1, y2, rpow);
    PositiveCoefficient(1.0, 107);
    CurveMonotone(1.0 / Pow10(107), 32.127, y1, y2, rpow);
    PositiveCoefficient(3.0, 128);
    CurveMonotone(3.0 / Pow10(128), 38.388, y1, y2, rpow);
  }

  /** The sea-level resolver: its table of past levels (year to metres). */
  class SeaLevel {
    var dicoSeaLevel: map<int, real>

    /**
     * `SeaLevel()`: an empty table, then the loader on the contents of the
     * sea-level file with its header skipped.
     */
    constructor(file: seq<CsvRow>)
      ensures |file| > 0 ==> dicoSeaLevel == LoadRows(map[], file[1..])
      ensures |file| == 0 ==> dicoSeaLevel == map[]
    {
      dicoSeaLevel := map[];
      new;
      var ok, dico := LoadDataSeaLevel(file, true);
    }

    /**
     * load_data_sea_level: skips the header when asked, then stores the
     * level of each row whose year is a multiple of 5 and returns the table.
     * An empty file whose header is to be skipped stops at once
     * (`ok` is false) and leaves the table as it was.
     */
    method LoadDataSeaLevel(file: seq<CsvRow>, jumpFirstLine: bool) returns (ok: bool, dico: map<int, real>)
      modifies this
      ensures ok <==> !(jumpFirstLine && |file| == 0)
      ensures ok ==> dicoSeaLevel == LoadRows(old(dicoSeaLevel), BodyRows(file, jumpFirstLine))
      ensures !ok ==> dicoSeaLevel == old(dicoSeaLevel)
      ensures dico == dicoSeaLevel
    {
      if jumpFirstLine && |file| == 0 {
        return false, dicoSeaLevel;
      }
      var rows := BodyRows(file, jumpFirstLine);
      var k := 0;
      while k < |rows|
        invariant 0 <= k <= |rows|
        invariant dicoSeaLevel == LoadRows(old(dicoSeaLevel), rows[..k])
      {
        var row := rows[k];
        assert rows[..k + 1] == rows[..k] + [row];
        LoadRowsSnoc(old(dicoSeaLevel), rows[..k], row);
        if row.year % 5 == 0 {
          dicoSeaLevel := dicoSeaLevel[row.year := row.level];
        }
        k := k + 1;
      }
      assert rows[..k] == rows;
      ok, dico := true, dicoSeaLevel;
    }

    /**
     * retrieve_sea_level: the table's level when it holds the year, for any
     * scenario; otherwise the curve of scenario 1 to 4; otherwise no value
     * at all (the source leaves `sea_level` unbound there). Being a function
     * of the table, it leaves the table as it is.
     */
    function RetrieveSeaLevel(year: int, scenario: int, rpow: (real, real) -> real): (r: Option<real>)
      reads this
      ensures year in dicoSeaLevel ==> r == Some(dicoSeaLevel[year])
      ensures year !in dicoSeaLevel && scenario == 1 ==> r == Some(ComputeSeaLevel1(year, rpow))
      ensures year !in dicoSeaLevel && scenario == 2 ==> r == Some(ComputeSeaLevel2(year, rpow))
      ensures year !in dicoSeaLevel && scenario == 3 ==> r == Some(ComputeSeaLevel3(year, rpow))
      ensures year !in dicoSeaLevel && scenario == 4 ==> r == Some(ComputeSeaLevel4(year, rpow))
      ensures r.None? <==> year !in dicoSeaLevel && !(1 <= scenario <= 4)
    {
      if year in dicoSeaLevel then Some(dicoSeaLevel[year])
      else if scenario == 1 then Some(ComputeSeaLevel1(year, rpow))
      else if scenario == 2 then Some(ComputeSeaLevel2(year, rpow))
      else if scenario == 3 then Some(ComputeSeaLevel3(year, rpow))
      else if scenario == 4 then Some(ComputeSeaLevel4(year, rpow))
      else None
    }
  }

  /** A year read from the file, last row naming it, is answered from the file whatever the scenario. */
  lemma LoadedYearAnswered(s: SeaLevel, file: seq<CsvRow>, k: nat, scenario: int, rpow: (real, real) -> real)
    requires |file| > 0 && s.dicoSeaLevel == LoadRows(map[], file[1..])
    requires 1 <= k < |file| && file[k].year % 5 == 0
    requires forall j :: k < j < |file| ==> file[j].year != file[k].year
    ensures s.RetrieveSeaLevel(file[k].year, scenario, rpow) == Some(file[k].level)
  {
    var rows := file[1..];
    assert rows[k - 1] == file[k];
    forall j | k - 1 < j < |rows|
      ensures rows[j].year != rows[k - 1].year
    {
      assert rows[j] == file[j + 1];
    }
    LoadLastRowWins(map[], rows, k - 1);
  }

  /**
   * The table of a loaded file never holds a year that is not a multiple of
   * 5, so such a year is always answered by the chosen scenario's curve.
   */
  lemma OtherYearsUseCurve(s: SeaLevel, file: seq<CsvRow>, year: int, rpow: (real, real) -> real)
    requires |file| > 0 && s.dicoSeaLevel == LoadRows(map[], file[1..])
    requires year % 5 != 0
    ensures year !in s.dicoSeaLevel
    ensures s.RetrieveSeaLevel(year, 1, rpow) == Some(ComputeSeaLevel1(year, rpow))
    ensures s.RetrieveSeaLevel(year, 2, rpow) == Some(ComputeSeaLevel2(year, rpow))
    ensures s.RetrieveSeaLevel(year, 3, rpow) == Some(ComputeSeaLevel3(year, rpow))
    ensures s.RetrieveSeaLevel(year, 4, rpow) == Some(ComputeSeaLevel4(year, rpow))
    ensures forall scenario :: s.RetrieveSeaLevel(year, scenario, rpow).None? <==> !(1 <= scenario <= 4)
  {
    LoadDropsOtherYears(map[], file[1..], year);
  }
}
