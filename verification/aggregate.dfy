/**
 * `prepare_data`: from the tokenised CSV rows to the table the charts read.
 *
 * Row 0 is the header; every other row is Province/State, Country/Region, Lat,
 * Long and then one cumulative count per day. The table maps a (country,
 * region) key to either the raw date cells of one row (`Cells`) or day-wise
 * integer sums (`Counts`):
 *   (country, province)  -> that row's cells from column 4 on, as strings
 *   (country, "Total")   -> the day-wise sum over that country's rows
 *   ("Worldwide", "Total") -> the day-wise sum over every row
 *   ("Header", "")       -> the header's date labels
 * The sentinel strings are kept as the program uses them, collisions included.
 */
module Aggregate {
  import opened Wrappers
  import IntParse

  type Row = seq<string>

  datatype Key = Key(country: string, region: string)

  datatype Entry = Cells(cells: seq<string>) | Counts(counts: seq<int>)

  datatype PrepareError =
    | MissingHeader     // no row at all: data[0] fails
    | NotAnInteger      // a date cell that is neither empty nor an integer
    | MissingCountry    // a data row with fewer than two cells: row[1] fails
    | NoDataRows        // only the header: graph_data[0] fails
    | TooManyDateCells  // a row with more date cells than the first data row: totals[j] fails

  const Worldwide: string := "Worldwide"
  const TotalRegion: string := "Total"
  const HeaderKey: Key := Key("Header", "")

  /** Python's `row[4:]`: the date cells, empty for a row of four cells or fewer. */
  function DateCells(row: Row): seq<string>
  {
    if |row| >= 4 then row[4..] else []
  }

  /** `int(d) if d != '' else 0`. */
  function CellValue(d: string): Option<int>
  {
    if d == "" then Some(0) else IntParse.ParseInt(d)
  }

  /** The count a cell adds to a total (only ever used on cells that parse). */
  function CellCount(d: string): int
  {
    if CellValue(d).Some? then CellValue(d).value else 0
  }

  /** The count a row contributes to day `j`; a row with fewer date cells contributes nothing. */
  function CellAt(row: Row, j: nat): int
  {
    if j < |DateCells(row)| then CellCount(DateCells(row)[j]) else 0
  }

  /** One row of `graph_values`: the comprehension that converts a row's date cells. */
  function ParseCells(cells: seq<string>): (r: Option<seq<int>>)
    ensures r.Some? <==> forall j :: 0 <= j < |cells| ==> CellValue(cells[j]).Some?
    ensures r.Some? ==> |r.value| == |cells|
    ensures r.Some? ==> forall j :: 0 <= j < |cells| ==> r.value[j] == CellValue(cells[j]).value
  {
    if cells == [] then Some([])
    else match CellValue(cells[0])
      case None => None
      case Some(v) =>
        match ParseCells(cells[1..])
        case None => None
        case Some(rest) => Some([v] + rest)
  }

  predicate CellsParse(rows: seq<Row>)
  {
    forall i :: 0 <= i < |rows| ==> ParseCells(DateCells(rows[i])).Some?
  }

  predicate HasCountry(rows: seq<Row>)
  {
    forall i :: 0 <= i < |rows| ==> |rows[i]| >= 2
  }

  predicate WithinWidth(rows: seq<Row>, width: nat)
  {
    forall i :: 0 <= i < |rows| ==> |DateCells(rows[i])| <= width
  }

  /** The number of days: the date cells of the first data row. */
  function Width(data: seq<Row>): nat
    requires |data| >= 2
  {
    |DateCells(data[1])|
  }

  /** The exception `prepare_data` raises, checked in the order the program meets them. */
  function Validate(data: seq<Row>): Option<PrepareError>
  {
    if |data| == 0 then Some(MissingHeader)
    else if !CellsParse(data[1..]) then Some(NotAnInteger)
    else if !HasCountry(data[1..]) then Some(MissingCountry)
    else if |data| == 1 then Some(NoDataRows)
    else if !WithinWidth(data[1..], Width(data)) then Some(TooManyDateCells)
    else None
  }

  /** The row test of the aggregation loop: the row's country, or any row for "Worldwide". */
  predicate Matches(c: string, row: Row)
    requires |row| >= 2
  {
    c == row[1] || c == Worldwide
  }

  predicate IsCountry(rows: seq<Row>, c: string)
    requires HasCountry(rows)
  {
    exists i :: 0 <= i < |rows| && rows[i][1] == c
  }

  // ---------------------------------------------------------------------------
  // What the aggregation loop computes for one location country

  /** `totals[j]` after the loop has seen `rows` for location country `c`. */
  function ColumnSum(c: string, rows: seq<Row>, j: nat): int
    requires HasCountry(rows)
  {
    if rows == [] then 0
    else
      var last := rows[|rows| - 1];
      ColumnSum(c, rows[..|rows| - 1], j) + (if Matches(c, last) then CellAt(last, j) else 0)
  }

  function TotalSeries(c: string, rows: seq<Row>, width: nat): (s: seq<int>)
    requires HasCountry(rows)
    ensures |s| == width
  {
    seq(width, j requires 0 <= j < width => ColumnSum(c, rows, j))
  }

  /** The province entries the loop writes for `c`: each matching row in order, later rows overwriting. */
  function Placed(m: map<Key, Entry>, c: string, rows: seq<Row>): map<Key, Entry>
    requires HasCountry(rows)
  {
    if rows == [] then m
    else
      var last := rows[|rows| - 1];
      var before := Placed(m, c, rows[..|rows| - 1]);
      if Matches(c, last) then before[Key(c, last[0]) := Cells(DateCells(last))] else before
  }

  /** The last row the loop for `c` meets with province `p`. */
  function LastRow(c: string, p: string, rows: seq<Row>): (r: Option<Row>)
    requires HasCountry(rows)
    ensures r.Some? ==> |r.value| >= 2 && Matches(c, r.value) && r.value[0] == p
  {
    if rows == [] then None
    else
      var last := rows[|rows| - 1];
      if Matches(c, last) && last[0] == p then Some(last) else LastRow(c, p, rows[..|rows| - 1])
  }

  // ---------------------------------------------------------------------------
  // The table, key by key

  /** The entry for a key other than the header key, over the data rows. */
  function Located(rows: seq<Row>, width: nat, k: Key): Option<Entry>
    requires HasCountry(rows)
  {
    if k.country != Worldwide && !IsCountry(rows, k.country) then None
    else if k.region == TotalRegion then Some(Counts(TotalSeries(k.country, rows, width)))
    else match LastRow(k.country, k.region, rows)
      case None => None
      case Some(r) => Some(Cells(DateCells(r)))
  }

  /** The entry of the finished table for key `k`. */
  function Lookup(data: seq<Row>, k: Key): Option<Entry>
    requires |data| >= 2 && HasCountry(data[1..])
  {
    if k == HeaderKey then Some(Cells(DateCells(data[0])))
    else Located(data[1..], Width(data), k)
  }

  /** `m` is the table of `data`: exactly the keys `Lookup` knows, with its entries. */
  ghost predicate Tabulates(m: map<Key, Entry>, data: seq<Row>)
    requires Validate(data).None?
  {
    (forall k :: k in m <==> Lookup(data, k).Some?) &&
    (forall k :: k in m ==> m[k] == Lookup(data, k).value)
  }

  /** The table restricted to the location countries in `done`, header key aside. */
  ghost predicate Agrees(m: map<Key, Entry>, rows: seq<Row>, width: nat, done: set<string>)
    requires HasCountry(rows)
  {
    (forall k :: k in m <==> k.country in done && Located(rows, width, k).Some?) &&
    (forall k :: k in m ==> m[k] == Located(rows, width, k).value)
  }

  // ---------------------------------------------------------------------------
  // The program

  /**
   * `prepare_data`'s conversion of the date cells: every one converted, or
   * the ValueError of the first one that is not an integer.
   */
  method ParseGraphValues(rows: seq<Row>) returns (values: Option<seq<seq<int>>>)
    ensures values.Some? <==> CellsParse(rows)
    ensures values.Some? ==> |values.value| == |rows|
    ensures values.Some? ==> forall i :: 0 <= i < |rows| ==> Some(values.value[i]) == ParseCells(DateCells(rows[i]))
  {
    var acc: seq<seq<int>> := [];
    var i := 0;
    while i < |rows|
      invariant 0 <= i <= |rows|
      invariant |acc| == i
      invariant forall t :: 0 <= t < i ==> Some(acc[t]) == ParseCells(DateCells(rows[t]))
    {
      var parsed := ParseCells(DateCells(rows[i]));
      if parsed.None? {
        return None;
      }
      acc := acc + [parsed.value];
      i := i + 1;
    }
    return Some(acc);
  }

  /**
   * The inner loop of a visit: add one row's counts into `totals`, day by day.
   * `ok` is false when the row has more date cells than `totals` has slots.
   * It is only called on cells known to convert: `prepare_data` converts
   * every date cell before the visits and has raised ValueError already for
   * one that does not, so `CellCount` is the cell's value here, never the
   * 0 it gives a cell that does not convert.
   */
  method AddRow(totals: array<int>, cells: seq<string>) returns (ok: bool)
    modifies totals
    ensures ok <==> |cells| <= totals.Length
    ensures ok ==> forall t :: 0 <= t < totals.Length ==>
      totals[t] == old(totals[t]) + (if t < |cells| then CellCount(cells[t]) else 0)
  {
    var j := 0;
    while j < |cells|
      invariant 0 <= j <= |cells| && j <= totals.Length
      invariant forall t :: 0 <= t < totals.Length ==>
        totals[t] == old(totals[t]) + (if t < j then CellCount(cells[t]) else 0)
    {
      if j >= totals.Length {
        return false;
      }
      totals[j] := totals[j] + CellCount(cells[j]);
      j := j + 1;
    }
    return true;
  }

  /** Extending the visited rows by row i places that row and adds its counts, when it matches. */
  lemma VisitStep(m: map<Key, Entry>, c: string, rows: seq<Row>, i: nat)
    requires HasCountry(rows) && i < |rows|
    ensures var row := rows[i];
      Placed(m, c, rows[..i + 1]) ==
        (if Matches(c, row) then Placed(m, c, rows[..i])[Key(c, row[0]) := Cells(DateCells(row))]
         else Placed(m, c, rows[..i])) &&
      forall j: nat :: ColumnSum(c, rows[..i + 1], j) ==
        ColumnSum(c, rows[..i], j) + (if Matches(c, row) then CellAt(row, j) else 0)
  {
    assert rows[..i + 1][..i] == rows[..i];
  }

  /**
   * One visit of the location loop of `prepare_data` for location country `c`:
   * rebuild `totals` from zeros, write each matching row's cells under
   * (c, province) and add its counts into `totals`, then store `totals` under
   * (c, "Total"). `ok` is false when a matching row has more date cells than
   * `totals` has slots, where the program raises IndexError.
   */
  method Visit(dict: map<Key, Entry>, rows: seq<Row>, width: nat, c: string)
    returns (result: map<Key, Entry>, ok: bool)
    requires HasCountry(rows)
    ensures ok <==> forall i :: 0 <= i < |rows| && Matches(c, rows[i]) ==> |DateCells(rows[i])| <= width
    ensures ok ==> result == Placed(dict, c, rows)[Key(c, TotalRegion) := Counts(TotalSeries(c, rows, width))]
  {
    var totals := new int[width](_ => 0);
    result := dict;
    var i := 0;
    while i < |rows|
      invariant 0 <= i <= |rows|
      invariant result == Placed(dict, c, rows[..i])
      invariant forall t :: 0 <= t < width ==> totals[t] == ColumnSum(c, rows[..i], t)
      invariant forall t :: 0 <= t < i && Matches(c, rows[t]) ==> |DateCells(rows[t])| <= width
    {
      var row := rows[i];
      VisitStep(dict, c, rows, i);
      if Matches(c, row) {
        result := result[Key(c, row[0]) := Cells(DateCells(row))];
        ok := AddRow(totals, DateCells(row));
        if !ok {
          return;
        }
      }
      i := i + 1;
    }
    assert rows[..i] == rows;
    assert totals[..] == TotalSeries(c, rows, width);
    result := result[Key(c, TotalRegion) := Counts(totals[..])];
    ok := true;
  }

  /** The location countries: column 1 of every data row. */
  ghost function CountrySet(rows: seq<Row>): set<string>
    requires HasCountry(rows)
  {
    set i | 0 <= i < |rows| :: rows[i][1]
  }

  /**
   * The location loop of `prepare_data` without its final "Worldwide" visit:
   * the locations are visited in whatever order the set yields them (the
   * choice below is arbitrary); the outcome is the same for every order.
   */
  method VisitCountries(rows: seq<Row>, width: nat) returns (dict: map<Key, Entry>, ok: bool)
    requires HasCountry(rows)
    ensures ok ==> Agrees(dict, rows, width, CountrySet(rows))
    ensures ok <==> WithinWidth(rows, width)
  {
    var locations := set i | 0 <= i < |rows| :: Key(rows[i][1], rows[i][0]);
    dict := map[];
    var remaining := locations;
    ghost var done: set<string> := {};
    while remaining != {}
      invariant remaining <= locations
      invariant forall l :: l in locations && l !in remaining ==> l.country in done
      invariant forall c :: c in done ==> IsCountry(rows, c)
      invariant Agrees(dict, rows, width, done)
      invariant forall i :: 0 <= i < |rows| && rows[i][1] in done ==> |DateCells(rows[i])| <= width
      decreases remaining
    {
      var loc :| loc in remaining;
      var before := dict;
      dict, ok := Visit(dict, rows, width, loc.country);
      if !ok {
        return;
      }
      VisitAgrees(before, rows, width, done, loc.country);
      done := done + {loc.country};
      remaining := remaining - {loc};
    }
    forall c | c in CountrySet(rows)
      ensures c in done
    {
      var i :| 0 <= i < |rows| && rows[i][1] == c;
      assert Key(rows[i][1], rows[i][0]) in locations;
    }
    assert done == CountrySet(rows);
    assert forall i :: 0 <= i < |rows| ==> rows[i][1] in CountrySet(rows);
    ok := true;
  }

  /**
   * `prepare_data` after the download: the table, or the exception the program
   * raises. Every location country is visited, then "Worldwide", then the
   * header is stored.
   */
  method PrepareData(data: seq<Row>) returns (r: Result<map<Key, Entry>, PrepareError>)
    ensures r.Failure? <==> Validate(data).Some?
    ensures r.Failure? ==> r.error == Validate(data).value
    ensures r.Success? ==> Tabulates(r.value, data)
  {
    if |data| == 0 {
      return Failure(MissingHeader);
    }
    var header := DateCells(data[0]);
    var rows := data[1..];
    var graphValues := ParseGraphValues(rows);
    if graphValues.None? {
      return Failure(NotAnInteger);
    }
    if exists i :: 0 <= i < |rows| && |rows[i]| < 2 {
      return Failure(MissingCountry);
    }
    if |rows| == 0 {
      return Failure(NoDataRows);
    }
    var width := |DateCells(rows[0])|;
    var dict, ok := VisitCountries(rows, width);
    if !ok {
      return Failure(TooManyDateCells);
    }
    var before := dict;
    dict, ok := Visit(dict, rows, width, Worldwide);
    if !ok {
      return Failure(TooManyDateCells);
    }
    VisitAgrees(before, rows, width, CountrySet(rows), Worldwide);
    TabulatesFrom(dict, data);
    return Success(dict[HeaderKey := Cells(header)]);
  }

  /** The visits' table plus the header entry is the table of `data`. */
  lemma TabulatesFrom(m: map<Key, Entry>, data: seq<Row>)
    requires Validate(data).None?
    requires Agrees(m, data[1..], Width(data), CountrySet(data[1..]) + {Worldwide})
    ensures Tabulates(m[HeaderKey := Cells(DateCells(data[0]))], data)
  {
    var rows, width := data[1..], Width(data);
    var table := m[HeaderKey := Cells(DateCells(data[0]))];
    forall k | k != HeaderKey
      ensures k in table <==> Lookup(data, k).Some?
      ensures k in table ==> table[k] == Lookup(data, k).value
    {
      assert Lookup(data, k) == Located(rows, width, k);
      if Located(rows, width, k).Some? && k.country != Worldwide {
        var i :| 0 <= i < |rows| && rows[i][1] == k.country;
        assert k.country in CountrySet(rows);
      }
    }
  }

  // ---------------------------------------------------------------------------
  // Lemmas for the program's proof

  lemma {:induction false} PlacedAt(m: map<Key, Entry>, c: string, rows: seq<Row>, k: Key)
    requires HasCountry(rows)
    ensures k.country != c || LastRow(c, k.region, rows).None? ==>
      (k in Placed(m, c, rows) <==> k in m) && (k in m ==> Placed(m, c, rows)[k] == m[k])
    ensures k.country == c && LastRow(c, k.region, rows).Some? ==>
      k in Placed(m, c, rows) && Placed(m, c, rows)[k] == Cells(DateCells(LastRow(c, k.region, rows).value))
  {
    if rows != [] {
      PlacedAt(m, c, rows[..|rows| - 1], k);
    }
  }

  lemma VisitAgrees(m: map<Key, Entry>, rows: seq<Row>, width: nat, done: set<string>, c: string)
    requires HasCountry(rows)
    requires Agrees(m, rows, width, done)
    requires c == Worldwide || IsCountry(rows, c)
    ensures Agrees(Placed(m, c, rows)[Key(c, TotalRegion) := Counts(TotalSeries(c, rows, width))], rows, width, done + {c})
  {
    var result := Placed(m, c, rows)[Key(c, TotalRegion) := Counts(TotalSeries(c, rows, width))];
    forall k
      ensures k in result <==> k.country in done + {c} && Located(rows, width, k).Some?
      ensures k in result ==> result[k] == Located(rows, width, k).value
    {
      PlacedAt(m, c, rows, k);
    }
  }

  // ---------------------------------------------------------------------------
  // What the table holds

  /**
   * The header key holds the header's date labels, and every day-wise sum has
   * one entry per date cell of the first data row.
   */
  lemma TableShape(data: seq<Row>, k: Key)
    requires Validate(data).None?
    ensures Lookup(data, HeaderKey) == Some(Cells(DateCells(data[0])))
    ensures Lookup(data, k).Some? && Lookup(data, k).value.Counts? ==> |Lookup(data, k).value.counts| == Width(data)
  {
  }

  /** Reference sum: day `j` over the rows whose Country/Region is exactly `c`. */
  function CountrySum(c: string, rows: seq<Row>, j: nat): int
    requires HasCountry(rows)
  {
    if rows == [] then 0
    else (if rows[0][1] == c then CellAt(rows[0], j) else 0) + CountrySum(c, rows[1..], j)
  }

  lemma {:induction false} CountrySumSnoc(c: string, rows: seq<Row>, row: Row, j: nat)
    requires HasCountry(rows) && |row| >= 2
    ensures HasCountry(rows + [row])
    ensures CountrySum(c, rows + [row], j) == CountrySum(c, rows, j) + (if row[1] == c then CellAt(row, j) else 0)
  {
    if rows != [] {
      assert (rows + [row])[1..] == rows[1..] + [row];
      CountrySumSnoc(c, rows[1..], row, j);
    }
  }

  /** For a real country the loop adds exactly that country's rows. */
  lemma {:induction false} ColumnSumOfCountry(c: string, rows: seq<Row>, j: nat)
    requires HasCountry(rows) && c != Worldwide
    ensures ColumnSum(c, rows, j) == CountrySum(c, rows, j)
  {
    if rows != [] {
      var n := |rows| - 1;
      ColumnSumOfCountry(c, rows[..n], j);
      assert rows == rows[..n] + [rows[n]];
      CountrySumSnoc(c, rows[..n], rows[n], j);
    }
  }

  /**
   * (c, "Total") for a country of the data is the day-wise sum of the rows of
   * that country, even when one of its provinces is literally named "Total".
   */
  lemma CountryTotal(data: seq<Row>, c: string)
    requires Validate(data).None?
    requires IsCountry(data[1..], c) && c != Worldwide
    ensures Lookup(data, Key(c, TotalRegion)).Some?
    ensures Lookup(data, Key(c, TotalRegion)).value.Counts?
    ensures var s := Lookup(data, Key(c, TotalRegion)).value.counts;
      |s| == Width(data) && forall j :: 0 <= j < |s| ==> s[j] == CountrySum(c, data[1..], j)
  {
    forall j | 0 <= j < Width(data)
      ensures ColumnSum(c, data[1..], j) == CountrySum(c, data[1..], j)
    {
      ColumnSumOfCountry(c, data[1..], j);
    }
  }

  /** The distinct countries of the rows, in order of first appearance. */
  function Countries(rows: seq<Row>): (cs: seq<string>)
    requires HasCountry(rows)
    ensures forall c :: c in cs <==> IsCountry(rows, c)
    ensures forall a, b :: 0 <= a < b < |cs| ==> cs[a] != cs[b]
  {
    if rows == [] then []
    else
      var n := |rows| - 1;
      var before := Countries(rows[..n]);
      assert forall c :: IsCountry(rows, c) <==> IsCountry(rows[..n], c) || rows[n][1] == c by {
        forall c | IsCountry(rows, c) ensures IsCountry(rows[..n], c) || rows[n][1] == c {
          var i :| 0 <= i < |rows| && rows[i][1] == c;
          if i < n { assert rows[..n][i] == rows[i]; }
        }
        forall c | IsCountry(rows[..n], c) ensures IsCountry(rows, c) {
          var i :| 0 <= i < n && rows[..n][i][1] == c;
          assert rows[i][1] == c;
        }
      }
      if rows[n][1] in before then before else before + [rows[n][1]]
  }

  /** The reference sums of the countries `cs`, added up. */
  function SumOver(cs: seq<string>, rows: seq<Row>, j: nat): int
    requires HasCountry(rows)
  {
    if cs == [] then 0 else SumOver(cs[..|cs| - 1], rows, j) + CountrySum(cs[|cs| - 1], rows, j)
  }

  lemma {:induction false} SumOverSnoc(cs: seq<string>, rows: seq<Row>, row: Row, j: nat)
    requires HasCountry(rows) && |row| >= 2
    requires forall a, b :: 0 <= a < b < |cs| ==> cs[a] != cs[b]
    ensures HasCountry(rows + [row])
    ensures SumOver(cs, rows + [row], j) == SumOver(cs, rows, j) + (if row[1] in cs then CellAt(row, j) else 0)
  {
    CountrySumSnoc("", rows, row, j);
    if cs != [] {
      var n := |cs| - 1;
      SumOverSnoc(cs[..n], rows, row, j);
      CountrySumSnoc(cs[n], rows, row, j);
      assert cs == cs[..n] + [cs[n]];
      assert row[1] in cs <==> row[1] in cs[..n] || row[1] == cs[n];
      assert !(row[1] in cs[..n] && row[1] == cs[n]);
    }
  }

  lemma {:induction false} CountrySumAbsent(c: string, rows: seq<Row>, j: nat)
    requires HasCountry(rows) && !IsCountry(rows, c)
    ensures CountrySum(c, rows, j) == 0
  {
    if rows != [] {
      assert !IsCountry(rows[1..], c) by {
        forall i | 0 <= i < |rows| - 1
          ensures rows[1..][i][1] != c
        {
          assert rows[1..][i] == rows[i + 1];
        }
      }
      CountrySumAbsent(c, rows[1..], j);
    }
  }

  /** The loop for "Worldwide" adds every row, and that is the sum of the per-country sums. */
  lemma {:induction false} WorldwideIsSumOfCountries(rows: seq<Row>, j: nat)
    requires HasCountry(rows)
    ensures ColumnSum(Worldwide, rows, j) == SumOver(Countries(rows), rows, j)
  {
    if rows != [] {
      var n := |rows| - 1;
      var before := rows[..n];
      var row := rows[n];
      assert rows == before + [row];
      WorldwideIsSumOfCountries(before, j);
      var cs := Countries(before);
      SumOverSnoc(cs, before, row, j);
      if row[1] !in cs {
        CountrySumAbsent(row[1], before, j);
        CountrySumSnoc(row[1], before, row, j);
        assert (cs + [row[1]])[..|cs|] == cs;
      }
    }
  }

  /** Day `j` of the table's (c, "Total") entry, 0 when there is none. */
  function TotalAt(data: seq<Row>, c: string, j: nat): int
    requires |data| >= 2 && HasCountry(data[1..])
  {
    match Lookup(data, Key(c, TotalRegion))
    case Some(Counts(s)) => if j < |s| then s[j] else 0
    case _ => 0
  }

  /** The table's Total entries of the countries `cs`, added up for day `j`. */
  function SumTotals(data: seq<Row>, cs: seq<string>, j: nat): int
    requires |data| >= 2 && HasCountry(data[1..])
  {
    if cs == [] then 0 else SumTotals(data, cs[..|cs| - 1], j) + TotalAt(data, cs[|cs| - 1], j)
  }

  /**
   * ("Worldwide", "Total") is the day-wise sum over every data row; when no
   * country is itself named "Worldwide", that is the sum of every country's
   * (c, "Total") entry.
   */
  lemma WorldwideTotal(data: seq<Row>)
    requires Validate(data).None?
    ensures Lookup(data, Key(Worldwide, TotalRegion)).Some?
    ensures Lookup(data, Key(Worldwide, TotalRegion)).value.Counts?
    ensures var s := Lookup(data, Key(Worldwide, TotalRegion)).value.counts;
      |s| == Width(data) &&
      (forall j :: 0 <= j < |s| ==> s[j] == SumOver(Countries(data[1..]), data[1..], j)) &&
      (!IsCountry(data[1..], Worldwide) ==>
        forall j :: 0 <= j < |s| ==> s[j] == SumTotals(data, Countries(data[1..]), j))
  {
    var rows := data[1..];
    var s := TotalSeries(Worldwide, rows, Width(data));
    forall j | 0 <= j < |s|
      ensures s[j] == SumOver(Countries(rows), rows, j)
      ensures !IsCountry(rows, Worldwide) ==> s[j] == SumTotals(data, Countries(rows), j)
    {
      WorldwideIsSumOfCountries(rows, j);
      if !IsCountry(rows, Worldwide) {
        forall c | c in Countries(rows)
          ensures TotalAt(data, c, j) == CountrySum(c, rows, j)
        {
          TotalAtCountry(data, c, j);
        }
        SumTotalsOfCountries(data, Countries(rows), j);
      }
    }
  }

  /** Adding up the table's Total entries adds up the reference sums, when they agree country by country. */
  lemma {:induction false} SumTotalsOfCountries(data: seq<Row>, cs: seq<string>, j: nat)
    requires |data| >= 2 && HasCountry(data[1..])
    requires forall c :: c in cs ==> TotalAt(data, c, j) == CountrySum(c, data[1..], j)
    ensures SumTotals(data, cs, j) == SumOver(cs, data[1..], j)
  {
    if cs != [] {
      var n := |cs| - 1;
      assert cs[n] in cs;
      assert forall c :: c in cs[..n] ==> c in cs;
      SumTotalsOfCountries(data, cs[..n], j);
    }
  }

  lemma TotalAtCountry(data: seq<Row>, c: string, j: nat)
    requires Validate(data).None?
    requires IsCountry(data[1..], c) && c != Worldwide && j < Width(data)
    ensures TotalAt(data, c, j) == CountrySum(c, data[1..], j)
  {
    CountryTotal(data, c);
  }

  lemma {:induction false} LastRowIs(c: string, rows: seq<Row>, i: nat)
    requires HasCountry(rows) && i < |rows| && Matches(c, rows[i])
    requires forall t :: i < t < |rows| ==> !(Matches(c, rows[t]) && rows[t][0] == rows[i][0])
    ensures LastRow(c, rows[i][0], rows) == Some(rows[i])
  {
    var n := |rows| - 1;
    if i < n {
      assert rows[..n][i] == rows[i];
      LastRowIs(c, rows[..n], i);
    }
  }

  /**
   * A row's cells are stored under (location country, province) unless a later
   * row of the same location country has the same province; the location
   * country is the row's own country or "Worldwide", which takes every row.
   * The (c, "Total") and ("Header", "") keys are overwritten afterwards.
   */
  lemma ProvinceEntry(data: seq<Row>, i: nat, c: string)
    requires Validate(data).None?
    requires 1 <= i < |data|
    requires c == data[i][1] || c == Worldwide
    requires data[i][0] != TotalRegion && Key(c, data[i][0]) != HeaderKey
    requires forall t :: i < t < |data| ==> !((c == data[t][1] || c == Worldwide) && data[t][0] == data[i][0])
    ensures Lookup(data, Key(c, data[i][0])) == Some(Cells(DateCells(data[i])))
  {
    var rows := data[1..];
    assert rows[i - 1] == data[i];
    forall t | i - 1 < t < |rows|
      ensures !(Matches(c, rows[t]) && rows[t][0] == rows[i - 1][0])
    {
      assert rows[t] == data[t + 1];
    }
    LastRowIs(c, rows, i - 1);
  }
}
