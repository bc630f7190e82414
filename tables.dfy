/**
 * Row parsing of `update_all_data` in main.py. A scraped table is the list
 * of its rows, each row the inner texts of its `td` cells. Each of the three
 * scrape steps keeps the rows with enough cells, in order, and maps each of
 * them to a record by fixed column positions.
 */
module Tables {
  import opened Text

  type Row = seq<string>
  type Table = seq<Row>

  /** One association quote of the `/updatepricelist` table. */
  datatype GoldRecord = GoldRecord(
    date: string, time: string,
    bullionBuy: string, bullionSell: string,
    ornamentBuy: string, ornamentSell: string,
    change: string)

  /** One row of the "96.5%" jewelry table; `kind` is the JSON field "type". */
  datatype PercentRecord = PercentRecord(kind: string, buy: string, sell: string)

  /** One row of the jewelry-by-weight table. */
  datatype WeightRecord = WeightRecord(weight: string, price: string, total: string)

  const GoldCells := 10
  const PercentCells := 4
  const WeightCells := 3

  /** The rows having at least `n` cells, in table order. */
  function Kept(rows: Table, n: nat): (r: Table)
    ensures |r| <= |rows|
    ensures forall i :: 0 <= i < |r| ==> |r[i]| >= n
  {
    if rows == [] then []
    else Kept(rows[..|rows| - 1], n) + (if |rows[|rows| - 1]| >= n then [rows[|rows| - 1]] else [])
  }

  /** Appending one row to the table appends it to the kept rows exactly when it is long enough. */
  lemma KeptSnoc(rows: Table, row: Row, n: nat)
    ensures Kept(rows + [row], n) == Kept(rows, n) + (if |row| >= n then [row] else [])
  {
    assert (rows + [row])[..|rows|] == rows;
  }

  /** Filtering is order-preserving: the kept rows of a concatenation are the concatenation of the kept rows. */
  lemma {:induction false} KeptAppend(a: Table, b: Table, n: nat)
    ensures Kept(a + b, n) == Kept(a, n) + Kept(b, n)
    decreases |b|
  {
    if b == [] {
      assert a + b == a;
    } else {
      var init, last := b[..|b| - 1], b[|b| - 1];
      var tail := if |last| >= n then [last] else [];
      assert a + b == (a + init) + [last];
      assert b == init + [last];
      KeptSnoc(a + init, last, n);
      KeptAppend(a, init, n);
      assert Kept(a + b, n) == (Kept(a, n) + Kept(init, n)) + tail;
      KeptSnoc(init, last, n);
      assert Kept(b, n) == Kept(init, n) + tail;
    }
  }

  /** Every kept row is a row of the table. */
  lemma {:induction false} KeptSound(rows: Table, n: nat, x: Row)
    requires x in Kept(rows, n)
    ensures x in rows
    decreases |rows|
  {
    var init, last := rows[..|rows| - 1], rows[|rows| - 1];
    assert rows == init + [last];
    if x != last {
      KeptSound(init, n, x);
    }
  }

  /** Every row that is long enough is kept. */
  lemma {:induction false} KeptComplete(rows: Table, n: nat, x: Row)
    requires x in rows && |x| >= n
    ensures x in Kept(rows, n)
    decreases |rows|
  {
    var init, last := rows[..|rows| - 1], rows[|rows| - 1];
    assert rows == init + [last];
    if x != last {
      KeptComplete(init, n, x);
    }
  }

  /** Nothing is kept exactly when every row is too short. */
  lemma KeptEmptyIff(rows: Table, n: nat)
    ensures Kept(rows, n) == [] <==> forall x :: x in rows ==> |x| < n
  {
    forall x | x in rows && |x| >= n
      ensures Kept(rows, n) != []
    {
      KeptComplete(rows, n, x);
    }
  }

  /**
   * The record of one gold row (lines 78-86): date, time, ornament buy/sell and
   * bullion buy/sell from cells 0, 1, 3, 4, 5, 6, stripped; `change` is cell 9
   * with its line feeds deleted, then stripped.
   */
  function GoldOf(cells: Row): GoldRecord
    requires |cells| >= GoldCells
  {
    GoldRecord(
      date := Strip(cells[0]), time := Strip(cells[1]),
      bullionBuy := Strip(cells[5]), bullionSell := Strip(cells[6]),
      ornamentBuy := Strip(cells[3]), ornamentSell := Strip(cells[4]),
      change := Strip(RemoveAll(cells[9], '\n')))
  }

  /** Every field of a gold record is free of surrounding whitespace, and its `change` holds no line feed. */
  lemma GoldOfClean(cells: Row)
    requires |cells| >= GoldCells
    ensures var r := GoldOf(cells);
      && '\n' !in r.change
      && Trimmed(r.date) && Trimmed(r.time) && Trimmed(r.change)
      && Trimmed(r.bullionBuy) && Trimmed(r.bullionSell) && Trimmed(r.ornamentBuy) && Trimmed(r.ornamentSell)
  {
  }

  /** The record of one percent row (lines 105-109): type, buy, sell from cells 0, 2, 3, stripped. */
  function PercentOf(cells: Row): PercentRecord
    requires |cells| >= PercentCells
  {
    PercentRecord(kind := Strip(cells[0]), buy := Strip(cells[2]), sell := Strip(cells[3]))
  }

  /** The record of one weight row (lines 122-126): weight, price, total from cells 0, 1, 2, stripped. */
  function WeightOf(cells: Row): WeightRecord
    requires |cells| >= WeightCells
  {
    WeightRecord(weight := Strip(cells[0]), price := Strip(cells[1]), total := Strip(cells[2]))
  }

  /**
   * The loop shape shared by the three steps: one record per row having at
   * least `n` cells, built by `build`, in row order.
   */
  function Records<T>(rows: Table, n: nat, build: Row --> T): seq<T>
    requires forall x: Row :: |x| >= n ==> build.requires(x)
  {
    if rows == [] then []
    else
      var last := rows[|rows| - 1];
      Records(rows[..|rows| - 1], n, build) + (if |last| >= n then [build(last)] else [])
  }

  lemma RecordsSnoc<T>(rows: Table, row: Row, n: nat, build: Row --> T)
    requires forall x: Row :: |x| >= n ==> build.requires(x)
    ensures Records(rows + [row], n, build) == Records(rows, n, build) + (if |row| >= n then [build(row)] else [])
  {
    assert (rows + [row])[..|rows|] == rows;
  }

  /** The records are the kept rows, each mapped through `build`: filter first, then map. */
  lemma {:induction false} RecordsOfKept<T>(rows: Table, n: nat, build: Row --> T)
    requires forall x: Row :: |x| >= n ==> build.requires(x)
    ensures var k := Kept(rows, n);
      |Records(rows, n, build)| == |k| && forall i :: 0 <= i < |k| ==> Records(rows, n, build)[i] == build(k[i])
    decreases |rows|
  {
    if rows != [] {
      RecordsOfKept(rows[..|rows| - 1], n, build);
    }
  }

  /** The records of two tables one after the other are the records of each, one after the other. */
  lemma {:induction false} RecordsAppend<T>(a: Table, b: Table, n: nat, build: Row --> T)
    requires forall x: Row :: |x| >= n ==> build.requires(x)
    ensures Records(a + b, n, build) == Records(a, n, build) + Records(b, n, build)
    decreases |b|
  {
    if b == [] {
      assert a + b == a;
    } else {
      var init, last := b[..|b| - 1], b[|b| - 1];
      assert a + b == (a + init) + [last];
      assert b == init + [last];
      RecordsSnoc(a + init, last, n, build);
      RecordsSnoc(init, last, n, build);
      RecordsAppend(a, init, n, build);
    }
  }

  /** Every record is built from some long-enough row of the table, and every long-enough row yields a record. */
  lemma RecordsMembership<T>(rows: Table, n: nat, build: Row --> T)
    requires forall x: Row :: |x| >= n ==> build.requires(x)
    ensures forall r :: r in Records(rows, n, build) ==> exists x :: x in rows && |x| >= n && r == build(x)
    ensures forall x :: x in rows && |x| >= n ==> build(x) in Records(rows, n, build)
  {
    var k := Kept(rows, n);
    RecordsOfKept(rows, n, build);
    forall r | r in Records(rows, n, build)
      ensures exists x :: x in rows && |x| >= n && r == build(x)
    {
      var i :| 0 <= i < |k| && Records(rows, n, build)[i] == r;
      assert k[i] in k;
    }
    forall x | x in rows && |x| >= n
      ensures build(x) in Records(rows, n, build)
    {
      KeptComplete(rows, n, x);
      var i :| 0 <= i < |k| && k[i] == x;
      assert Records(rows, n, build)[i] == build(x);
    }
  }

  /** No record is produced exactly when every row is too short: the case in which the cache keeps its old value. */
  lemma RecordsEmptyIff<T>(rows: Table, n: nat, build: Row --> T)
    requires forall x: Row :: |x| >= n ==> build.requires(x)
    ensures Records(rows, n, build) == [] <==> forall x :: x in rows ==> |x| < n
  {
    RecordsOfKept(rows, n, build);
    KeptEmptyIff(rows, n);
  }

  /** The gold list of lines 73-86, the percent list of lines 100-109, the weight list of lines 117-126. */
  function GoldTable(rows: Table): seq<GoldRecord> {
    Records(rows, GoldCells, GoldOf)
  }

  function PercentTable(rows: Table): seq<PercentRecord> {
    Records(rows, PercentCells, PercentOf)
  }

  function WeightTable(rows: Table): seq<WeightRecord> {
    Records(rows, WeightCells, WeightOf)
  }

  /** Every parsed gold record is clean: a `change` without line feeds and fields without surrounding whitespace. */
  lemma GoldTableClean(rows: Table)
    ensures forall r :: r in GoldTable(rows) ==>
      && '\n' !in r.change && Trimmed(r.change) && Trimmed(r.date) && Trimmed(r.time)
      && Trimmed(r.bullionBuy) && Trimmed(r.bullionSell) && Trimmed(r.ornamentBuy) && Trimmed(r.ornamentSell)
  {
    RecordsMembership(rows, GoldCells, GoldOf);
    forall r | r in GoldTable(rows)
      ensures && '\n' !in r.change && Trimmed(r.change) && Trimmed(r.date) && Trimmed(r.time)
        && Trimmed(r.bullionBuy) && Trimmed(r.bullionSell) && Trimmed(r.ornamentBuy) && Trimmed(r.ornamentSell)
    {
      var x :| x in rows && |x| >= GoldCells && r == GoldOf(x);
      GoldOfClean(x);
    }
  }

  /** The last record comes from the last row having at least `n` cells. */
  lemma RecordsLast<T>(rows: Table, n: nat, build: Row --> T)
    requires forall x: Row :: |x| >= n ==> build.requires(x)
    requires Records(rows, n, build) != []
    ensures var k := Kept(rows, n); var r := Records(rows, n, build);
      k != [] && r[|r| - 1] == build(k[|k| - 1])
  {
    RecordsOfKept(rows, n, build);
  }

  /**
   * The loops of lines 73-86, 100-109 and 117-126: one pass over the rows,
   * appending the record of each row that has at least `n` cells.
   */
  method ParseRows<T>(rows: Table, n: nat, build: Row --> T) returns (temp: seq<T>)
    requires forall x: Row :: |x| >= n ==> build.requires(x)
    ensures temp == Records(rows, n, build)
  {
    temp := [];
    for i := 0 to |rows|
      invariant temp == Records(rows[..i], n, build)
    {
      var cells := rows[i];
      if |cells| >= n {
        temp := temp + [build(cells)];
      }
      assert rows[..i + 1] == rows[..i] + [cells];
      RecordsSnoc(rows[..i], cells, n, build);
    }
    assert rows[..|rows|] == rows;
  }
}
