/** Reading values and stocks from the rows of a dump. */
module Getters {
  import opened Basics
  import opened Game
  import opened Rounding
  import opened Text
  import opened Dump

  // ---------------------------------------------------------------------------------------------
  // Getters
  // ---------------------------------------------------------------------------------------------

  function GetI64(row: Row, key: string): Result<int> {
    if key !in row then Err(MissingField(key))
    else
      var n := ParseInt(row[key]);
      if n == None then Err(BadNumber(key)) else Ok(n.value)
  }

  /** A number cut to a narrower width; signed numbers wrap around. */
  function CutI32(n: int): int {
    (n + 0x8000_0000) % 0x1_0000_0000 - 0x8000_0000
  }

  function CutI8(n: int): int {
    (n + 128) % 256 - 128
  }

  function CutU8(n: int): int {
    n % 256
  }

  function GetI32(row: Row, key: string): Result<int> {
    var n :- GetI64(row, key);
    Ok(CutI32(n))
  }

  function GetI16(row: Row, key: string): Result<int> {
    var n :- GetI64(row, key);
    Ok(AsI16(n))
  }

  function GetI8(row: Row, key: string): Result<int> {
    var n :- GetI64(row, key);
    Ok(CutI8(n))
  }

  function GetU8(row: Row, key: string): Result<int> {
    var n :- GetI64(row, key);
    Ok(CutU8(n))
  }

  function CutBits(n: int, limit: int): (r: int)
    requires limit > 0
    ensures 0 <= n < limit ==> r == n
  {
    n % limit
  }

  /** Flags, of which only the lowest bits are defined. */
  function GetFlags(row: Row, key: string, limit: int): Result<int>
    requires limit > 0
  {
    var n :- GetI64(row, key);
    Ok(CutBits(n, limit))
  }

  function GetStr(row: Row, key: string): Result<string> {
    if key in row then Ok(row[key]) else Err(MissingField(key))
  }

  function GetChar(row: Row, key: string): Result<char> {
    var s :- GetStr(row, key);
    Ok(CharOf(s))
  }

  function OrElse<T>(r: Result<T>, default: T): T {
    if r.Ok? then r.value else default
  }

  function GetDec(row: Row, key: string): Result<Level> {
    if key !in row then Err(MissingField(key))
    else
      var v := ParseDecimal(row[key]);
      if v == None then Err(BadNumber(key)) else Ok(v.value)
  }

  predicate IsI32(n: int) { -0x8000_0000 <= n <= 0x7FFF_FFFF }

  predicate IsI16(n: int) { I16_MIN <= n <= I16_MAX }

  predicate IsI8(n: int) { -128 <= n <= 127 }

  predicate IsU8(n: int) { 0 <= n <= 255 }

  /** What the getters find in a row that was written. */
  ghost predicate Found(row: Row, key: string, c: Cell) {
    match c
    case Num(n) => GetI64(row, key) == Ok(n)
    case Str(s) => GetStr(row, key) == Ok(Respaced(s))
    case Letter(c) => GetChar(row, key) == Ok(Relettered(c))
    case Dec(v) => GetDec(row, key) == Ok(ToHundredths(v))
  }

  lemma {:induction false} NumIsFound(row: Row, key: string, n: int)
    requires IsI64(n) && key in row && row[key] == Unquote(ShowInt(n))
    ensures Found(row, key, Num(n))
  {
    ParseShowInt(n);
    hide ShowInt, ParseInt;
  }

  lemma {:induction false} DecIsFound(row: Row, key: string, v: Level)
    requires key in row && row[key] == Unquote(ShowDecimal(v))
    ensures Found(row, key, Dec(v))
  {
    ParseShowDecimal(v);
    hide ShowDecimal, ParseDecimal, ToHundredths;
  }

  /** Every getter finds what was written, but for underscores and dashes. */
  lemma {:induction false} GetterFinds(fields: seq<string>, cells: seq<Cell>, i: nat)
    requires FieldsOk(fields) && RowFits(cells, fields) && i < |cells|
    ensures Found(Reading(fields, cells), fields[i], cells[i])
  {
    hide ParseInt, ParseDecimal, ShowInt, ShowDecimal, RowOf;
    RowAt(fields, Tokens(cells), |fields|, i);
    match cells[i]
    case Num(n) => NumIsFound(Reading(fields, cells), fields[i], n);
    case Str(s) => UnquoteQuote(s);
    case Letter(c) =>
    case Dec(v) => DecIsFound(Reading(fields, cells), fields[i], v);
  }

  /** Numbers that fit their width are not changed by being cut to it. */
  lemma {:induction false} CutsKeep()
    ensures forall n :: IsI32(n) ==> CutI32(n) == n
    ensures forall n :: IsI16(n) ==> AsI16(n) == n
    ensures forall n :: IsI8(n) ==> CutI8(n) == n
    ensures forall n :: IsU8(n) ==> CutU8(n) == n
  {}

  ghost predicate AllFound(row: Row, fields: seq<string>, cells: seq<Cell>) {
    |fields| == |cells| && forall i :: 0 <= i < |cells| ==> Found(row, fields[i], cells[i])
  }

  lemma {:induction false} FoundAt(row: Row, fields: seq<string>, cells: seq<Cell>, i: nat)
    requires AllFound(row, fields, cells) && i < |fields|
    ensures |fields| == |cells| && Found(row, fields[i], cells[i])
  {
    hide Found;
  }

  lemma {:induction false} GettersFind(fields: seq<string>, cells: seq<Cell>)
    requires FieldsOk(fields) && RowFits(cells, fields)
    ensures AllFound(Reading(fields, cells), fields, cells)
  {
    hide Found;
    forall i | 0 <= i < |cells|
      ensures Found(Reading(fields, cells), fields[i], cells[i])
    {
      GetterFinds(fields, cells, i);
    }
  }

  // ---------------------------------------------------------------------------------------------
  // Stocks
  // ---------------------------------------------------------------------------------------------

  const STOCKS := ["civil", "milit", "food", "shell", "gun", "petrol", "iron", "dust", "bar", "lcm", "hcm", "rad"]

  /** The commodity of each column; oil and uncompensated workers have none. */
  const STOCK_ITEMS := [0, 1, 8, 2, 3, 4, 5, 6, 7, 10, 11, 13]

  const OIL := 9

  function StockOf(items: seq<int>, k: int): int {
    if 0 <= k < |items| then items[k] else 0
  }

  function StockCells(items: seq<int>): (r: seq<Cell>)
    ensures |r| == |STOCKS| && forall k :: 0 <= k < |r| ==> r[k] == Num(StockOf(items, STOCK_ITEMS[k]))
  {
    seq(|STOCKS|, k requires 0 <= k < |STOCKS| => Num(StockOf(items, STOCK_ITEMS[k])))
  }

  ghost predicate StocksOk(items: seq<int>) {
    |items| == ITEMS && forall k :: 0 <= k < ITEMS ==> IsI16(items[k])
  }

  /** The stocks found in the first n columns; what is missing stays zero. */
  function StocksFrom(row: Row, n: nat): (r: seq<int>)
    requires n <= |STOCKS|
    ensures |r| == ITEMS
  {
    if n == 0 then seq(ITEMS, _ => 0)
    else
      var prev := StocksFrom(row, n - 1);
      var v := GetI64(row, STOCKS[n - 1]);
      if v.Ok? then prev[STOCK_ITEMS[n - 1] := AsI16(v.value)] else prev
  }

  method InventoryFromRow(row: Row) returns (inv: seq<int>)
    ensures inv == StocksFrom(row, |STOCKS|)
  {
    inv := seq(ITEMS, _ => 0);
    for n := 0 to |STOCKS|
      invariant |inv| == ITEMS && inv == StocksFrom(row, n)
    {
      var v := GetI64(row, STOCKS[n]);
      if v.Ok? {
        inv := inv[STOCK_ITEMS[n] := AsI16(v.value)];
      }
    }
  }

  /** Stocks that were written and read: those without a column are lost. */
  function Restocked(items: seq<int>): seq<int> {
    if |items| == ITEMS then items[OIL := 0][UW := 0] else items
  }

  /** Stocks survive exactly when there is neither oil nor uncompensated workers. */
  lemma {:induction false} RestockedIsSame(items: seq<int>)
    requires |items| == ITEMS
    ensures Restocked(items) == items <==> items[OIL] == 0 && items[UW] == 0
  {
    var r := Restocked(items);
    if items[OIL] == 0 && items[UW] == 0 {
      assert r == items;
    } else {
      assert r[OIL] == 0 && r[UW] == 0;
    }
  }

  lemma {:induction false} StockCellsStay(items: seq<int>)
    requires StocksOk(items)
    ensures StockCells(Restocked(items)) == StockCells(items) && StocksOk(Restocked(items))
  {}

  /** Stocks that were written are read back, up to those without a column. */
  lemma {:induction false} StocksAreFound(row: Row, items: seq<int>, n: nat)
    requires StocksOk(items) && n <= |STOCKS|
    requires forall k :: 0 <= k < |STOCKS| ==> GetI64(row, STOCKS[k]) == Ok(items[STOCK_ITEMS[k]])
    ensures forall k :: 0 <= k < n ==> StocksFrom(row, n)[STOCK_ITEMS[k]] == items[STOCK_ITEMS[k]]
    ensures StocksFrom(row, n)[OIL] == 0 && StocksFrom(row, n)[UW] == 0
  {
    if n > 0 {
      StocksAreFound(row, items, n - 1);
      FitsI16(items[STOCK_ITEMS[n - 1]]);
    }
  }

  lemma {:induction false} StocksAreRestocked(row: Row, items: seq<int>)
    requires StocksOk(items)
    requires forall k :: 0 <= k < |STOCKS| ==> GetI64(row, STOCKS[k]) == Ok(items[STOCK_ITEMS[k]])
    ensures StocksFrom(row, |STOCKS|) == Restocked(items)
  {
    StocksAreFound(row, items, |STOCKS|);
    var r := StocksFrom(row, |STOCKS|);
    assert STOCK_ITEMS[0] == 0 && STOCK_ITEMS[1] == 1 && STOCK_ITEMS[2] == 8 && STOCK_ITEMS[3] == 2
           && STOCK_ITEMS[4] == 3 && STOCK_ITEMS[5] == 4 && STOCK_ITEMS[6] == 5 && STOCK_ITEMS[7] == 6
           && STOCK_ITEMS[8] == 7 && STOCK_ITEMS[9] == 10
           && STOCK_ITEMS[10] == 11 && STOCK_ITEMS[11] == 13;
    forall k | 0 <= k < ITEMS
      ensures r[k] == Restocked(items)[k]
    {}
  }

  /** The stocks written from column `from` on are read back. */
  lemma {:induction false} StocksAreWritten(row: Row, fields: seq<string>, cells: seq<Cell>, from: nat, items: seq<int>)
    requires StocksOk(items)
    requires |fields| == |cells| && from + |STOCKS| <= |cells| && fields[from..from + |STOCKS|] == STOCKS
    requires cells[from..from + |STOCKS|] == StockCells(items)
    requires AllFound(row, fields, cells)
    ensures StocksFrom(row, |STOCKS|) == Restocked(items)
  {
    hide GetI64, StocksFrom, Restocked;
    forall k | 0 <= k < |STOCKS|
      ensures GetI64(row, STOCKS[k]) == Ok(items[STOCK_ITEMS[k]])
    {
      assert Found(row, fields[from + k], cells[from + k]);
      assert fields[from..from + |STOCKS|][k] == STOCKS[k] && cells[from..from + |STOCKS|][k] == StockCells(items)[k];
    }
    StocksAreRestocked(row, items);
  }
}
