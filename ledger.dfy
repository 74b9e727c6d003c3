/**
 * The two ledger parsers, `parseOrders` (main.go:192-223) and `parseItems`
 * (main.go:227-266), and the record lookup they share, `getOrAddOrder`
 * (main.go:322-338).
 *
 * Both parsers keep only rows whose "Order Status" is exactly "Shipped",
 * fetch or create one record per "Order ID" (its date parsed from the first
 * retained row of that order) and then parse the money columns of the row.
 * The orders file adds its four amounts to the record; the items file builds
 * an item from the row, adds its tax and total to the record and appends it.
 *
 * The records are values held in a map; each parser is a method whose loop
 * is proved equal to the fold `Scan`, and the properties of the parsers are
 * lemmas about `Scan`.
 */
module Ledger {
  import opened Wrappers
  import opened Money
  import opened Table

  /** The calendar date of an order. */
  datatype Date = Date(year: int, month: int, day: int)

  /** The two cell parsers the ledger parsers apply: `parseDate`
      (main.go:341-347), which wraps `time.ParseInLocation` and is not part
      of this model, and `parseMoney`, which the pipeline instantiates with
      `Money.ParseMoney`. The fold and its properties hold for any pair. */
  datatype Parsers = Parsers(date: string -> Option<Date>, money: MoneyParser)

  type MoneyParser = (string, bool) -> Result<int, MoneyError>

  /** `itemDetail` (main.go:177-182). */
  datatype Item = Item(title: string, seller: string, subTotalTax: int, itemTotal: int)

  /** `orderDetail` (main.go:158-165). */
  datatype Order = Order(
    date: Date,
    shippingCharge: int,
    totalPromotions: int,
    taxCharged: int,
    totalCharged: int,
    items: seq<Item>)

  /** Why a file is rejected. */
  datatype ParseError =
    | MissingColumns(columns: seq<string>)
    | BadDate(text: string)
    | BadAmount(column: string, text: string, cause: MoneyError)

  /** Which export a row comes from. */
  datatype Source = Orders | Items

  const OrderDate := "Order Date"
  const OrderID := "Order ID"
  const OrderStatus := "Order Status"
  const ShippingCharge := "Shipping Charge"
  const TotalPromotions := "Total Promotions"
  const TaxCharged := "Tax Charged"
  const TotalCharged := "Total Charged"
  const Title := "Title"
  const Seller := "Seller"
  const ItemSubtotalTax := "Item Subtotal Tax"
  const ItemTotal := "Item Total"
  const Shipped := "Shipped"

  /** The columns each export must have. */
  function RequiredColumns(src: Source): seq<string>
  {
    match src
    case Orders => [OrderStatus, OrderID, OrderDate, ShippingCharge, TotalPromotions, TaxCharged, TotalCharged]
    case Items => [OrderStatus, OrderID, OrderDate, Title, Seller, ItemSubtotalTax, ItemTotal]
  }

  /** The money columns of a row, in the order they are parsed. */
  function AmountColumns(src: Source): seq<string>
  {
    match src
    case Orders => [ShippingCharge, TotalPromotions, TaxCharged, TotalCharged]
    case Items => [ItemSubtotalTax, ItemTotal]
  }

  /** Amounts are charges and are negated, except the orders file's
      promotions, which are already credits. */
  predicate Inverted(src: Source, col: string)
  {
    match src
    case Orders => col != TotalPromotions
    case Items => true
  }

  lemma RequiredColumnsDistinct(src: Source)
    ensures Distinct(RequiredColumns(src))
  {
  }

  /** A cell of a projected row; a row too short to reach the column reads
      as the empty string, as a missing key of a Go map does. */
  function Field(row: Row, col: string): string
  {
    if col in row then row[col] else ""
  }

  function Id(row: Row): string
  {
    Field(row, OrderID)
  }

  predicate Retained(row: Row)
  {
    Field(row, OrderStatus) == Shipped
  }

  function NewOrder(date: Date): Order
  {
    Order(date, 0, 0, 0, 0, [])
  }

  /** `getOrAddOrder`: the record of the row's order, created with the
      row's date when the order is new. */
  function GetOrAddOrder(details: map<string, Order>, row: Row, p: Parsers): (r: Result<map<string, Order>, ParseError>)
    ensures r.Err? <==> Id(row) !in details && p.date(Field(row, OrderDate)).None?
    ensures r.Err? ==> r.error == BadDate(Field(row, OrderDate))
    ensures r.Ok? ==> r.value.Keys == details.Keys + {Id(row)}
    ensures r.Ok? ==> forall oid :: oid in details ==> r.value[oid] == details[oid]
    ensures r.Ok? && Id(row) !in details ==> r.value[Id(row)] == NewOrder(p.date(Field(row, OrderDate)).value)
  {
    var oid := Id(row);
    if oid in details then Ok(details)
    else match p.date(Field(row, OrderDate))
      case None => Err(BadDate(Field(row, OrderDate)))
      case Some(date) => Ok(details[oid := NewOrder(date)])
  }

  /** The amount a cell denotes, or 0 for a cell that does not parse. */
  function Amount(src: Source, row: Row, col: string, money: MoneyParser): int
  {
    match money(Field(row, col), Inverted(src, col))
    case Ok(v) => v
    case Err(_) => 0
  }

  /** Column `k` is the first of `cols` whose cell does not parse, and `e`
      reports it. */
  predicate FirstBadAmount(src: Source, row: Row, cols: seq<string>, k: int, e: ParseError, money: MoneyParser)
  {
    && 0 <= k < |cols|
    && (forall j :: 0 <= j < k ==> money(Field(row, cols[j]), Inverted(src, cols[j])).Ok?)
    && var m := money(Field(row, cols[k]), Inverted(src, cols[k]));
      m.Err? && e == BadAmount(cols[k], Field(row, cols[k]), m.error)
  }

  /** The money columns `cols` of a row, parsed in order; the first one that
      does not parse is reported. */
  function ParseAmounts(src: Source, row: Row, cols: seq<string>, money: MoneyParser): (r: Result<seq<int>, ParseError>)
    ensures r.Ok? <==> forall k :: 0 <= k < |cols| ==> money(Field(row, cols[k]), Inverted(src, cols[k])).Ok?
    ensures r.Ok? ==> |r.value| == |cols| && forall k :: 0 <= k < |cols| ==> r.value[k] == Amount(src, row, cols[k], money)
    decreases |cols|
  {
    if cols == [] then Ok([])
    else
      var init := cols[..|cols| - 1];
      var col := cols[|cols| - 1];
      assert forall j :: 0 <= j < |init| ==> init[j] == cols[j];
      match ParseAmounts(src, row, init, money)
      case Err(e) => Err(e)
      case Ok(vs) =>
        match money(Field(row, col), Inverted(src, col))
        case Err(m) => Err(BadAmount(col, Field(row, col), m))
        case Ok(v) => Ok(vs + [v])
  }

  /** A failure names the first column that does not parse. */
  lemma {:induction false} ParseAmountsReportsFirst(src: Source, row: Row, cols: seq<string>, money: MoneyParser)
    requires ParseAmounts(src, row, cols, money).Err?
    ensures exists k :: FirstBadAmount(src, row, cols, k, ParseAmounts(src, row, cols, money).error, money)
    decreases |cols|
  {
    var init := cols[..|cols| - 1];
    var col := cols[|cols| - 1];
    var e := ParseAmounts(src, row, cols, money).error;
    if ParseAmounts(src, row, init, money).Err? {
      ParseAmountsReportsFirst(src, row, init, money);
      var k :| FirstBadAmount(src, row, init, k, e, money);
      assert FirstBadAmount(src, row, cols, k, e, money);
    } else {
      assert FirstBadAmount(src, row, cols, |cols| - 1, e, money);
    }
  }

  lemma {:induction false} ParseAmountsFailsEarly(src: Source, row: Row, cols: seq<string>, k: nat, money: MoneyParser)
    requires k <= |cols| && ParseAmounts(src, row, cols[..k], money).Err?
    ensures ParseAmounts(src, row, cols, money) == ParseAmounts(src, row, cols[..k], money)
    decreases |cols|
  {
    if k < |cols| {
      var init := cols[..|cols| - 1];
      assert init[..k] == cols[..k];
      ParseAmountsFailsEarly(src, row, init, k, money);
    } else {
      assert cols[..k] == cols;
    }
  }

  /** One retained row applied to its order's record. */
  function Accumulate(src: Source, od: Order, row: Row, money: MoneyParser): Result<Order, ParseError>
  {
    match ParseAmounts(src, row, AmountColumns(src), money)
    case Err(e) => Err(e)
    case Ok(vs) =>
      match src
      case Orders =>
        Ok(od.(shippingCharge := od.shippingCharge + vs[0],
               totalPromotions := od.totalPromotions + vs[1],
               taxCharged := od.taxCharged + vs[2],
               totalCharged := od.totalCharged + vs[3]))
      case Items =>
        var item := Item(Field(row, Title), Field(row, Seller), vs[0], vs[1]);
        Ok(od.(taxCharged := od.taxCharged + item.subTotalTax,
               totalCharged := od.totalCharged + item.itemTotal,
               items := od.items + [item]))
  }

  /** A row of the orders file adds each of its amounts to the record's
      running totals and leaves the rest of the record alone. */
  lemma AccumulateOrders(od: Order, row: Row, money: MoneyParser)
    requires ParseAmounts(Orders, row, AmountColumns(Orders), money).Ok?
    ensures Accumulate(Orders, od, row, money).Ok?
    ensures var od' := Accumulate(Orders, od, row, money).value;
      && od'.date == od.date
      && od'.items == od.items
      && od'.shippingCharge == od.shippingCharge + Amount(Orders, row, ShippingCharge, money)
      && od'.totalPromotions == od.totalPromotions + Amount(Orders, row, TotalPromotions, money)
      && od'.taxCharged == od.taxCharged + Amount(Orders, row, TaxCharged, money)
      && od'.totalCharged == od.totalCharged + Amount(Orders, row, TotalCharged, money)
  {
    var cols := AmountColumns(Orders);
    assert cols[0] == ShippingCharge && cols[1] == TotalPromotions && cols[2] == TaxCharged && cols[3] == TotalCharged;
  }

  /** A row of the items file appends its item to the record and adds the
      item's tax and total to the record's. */
  lemma AccumulateItems(od: Order, row: Row, money: MoneyParser)
    requires ParseAmounts(Items, row, AmountColumns(Items), money).Ok?
    ensures Accumulate(Items, od, row, money).Ok?
    ensures var od' := Accumulate(Items, od, row, money).value;
      && od'.date == od.date
      && od'.shippingCharge == od.shippingCharge
      && od'.totalPromotions == od.totalPromotions
      && od'.items == od.items + [RowItem(row, money)]
      && od'.taxCharged == od.taxCharged + RowItem(row, money).subTotalTax
      && od'.totalCharged == od.totalCharged + RowItem(row, money).itemTotal
  {
    var cols := AmountColumns(Items);
    assert cols[0] == ItemSubtotalTax && cols[1] == ItemTotal;
  }

  /** One iteration of the row loop of either parser: a row that has not
      shipped is skipped; a shipped row fails exactly when its order is new
      and its date does not parse, or one of its money cells does not parse,
      and otherwise changes only its own order's record. */
  function Step(src: Source, details: map<string, Order>, row: Row, p: Parsers): (r: Result<map<string, Order>, ParseError>)
    ensures !Retained(row) ==> r == Ok(details)
    ensures Retained(row) ==>
      (r.Ok? <==> (Id(row) in details || p.date(Field(row, OrderDate)).Some?)
                  && ParseAmounts(src, row, AmountColumns(src), p.money).Ok?)
    ensures r.Ok? ==>
      && r.value.Keys == details.Keys + (if Retained(row) then {Id(row)} else {})
      && forall oid :: oid in details && oid != Id(row) ==> r.value[oid] == details[oid]
  {
    if !Retained(row) then Ok(details)
    else
      match GetOrAddOrder(details, row, p)
      case Err(e) => Err(e)
      case Ok(d) =>
        match Accumulate(src, d[Id(row)], row, p.money)
        case Err(e) => Err(e)
        case Ok(od) => Ok(d[Id(row) := od])
  }

  /** The records built from the projected rows, or the first error; the
      orders that get a record are exactly those of the retained rows. */
  function Scan(src: Source, rows: seq<Row>, p: Parsers): (r: Result<map<string, Order>, ParseError>)
    ensures r.Ok? ==> r.value.Keys == RetainedIds(rows)
    decreases |rows|
  {
    if rows == [] then Ok(map[])
    else
      RetainedIdsNext(rows);
      match Scan(src, rows[..|rows| - 1], p)
      case Err(e) => Err(e)
      case Ok(d) => Step(src, d, rows[|rows| - 1], p)
  }

  /* ---------------------------------------------------------------------
   * The parsers
   * ------------------------------------------------------------------- */

  /** The amount loop of `parseOrders` (main.go:213-220): each money column
      is parsed and added to the record's running total; the first column
      that does not parse ends the loop with its error. */
  method AddOrderAmounts(od: Order, row: Row, money: MoneyParser) returns (r: Result<Order, ParseError>)
    ensures r == Accumulate(Orders, od, row, money)
  {
    var cols := [ShippingCharge, TotalPromotions, TaxCharged, TotalCharged];
    assert cols == AmountColumns(Orders);
    var amounts := [od.shippingCharge, od.totalPromotions, od.taxCharged, od.totalCharged];
    ghost var base := amounts;
    for k := 0 to |cols|
      invariant |amounts| == 4
      invariant ParseAmounts(Orders, row, cols[..k], money).Ok?
      invariant forall j :: 0 <= j < k ==> amounts[j] == base[j] + Amount(Orders, row, cols[j], money)
      invariant forall j :: k <= j < 4 ==> amounts[j] == base[j]
    {
      var col := cols[k];
      assert cols[..k + 1][..k] == cols[..k];
      var n := money(Field(row, col), col != TotalPromotions);
      if n.Err? {
        assert ParseAmounts(Orders, row, cols[..k + 1], money) == Err(BadAmount(col, Field(row, col), n.error));
        ParseAmountsFailsEarly(Orders, row, cols, k + 1, money);
        assert Accumulate(Orders, od, row, money) == Err(BadAmount(col, Field(row, col), n.error));
        return Err(BadAmount(col, Field(row, col), n.error));
      }
      amounts := amounts[k := amounts[k] + n.value];
    }
    assert cols[..|cols|] == cols;
    AccumulateOrders(od, row, money);
    assert amounts[0] == od.shippingCharge + Amount(Orders, row, ShippingCharge, money);
    assert amounts[1] == od.totalPromotions + Amount(Orders, row, TotalPromotions, money);
    assert amounts[2] == od.taxCharged + Amount(Orders, row, TaxCharged, money);
    assert amounts[3] == od.totalCharged + Amount(Orders, row, TotalCharged, money);
    r := Ok(od.(shippingCharge := amounts[0], totalPromotions := amounts[1],
                taxCharged := amounts[2], totalCharged := amounts[3]));
    assert r.value == Accumulate(Orders, od, row, money).value;
  }

  /** The item part of the row loop of `parseItems` (main.go:245-262): the
      row's item with its two amounts, appended to the record, whose tax and
      total grow by the item's. */
  method AddItem(od: Order, row: Row, money: MoneyParser) returns (r: Result<Order, ParseError>)
    ensures r == Accumulate(Items, od, row, money)
  {
    var cols := [ItemSubtotalTax, ItemTotal];
    assert cols == AmountColumns(Items);
    var amounts := [0, 0];
    for k := 0 to |cols|
      invariant |amounts| == 2
      invariant ParseAmounts(Items, row, cols[..k], money).Ok?
      invariant forall j :: 0 <= j < k ==> amounts[j] == Amount(Items, row, cols[j], money)
    {
      var col := cols[k];
      assert cols[..k + 1][..k] == cols[..k];
      var n := money(Field(row, col), true);
      if n.Err? {
        assert ParseAmounts(Items, row, cols[..k + 1], money) == Err(BadAmount(col, Field(row, col), n.error));
        ParseAmountsFailsEarly(Items, row, cols, k + 1, money);
        return Err(BadAmount(col, Field(row, col), n.error));
      }
      amounts := amounts[k := n.value];
    }
    assert cols[..|cols|] == cols;
    var item := Item(Field(row, Title), Field(row, Seller), amounts[0], amounts[1]);
    AccumulateItems(od, row, money);
    return Ok(od.(taxCharged := od.taxCharged + item.subTotalTax,
                  totalCharged := od.totalCharged + item.itemTotal,
                  items := od.items + [item]));
  }

  /** `parseOrders` on a tokenized file: the missing columns, or the fold of
      the projected rows. */
  method ParseOrders(header: seq<string>, body: seq<seq<string>>, p: Parsers) returns (r: Result<map<string, Order>, ParseError>)
    ensures (exists c :: c in RequiredColumns(Orders) && c !in header) ==>
      && r.Err? && r.error.MissingColumns?
      && Sorted(r.error.columns) && Distinct(r.error.columns)
      && forall c :: c in r.error.columns <==> c in RequiredColumns(Orders) && c !in header
    ensures (forall c :: c in RequiredColumns(Orders) ==> c in header) ==>
      r == Scan(Orders, Projected(header, body, RequiredColumns(Orders)), p)
  {
    RequiredColumnsDistinct(Orders);
    var table := ProjectTable(header, body, RequiredColumns(Orders));
    if table.Err? {
      return Err(MissingColumns(table.error));
    }
    var rows := table.value;
    var details: map<string, Order> := map[];
    for i := 0 to |rows|
      invariant Scan(Orders, rows[..i], p) == Ok(details)
    {
      var row := rows[i];
      ScanNext(Orders, rows, i, p);
      if Field(row, OrderStatus) != Shipped {
        continue;
      }
      var got := GetOrAddOrder(details, row, p);
      if got.Err? {
        ScanFailsEarly(Orders, rows, i + 1, p);
        return Err(got.error);
      }
      details := got.value;
      var acc := AddOrderAmounts(details[Id(row)], row, p.money);
      if acc.Err? {
        ScanFailsEarly(Orders, rows, i + 1, p);
        return Err(acc.error);
      }
      details := details[Id(row) := acc.value];
    }
    assert rows[..|rows|] == rows;
    return Ok(details);
  }

  /** `parseItems` on a tokenized file: the missing columns, or the fold of
      the projected rows. */
  method ParseItems(header: seq<string>, body: seq<seq<string>>, p: Parsers) returns (r: Result<map<string, Order>, ParseError>)
    ensures (exists c :: c in RequiredColumns(Items) && c !in header) ==>
      && r.Err? && r.error.MissingColumns?
      && Sorted(r.error.columns) && Distinct(r.error.columns)
      && forall c :: c in r.error.columns <==> c in RequiredColumns(Items) && c !in header
    ensures (forall c :: c in RequiredColumns(Items) ==> c in header) ==>
      r == Scan(Items, Projected(header, body, RequiredColumns(Items)), p)
  {
    RequiredColumnsDistinct(Items);
    var table := ProjectTable(header, body, RequiredColumns(Items));
    if table.Err? {
      return Err(MissingColumns(table.error));
    }
    var rows := table.value;
    var details: map<string, Order> := map[];
    for i := 0 to |rows|
      invariant Scan(Items, rows[..i], p) == Ok(details)
    {
      var row := rows[i];
      ScanNext(Items, rows, i, p);
      if Field(row, OrderStatus) != Shipped {
        continue;
      }
      var got := GetOrAddOrder(details, row, p);
      if got.Err? {
        ScanFailsEarly(Items, rows, i + 1, p);
        return Err(got.error);
      }
      details := got.value;
      var acc := AddItem(details[Id(row)], row, p.money);
      if acc.Err? {
        ScanFailsEarly(Items, rows, i + 1, p);
        return Err(acc.error);
      }
      details := details[Id(row) := acc.value];
    }
    assert rows[..|rows|] == rows;
    return Ok(details);
  }

  /* ---------------------------------------------------------------------
   * Properties of the fold
   * ------------------------------------------------------------------- */

  /** The fold over one more row. */
  lemma ScanNext(src: Source, rows: seq<Row>, i: nat, p: Parsers)
    requires i < |rows|
    ensures Scan(src, rows[..i], p).Err? ==> Scan(src, rows[..i + 1], p) == Scan(src, rows[..i], p)
    ensures Scan(src, rows[..i], p).Ok? ==>
      Scan(src, rows[..i + 1], p) == Step(src, Scan(src, rows[..i], p).value, rows[i], p)
  {
    assert rows[..i + 1][..i] == rows[..i];
  }

  /** The first error ends the parse: later rows change nothing. */
  lemma {:induction false} ScanFailsEarly(src: Source, rows: seq<Row>, i: nat, p: Parsers)
    requires i <= |rows| && Scan(src, rows[..i], p).Err?
    ensures Scan(src, rows, p) == Scan(src, rows[..i], p)
    decreases |rows|
  {
    if i < |rows| {
      var init := rows[..|rows| - 1];
      assert init[..i] == rows[..i];
      ScanFailsEarly(src, init, i, p);
    } else {
      assert rows[..i] == rows;
    }
  }

  /** The retained rows, in file order. */
  function ShippedRows(rows: seq<Row>): (r: seq<Row>)
    ensures |r| <= |rows|
    ensures forall k :: 0 <= k < |r| ==> Retained(r[k])
    decreases |rows|
  {
    if rows == [] then []
    else
      var init := ShippedRows(rows[..|rows| - 1]);
      if Retained(rows[|rows| - 1]) then init + [rows[|rows| - 1]] else init
  }

  /** Rows that have not shipped contribute nothing: dropping them first
      gives the same records and the same errors, so none of their dates or
      amounts is ever parsed. */
  lemma {:induction false} ScanIgnoresUnshipped(src: Source, rows: seq<Row>, p: Parsers)
    ensures Scan(src, rows, p) == Scan(src, ShippedRows(rows), p)
    decreases |rows|
  {
    if rows != [] {
      var init := rows[..|rows| - 1];
      var last := rows[|rows| - 1];
      ScanIgnoresUnshipped(src, init, p);
      if Retained(last) {
        var s := ShippedRows(init) + [last];
        assert s[..|s| - 1] == ShippedRows(init);
      }
    }
  }

  /** One step of the fold touches only the record of the row's order, and
      only when the row is retained. */
  lemma StepFacts(src: Source, d: map<string, Order>, row: Row, p: Parsers)
    requires Step(src, d, row, p).Ok?
    ensures var d' := Step(src, d, row, p).value;
      && d'.Keys == d.Keys + (if Retained(row) then {Id(row)} else {})
      && (forall oid :: oid in d && (oid != Id(row) || !Retained(row)) ==> d'[oid] == d[oid])
      && (Retained(row) ==>
            && GetOrAddOrder(d, row, p).Ok?
            && Accumulate(src, GetOrAddOrder(d, row, p).value[Id(row)], row, p.money) == Ok(d'[Id(row)]))
  {
  }

  /** The order IDs of the retained rows. */
  function RetainedIds(rows: seq<Row>): set<string>
  {
    set i | 0 <= i < |rows| && Retained(rows[i]) :: Id(rows[i])
  }

  lemma RetainedIdsNext(rows: seq<Row>)
    requires rows != []
    ensures var last := rows[|rows| - 1];
      RetainedIds(rows) == RetainedIds(rows[..|rows| - 1]) + (if Retained(last) then {Id(last)} else {})
  {
    var init := rows[..|rows| - 1];
    forall oid | oid in RetainedIds(init) ensures oid in RetainedIds(rows) {
      var i :| 0 <= i < |init| && Retained(init[i]) && Id(init[i]) == oid;
      assert rows[i] == init[i];
    }
    forall oid | oid in RetainedIds(rows) && oid !in RetainedIds(init) ensures Retained(rows[|rows| - 1]) && oid == Id(rows[|rows| - 1]) {
      var i :| 0 <= i < |rows| && Retained(rows[i]) && Id(rows[i]) == oid;
    }
  }

  /** Row `i` is the first retained row of its order. */
  predicate FirstOfOrder(rows: seq<Row>, i: int)
  {
    && 0 <= i < |rows|
    && Retained(rows[i])
    && forall k :: 0 <= k < i ==> !(Retained(rows[k]) && Id(rows[k]) == Id(rows[i]))
  }

  /** Accumulating a row never changes the record's date. */
  lemma AccumulateKeepsDate(src: Source, od: Order, row: Row, money: MoneyParser)
    requires Accumulate(src, od, row, money).Ok?
    ensures Accumulate(src, od, row, money).value.date == od.date
  {
  }

  /** An order's date is the one parsed from its first retained row. */
  lemma {:induction false} ScanDate(src: Source, rows: seq<Row>, p: Parsers, i: int)
    requires Scan(src, rows, p).Ok? && FirstOfOrder(rows, i)
    ensures Id(rows[i]) in Scan(src, rows, p).value
    ensures p.date(Field(rows[i], OrderDate)) == Some(Scan(src, rows, p).value[Id(rows[i])].date)
    decreases |rows|
  {
    var init := rows[..|rows| - 1];
    assert Scan(src, init, p).Ok?;
    if i < |rows| - 1 {
      assert forall k :: 0 <= k <= i ==> init[k] == rows[k];
      assert FirstOfOrder(init, i);
      ScanDate(src, init, p, i);
      LaterRowKeepsDate(src, rows, p, Id(rows[i]));
    } else {
      LastFirstOfOrder(src, rows, p);
      NewOrderDate(src, rows, p);
    }
  }

  /** A further row leaves the date of an existing record alone. */
  lemma LaterRowKeepsDate(src: Source, rows: seq<Row>, p: Parsers, oid: string)
    requires rows != [] && Scan(src, rows, p).Ok? && Scan(src, rows[..|rows| - 1], p).Ok?
    requires oid in Scan(src, rows[..|rows| - 1], p).value
    ensures oid in Scan(src, rows, p).value
    ensures Scan(src, rows, p).value[oid].date == Scan(src, rows[..|rows| - 1], p).value[oid].date
  {
    var d := Scan(src, rows[..|rows| - 1], p).value;
    var last := rows[|rows| - 1];
    assert Scan(src, rows, p) == Step(src, d, last, p);
    if Retained(last) && Id(last) == oid {
      AccumulateKeepsDate(src, d[oid], last, p.money);
    }
  }

  /** A row that opens a new record gives it the row's date. */
  lemma NewOrderDate(src: Source, rows: seq<Row>, p: Parsers)
    requires rows != [] && Scan(src, rows, p).Ok? && Scan(src, rows[..|rows| - 1], p).Ok?
    requires Retained(rows[|rows| - 1]) && Id(rows[|rows| - 1]) !in Scan(src, rows[..|rows| - 1], p).value
    ensures Id(rows[|rows| - 1]) in Scan(src, rows, p).value
    ensures p.date(Field(rows[|rows| - 1], OrderDate)) == Some(Scan(src, rows, p).value[Id(rows[|rows| - 1])].date)
  {
    var d := Scan(src, rows[..|rows| - 1], p).value;
    var last := rows[|rows| - 1];
    assert Scan(src, rows, p) == Step(src, d, last, p);
    var g := GetOrAddOrder(d, last, p).value;
    AccumulateKeepsDate(src, g[Id(last)], last, p.money);
  }

  /** Row `i` parses, if it is retained: its date when it is the first
      retained row of its order, and all its money cells. */
  predicate RowParses(src: Source, rows: seq<Row>, i: int, p: Parsers)
    requires 0 <= i < |rows|
  {
    Retained(rows[i]) ==>
      && (FirstOfOrder(rows, i) ==> p.date(Field(rows[i], OrderDate)).Some?)
      && ParseAmounts(src, rows[i], AmountColumns(src), p.money).Ok?
  }

  /** A row keeps whether it parses when more rows follow it. */
  lemma RowParsesPrefix(src: Source, rows: seq<Row>, p: Parsers)
    requires rows != []
    ensures var init := rows[..|rows| - 1];
      forall i :: 0 <= i < |init| ==> (RowParses(src, init, i, p) <==> RowParses(src, rows, i, p))
  {
    var init := rows[..|rows| - 1];
    assert forall k :: 0 <= k < |init| ==> init[k] == rows[k];
    assert forall i :: 0 <= i < |init| ==> (FirstOfOrder(init, i) <==> FirstOfOrder(rows, i));
  }

  /** The IDs of the retained rows are exactly the IDs some retained row
      carries. */
  lemma NotRetained(rows: seq<Row>, oid: string)
    requires oid !in RetainedIds(rows)
    ensures forall i :: 0 <= i < |rows| && Retained(rows[i]) ==> Id(rows[i]) != oid
  {
    forall i | 0 <= i < |rows| && Retained(rows[i]) ensures Id(rows[i]) != oid {
      assert Id(rows[i]) in RetainedIds(rows);
    }
  }

  /** The last row is the first of its order exactly when the records of the
      rows before it do not have the order. */
  lemma LastFirstOfOrder(src: Source, rows: seq<Row>, p: Parsers)
    requires rows != [] && Retained(rows[|rows| - 1])
    requires Scan(src, rows[..|rows| - 1], p).Ok?
    ensures Id(rows[|rows| - 1]) !in Scan(src, rows[..|rows| - 1], p).value <==> FirstOfOrder(rows, |rows| - 1)
  {
    var init := rows[..|rows| - 1];
    var last := rows[|rows| - 1];
    if Id(last) in Scan(src, init, p).value {
      var k :| 0 <= k < |init| && Retained(init[k]) && Id(init[k]) == Id(last);
      assert rows[k] == init[k];
    } else {
      NotRetained(init, Id(last));
      assert forall k :: 0 <= k < |init| ==> init[k] == rows[k];
    }
  }

  /** The parse succeeds exactly when every retained row parses: its date
      when it is the first retained row of its order, and all its money
      cells. A bad date in a later row of the order, and any cell of a row
      that has not shipped, is never looked at. */
  lemma {:induction false} ScanSucceeds(src: Source, rows: seq<Row>, p: Parsers)
    ensures Scan(src, rows, p).Ok? <==> forall i :: 0 <= i < |rows| ==> RowParses(src, rows, i, p)
    decreases |rows|
  {
    if rows != [] {
      var init := rows[..|rows| - 1];
      var n := |rows| - 1;
      ScanSucceeds(src, init, p);
      RowParsesPrefix(src, rows, p);
      assert (forall i :: 0 <= i < |rows| ==> RowParses(src, rows, i, p)) <==>
        (forall i :: 0 <= i < n ==> RowParses(src, init, i, p)) && RowParses(src, rows, n, p);
      if Scan(src, init, p).Ok? {
        assert Scan(src, rows, p) == Step(src, Scan(src, init, p).value, rows[n], p);
        if Retained(rows[n]) {
          LastFirstOfOrder(src, rows, p);
        }
      }
    }
  }

  /** A step parses a date only for a retained row of an order without a
      record. */
  lemma StepSameDates(src: Source, d: map<string, Order>, row: Row, p1: Parsers, p2: Parsers)
    requires p1.money == p2.money
    requires Retained(row) && Id(row) !in d ==> p1.date(Field(row, OrderDate)) == p2.date(Field(row, OrderDate))
    ensures Step(src, d, row, p1) == Step(src, d, row, p2)
  {
  }

  /** Only the first retained row of each order has its date parsed: two
      date parsers that agree on those rows give the same outcome. */
  lemma {:induction false} ScanDatesOnlyFirst(src: Source, rows: seq<Row>, p1: Parsers, p2: Parsers)
    requires p1.money == p2.money
    requires forall i :: FirstOfOrder(rows, i) ==> p1.date(Field(rows[i], OrderDate)) == p2.date(Field(rows[i], OrderDate))
    ensures Scan(src, rows, p1) == Scan(src, rows, p2)
    decreases |rows|
  {
    if rows != [] {
      var init := rows[..|rows| - 1];
      var last := rows[|rows| - 1];
      assert forall k :: 0 <= k < |init| ==> init[k] == rows[k];
      forall i | FirstOfOrder(init, i) ensures p1.date(Field(init[i], OrderDate)) == p2.date(Field(init[i], OrderDate)) {
        assert FirstOfOrder(rows, i);
      }
      ScanDatesOnlyFirst(src, init, p1, p2);
      var s := Scan(src, init, p1);
      if s.Ok? {
        if Retained(last) && Id(last) !in s.value {
          forall k | 0 <= k < |rows| - 1 ensures !(Retained(rows[k]) && Id(rows[k]) == Id(last)) {
            assert rows[k] == init[k];
          }
          assert FirstOfOrder(rows, |rows| - 1);
        }
        StepSameDates(src, s.value, last, p1, p2);
      }
    }
  }

  /* ---------------------------------------------------------------------
   * What the records hold
   * ------------------------------------------------------------------- */

  /** The sum of one money column over the retained rows of one order. */
  function ColumnSum(src: Source, rows: seq<Row>, oid: string, col: string, money: MoneyParser): int
    decreases |rows|
  {
    if rows == [] then 0
    else
      var last := rows[|rows| - 1];
      ColumnSum(src, rows[..|rows| - 1], oid, col, money)
        + (if Retained(last) && Id(last) == oid then Amount(src, last, col, money) else 0)
  }

  /** An order built from the orders file: each amount is the sum of its
      column over the order's retained rows, and it has no items. */
  predicate OrderTotals(rows: seq<Row>, oid: string, od: Order, money: MoneyParser)
  {
    && od.shippingCharge == ColumnSum(Orders, rows, oid, ShippingCharge, money)
    && od.totalPromotions == ColumnSum(Orders, rows, oid, TotalPromotions, money)
    && od.taxCharged == ColumnSum(Orders, rows, oid, TaxCharged, money)
    && od.totalCharged == ColumnSum(Orders, rows, oid, TotalCharged, money)
    && od.items == []
  }

  /** Every record holds the column sums of its rows. */
  predicate AllTotals(rows: seq<Row>, d: map<string, Order>, money: MoneyParser)
  {
    forall oid :: oid in d ==> OrderTotals(rows, oid, d[oid], money)
  }

  /** An order absent from the records has no retained rows, so every
      column sums to zero. */
  lemma {:induction false} AbsentSumsToZero(src: Source, rows: seq<Row>, oid: string, col: string, money: MoneyParser)
    requires forall i :: 0 <= i < |rows| && Retained(rows[i]) ==> Id(rows[i]) != oid
    ensures ColumnSum(src, rows, oid, col, money) == 0
    decreases |rows|
  {
    if rows != [] {
      var init := rows[..|rows| - 1];
      assert forall i :: 0 <= i < |init| ==> init[i] == rows[i];
      AbsentSumsToZero(src, init, oid, col, money);
    }
  }

  /** The record of one order after one more row of the orders file. */
  lemma {:induction false} OrderTotalsNext(rows: seq<Row>, p: Parsers, oid: string)
    requires rows != [] && Scan(Orders, rows, p).Ok?
    requires Scan(Orders, rows[..|rows| - 1], p).Ok?
    requires AllTotals(rows[..|rows| - 1], Scan(Orders, rows[..|rows| - 1], p).value, p.money)
    requires oid in Scan(Orders, rows, p).value
    ensures OrderTotals(rows, oid, Scan(Orders, rows, p).value[oid], p.money)
  {
    var init := rows[..|rows| - 1];
    var last := rows[|rows| - 1];
    var d0 := Scan(Orders, init, p).value;
    var d := Scan(Orders, rows, p).value;
    assert Scan(Orders, rows, p) == Step(Orders, d0, last, p);
    StepFacts(Orders, d0, last, p);
    if Retained(last) && Id(last) == oid {
      var start := GetOrAddOrder(d0, last, p).value[oid];
      assert Accumulate(Orders, start, last, p.money) == Ok(d[oid]);
      AccumulateOrders(start, last, p.money);
      if oid !in d0 {
        AbsentTotals(init, oid, start, p.money);
      }
      TotalsGrow(rows, oid, start, d[oid], p.money);
    } else {
      TotalsKept(rows, oid, d[oid], p.money);
    }
  }

  /** A new record of an order no earlier row retained matches its (empty)
      column sums. */
  lemma AbsentTotals(rows: seq<Row>, oid: string, od: Order, money: MoneyParser)
    requires oid !in RetainedIds(rows)
    requires od == NewOrder(od.date)
    ensures OrderTotals(rows, oid, od, money)
  {
    NotRetained(rows, oid);
    AbsentSumsToZero(Orders, rows, oid, ShippingCharge, money);
    AbsentSumsToZero(Orders, rows, oid, TotalPromotions, money);
    AbsentSumsToZero(Orders, rows, oid, TaxCharged, money);
    AbsentSumsToZero(Orders, rows, oid, TotalCharged, money);
  }

  /** A retained row of the order adds its amounts to the column sums. */
  lemma TotalsGrow(rows: seq<Row>, oid: string, od: Order, od': Order, money: MoneyParser)
    requires rows != [] && Retained(rows[|rows| - 1]) && Id(rows[|rows| - 1]) == oid
    requires OrderTotals(rows[..|rows| - 1], oid, od, money)
    requires var last := rows[|rows| - 1];
      && od'.items == od.items
      && od'.shippingCharge == od.shippingCharge + Amount(Orders, last, ShippingCharge, money)
      && od'.totalPromotions == od.totalPromotions + Amount(Orders, last, TotalPromotions, money)
      && od'.taxCharged == od.taxCharged + Amount(Orders, last, TaxCharged, money)
      && od'.totalCharged == od.totalCharged + Amount(Orders, last, TotalCharged, money)
    ensures OrderTotals(rows, oid, od', money)
  {
  }

  /** A row of another order, or one not retained, leaves the sums alone. */
  lemma TotalsKept(rows: seq<Row>, oid: string, od: Order, money: MoneyParser)
    requires rows != [] && !(Retained(rows[|rows| - 1]) && Id(rows[|rows| - 1]) == oid)
    requires OrderTotals(rows[..|rows| - 1], oid, od, money)
    ensures OrderTotals(rows, oid, od, money)
  {
  }

  /** The orders file: every record holds the column sums of its rows. */
  lemma {:induction false} OrdersAreColumnSums(rows: seq<Row>, p: Parsers)
    requires Scan(Orders, rows, p).Ok?
    ensures AllTotals(rows, Scan(Orders, rows, p).value, p.money)
    decreases |rows|
  {
    if rows != [] {
      OrdersAreColumnSums(rows[..|rows| - 1], p);
      forall oid | oid in Scan(Orders, rows, p).value
        ensures OrderTotals(rows, oid, Scan(Orders, rows, p).value[oid], p.money)
      {
        OrderTotalsNext(rows, p, oid);
      }
    }
  }

  /** The item a retained row of the items file becomes. */
  function RowItem(row: Row, money: MoneyParser): Item
  {
    Item(Field(row, Title), Field(row, Seller), Amount(Items, row, ItemSubtotalTax, money), Amount(Items, row, ItemTotal, money))
  }

  /** The items of one order, in file order. */
  function ItemsOf(rows: seq<Row>, oid: string, money: MoneyParser): seq<Item>
    decreases |rows|
  {
    if rows == [] then []
    else
      var last := rows[|rows| - 1];
      ItemsOf(rows[..|rows| - 1], oid, money) + (if Retained(last) && Id(last) == oid then [RowItem(last, money)] else [])
  }

  function SumTax(items: seq<Item>): int
    decreases |items|
  {
    if items == [] then 0 else SumTax(items[..|items| - 1]) + items[|items| - 1].subTotalTax
  }

  function SumTotal(items: seq<Item>): int
    decreases |items|
  {
    if items == [] then 0 else SumTotal(items[..|items| - 1]) + items[|items| - 1].itemTotal
  }

  /** A record built from the items file: no shipping or promotions, and
      tax and total are the sums over its items. */
  predicate ItemRecord(od: Order)
  {
    && od.shippingCharge == 0
    && od.totalPromotions == 0
    && od.taxCharged == SumTax(od.items)
    && od.totalCharged == SumTotal(od.items)
  }

  lemma {:induction false} AbsentHasNoItems(rows: seq<Row>, oid: string, money: MoneyParser)
    requires forall i :: 0 <= i < |rows| && Retained(rows[i]) ==> Id(rows[i]) != oid
    ensures ItemsOf(rows, oid, money) == []
    decreases |rows|
  {
    if rows != [] {
      var init := rows[..|rows| - 1];
      assert forall i :: 0 <= i < |init| ==> init[i] == rows[i];
      AbsentHasNoItems(init, oid, money);
    }
  }

  /** The record of one order after one more row of the items file. */
  lemma ItemsNext(rows: seq<Row>, p: Parsers, oid: string)
    requires rows != [] && Scan(Items, rows, p).Ok? && Scan(Items, rows[..|rows| - 1], p).Ok?
    requires var d0 := Scan(Items, rows[..|rows| - 1], p).value;
      forall o :: o in d0 ==> ItemRecord(d0[o]) && d0[o].items == ItemsOf(rows[..|rows| - 1], o, p.money)
    requires oid in Scan(Items, rows, p).value
    ensures var d := Scan(Items, rows, p).value;
      ItemRecord(d[oid]) && d[oid].items == ItemsOf(rows, oid, p.money)
  {
    var init := rows[..|rows| - 1];
    var last := rows[|rows| - 1];
    var d0 := Scan(Items, init, p).value;
    var d := Scan(Items, rows, p).value;
    assert Scan(Items, rows, p) == Step(Items, d0, last, p);
    if Retained(last) && Id(last) == oid {
      var start := GetOrAddOrder(d0, last, p).value[oid];
      assert Accumulate(Items, start, last, p.money) == Ok(d[oid]);
      AccumulateItems(start, last, p.money);
      if oid !in d0 {
        NotRetained(init, oid);
        AbsentHasNoItems(init, oid, p.money);
      }
      var items := d[oid].items;
      assert items[..|items| - 1] == start.items;
    }
  }

  /** The items file: each record lists the items of its retained rows in
      file order, and its tax and total are their sums. */
  lemma {:induction false} ItemsAreListed(rows: seq<Row>, p: Parsers)
    requires Scan(Items, rows, p).Ok?
    ensures var d := Scan(Items, rows, p).value;
      forall oid :: oid in d ==> ItemRecord(d[oid]) && d[oid].items == ItemsOf(rows, oid, p.money)
    decreases |rows|
  {
    if rows != [] {
      var init := rows[..|rows| - 1];
      var last := rows[|rows| - 1];
      assert Scan(Items, init, p).Ok?;
      ItemsAreListed(init, p);
      var d := Scan(Items, rows, p).value;
      forall oid | oid in d ensures ItemRecord(d[oid]) && d[oid].items == ItemsOf(rows, oid, p.money) {
        ItemsNext(rows, p, oid);
      }
    }
  }
}
