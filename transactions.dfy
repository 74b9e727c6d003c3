/**
 * `buildTransactions` (main.go:385-447): one transaction per merged order,
 * for the full amount the order charged.
 *
 * An order without items gets a link to its details as memo and "Amazon"
 * as payee; an order with one item gets that item's title and seller. An
 * order with more items is split: first one sub-transaction for whatever
 * shipping and promotions leave over, then one per item. The transaction's
 * payee is the sellers' common name, latched the way the item loop of
 * main.go:426-443 does it.
 *
 * Go returns a slice in the iteration order of a map; here the transactions
 * are returned as a map from order ID.
 */
module Transactions {
  import opened Wrappers
  import opened Money
  import opened Text
  import opened Table
  import opened Ledger
  import opened Reconcile

  /** The payee of transactions that are Amazon's own charges. */
  const DefaultPayee := "Amazon"
  /** The longest memo and the longest payee name a transaction may carry. */
  const MemoLength := 200
  const PayeeLength := 50

  /** `models.SaveSubTransaction`, the fields the importer sets. */
  datatype SubTransaction = SubTransaction(amount: int, memo: string, payeeName: string)

  /** `models.SaveTransaction`, the fields that depend on the order. */
  datatype Transaction = Transaction(
    amount: int,
    date: Date,
    memo: string,
    payeeName: string,
    subtransactions: seq<SubTransaction>)

  /** The payee name an item books to. */
  function Payee(item: Item): string
  {
    Truncate(item.seller, PayeeLength)
  }

  /** The sub-transaction for the shipping charge and promotions left over
      in a split order (main.go:411-424), or none when they cancel. */
  function ChargeSubs(od: Order): seq<SubTransaction>
  {
    var n := od.shippingCharge + od.totalPromotions;
    if n < 0 then [SubTransaction(n, Truncate(ShippingCharge, MemoLength), Truncate(DefaultPayee, PayeeLength))]
    else if n > 0 then [SubTransaction(n, Truncate(TotalPromotions, MemoLength), Truncate(DefaultPayee, PayeeLength))]
    else []
  }

  function ItemSub(item: Item): SubTransaction
  {
    SubTransaction(item.itemTotal, Truncate(item.title, MemoLength), Payee(item))
  }

  /** One sub-transaction per item, in item order. */
  function ItemSubs(items: seq<Item>): (subs: seq<SubTransaction>)
    ensures |subs| == |items|
  {
    seq(|items|, i requires 0 <= i < |items| => ItemSub(items[i]))
  }

  function Names(items: seq<Item>): (names: seq<string>)
    ensures |names| == |items|
  {
    seq(|items|, i requires 0 <= i < |items| => Payee(items[i]))
  }

  /* ---------------------------------------------------------------------
   * The payee of a split transaction
   * ------------------------------------------------------------------- */

  /** The state of the item loop: the transaction's payee so far and
      whether two different sellers have been seen. */
  datatype Latch = Latch(payee: string, multi: bool)

  /** One item of the loop (main.go:435-443): once two sellers have been
      seen the latch stays as it is; otherwise the payee stays, becomes the
      new name, or is cleared. */
  function Observe(l: Latch, name: string): (r: Latch)
    ensures l.multi ==> r == l
    ensures r.payee == "" || r.payee == l.payee || r.payee == name
    ensures r.multi && !l.multi ==> r.payee == "" && l.payee != "" && name != l.payee
  {
    if l.multi || name == l.payee then l
    else if l.payee != "" then Latch("", true)
    else Latch(name, false)
  }

  /** The loop over all items: after two different sellers the payee is
      empty; otherwise every name seen is empty or the payee. */
  function LatchOver(names: seq<string>): (r: Latch)
    ensures r.multi ==> r.payee == ""
    ensures !r.multi ==> forall j :: 0 <= j < |names| ==> names[j] == "" || names[j] == r.payee
    decreases |names|
  {
    if names == [] then Latch("", false)
    else Observe(LatchOver(names[..|names| - 1]), names[|names| - 1])
  }

  /** The index of the first non-empty name, or `|names|`. */
  function FirstNamed(names: seq<string>): (k: nat)
    ensures k <= |names|
    ensures forall j :: 0 <= j < k ==> names[j] == ""
    ensures k < |names| ==> names[k] != ""
    decreases |names|
  {
    if names == [] then 0
    else if names[0] != "" then 0
    else 1 + FirstNamed(names[1..])
  }

  /** Every name from index `k` on equals the one at `k`. */
  predicate SameFrom(names: seq<string>, k: nat)
    requires k < |names|
  {
    forall j :: k <= j < |names| ==> names[j] == names[k]
  }

  /** What the loop ends with, stated directly: empty names before the first
      seller are passed over; after it, the payee is that seller if every
      later name equals it, and otherwise none. */
  function Agreed(names: seq<string>): Latch
  {
    var k := FirstNamed(names);
    if k == |names| then Latch("", false)
    else if SameFrom(names, k) then Latch(names[k], false)
    else Latch("", true)
  }

  lemma FirstNamedNext(names: seq<string>)
    requires names != []
    ensures var init := names[..|names| - 1];
      FirstNamed(names) == if FirstNamed(init) < |init| || names[|names| - 1] != "" then FirstNamed(init) else |names|
  {
    var init := names[..|names| - 1];
    var k := FirstNamed(init);
    assert forall j :: 0 <= j < |init| ==> init[j] == names[j];
  }

  /** The latch computes `Agreed`. */
  lemma {:induction false} LatchAgrees(names: seq<string>)
    ensures LatchOver(names) == Agreed(names)
    decreases |names|
  {
    if names != [] {
      var init := names[..|names| - 1];
      var last := names[|names| - 1];
      LatchAgrees(init);
      FirstNamedNext(names);
      var k := FirstNamed(init);
      assert forall j :: 0 <= j < |init| ==> init[j] == names[j];
      if k < |init| && !SameFrom(init, k) {
        var j :| k <= j < |init| && init[j] != init[k];
        assert names[j] != names[k];
      }
    }
  }

  /** Items that all share one payee pass it on to the transaction. */
  lemma OnePayee(names: seq<string>, s: string)
    requires names != [] && forall j :: 0 <= j < |names| ==> names[j] == s
    ensures LatchOver(names).payee == s
  {
    LatchAgrees(names);
    if s != "" {
      assert FirstNamed(names) == 0;
      assert SameFrom(names, 0);
    }
  }

  /** A seller followed by a different one leaves the payee empty. */
  lemma TwoPayees(names: seq<string>, i: nat, j: nat)
    requires i < j < |names| && names[i] != "" && names[j] != names[i]
    ensures LatchOver(names).payee == ""
  {
    LatchAgrees(names);
    var k := FirstNamed(names);
    assert k <= i;
    assert !SameFrom(names, k);
  }

  /** An empty seller before the first named one does not stop that one from
      becoming the payee. */
  lemma LeadingBlankSkipped(s: string)
    requires s != ""
    ensures LatchOver(["", s]).payee == s
  {
    assert ["", s][..1] == [""];
    assert [""][..0] == [];
    assert LatchOver([""]) == Latch("", false);
  }

  /** The payee is empty or one of the names. */
  lemma {:induction false} LatchPicksAName(names: seq<string>)
    ensures LatchOver(names).payee == "" || LatchOver(names).payee in names
    decreases |names|
  {
    if names != [] {
      var init := names[..|names| - 1];
      LatchPicksAName(init);
      assert forall j :: 0 <= j < |init| ==> init[j] in names;
    }
  }

  /* ---------------------------------------------------------------------
   * Building the transactions
   * ------------------------------------------------------------------- */

  /** The transaction of order `oid`: the order's full charge on the
      order's date, split only when the order has more than one item. */
  function BuildTransaction(oid: string, od: Order): (t: Transaction)
    ensures t.amount == od.totalCharged && t.date == od.date
    ensures t.subtransactions == [] <==> |od.items| <= 1
  {
    if |od.items| == 0 then
      Transaction(od.totalCharged, od.date, Truncate(OrderURL + oid, MemoLength), Truncate(DefaultPayee, PayeeLength), [])
    else if |od.items| == 1 then
      Transaction(od.totalCharged, od.date, Truncate(od.items[0].title, MemoLength), Payee(od.items[0]), [])
    else
      Transaction(od.totalCharged, od.date, "", LatchOver(Names(od.items)).payee, ChargeSubs(od) + ItemSubs(od.items))
  }

  /** The split of an order with several items (main.go:410-444). */
  method Split(od: Order) returns (subs: seq<SubTransaction>, payee: string)
    ensures subs == ChargeSubs(od) + ItemSubs(od.items)
    ensures payee == LatchOver(Names(od.items)).payee
  {
    subs := [];
    var n := od.shippingCharge + od.totalPromotions;
    if n < 0 {
      subs := subs + [SubTransaction(n, Truncate(ShippingCharge, MemoLength), Truncate(DefaultPayee, PayeeLength))];
    } else if n > 0 {
      subs := subs + [SubTransaction(n, Truncate(TotalPromotions, MemoLength), Truncate(DefaultPayee, PayeeLength))];
    }
    ghost var names := Names(od.items);
    var multi := false;
    payee := "";
    for i := 0 to |od.items|
      invariant subs == ChargeSubs(od) + ItemSubs(od.items[..i])
      invariant Latch(payee, multi) == LatchOver(names[..i])
    {
      var item := od.items[i];
      var name := Truncate(item.seller, PayeeLength);
      assert ItemSubs(od.items[..i + 1]) == ItemSubs(od.items[..i]) + [ItemSub(item)];
      subs := subs + [SubTransaction(item.itemTotal, Truncate(item.title, MemoLength), name)];
      assert names[..i + 1][..i] == names[..i];
      if multi || name == payee {
        continue;
      }
      multi := payee != "";
      if multi {
        payee := "";
      } else {
        payee := name;
      }
    }
    assert od.items[..|od.items|] == od.items;
    assert names[..|od.items|] == names;
  }

  /** The body of the loop of `buildTransactions` (main.go:388-444): the
      transaction of one merged order. */
  method BuildOne(oid: string, od: Order) returns (t: Transaction)
    ensures t == BuildTransaction(oid, od)
  {
    if |od.items| == 0 {
      t := Transaction(od.totalCharged, od.date, Truncate(OrderURL + oid, MemoLength), Truncate(DefaultPayee, PayeeLength), []);
    } else if |od.items| == 1 {
      t := Transaction(od.totalCharged, od.date, Truncate(od.items[0].title, MemoLength), Truncate(od.items[0].seller, PayeeLength), []);
    } else {
      var subs, payee := Split(od);
      t := Transaction(od.totalCharged, od.date, "", payee, subs);
    }
  }

  /** `buildTransactions`: merge the two maps, then one transaction per
      merged order. */
  method BuildTransactions(odm: map<string, Order>, idm: map<string, Order>) returns (ts: map<string, Transaction>)
    ensures ts.Keys == odm.Keys + idm.Keys
    ensures forall oid :: oid in ts ==> ts[oid] == BuildTransaction(oid, Merged(odm, idm)[oid])
  {
    var merged := MergeOrders(odm, idm);
    var todo := merged.Keys;
    ts := map[];
    while todo != {}
      invariant todo <= merged.Keys
      invariant ts.Keys == merged.Keys - todo
      invariant forall oid :: oid in ts ==> ts[oid] == BuildTransaction(oid, merged[oid])
      decreases |todo|
    {
      var oid :| oid in todo;
      var t := BuildOne(oid, merged[oid]);
      ts := ts[oid := t];
      todo := todo - {oid};
    }
  }

  /* ---------------------------------------------------------------------
   * What a transaction books
   * ------------------------------------------------------------------- */

  /** Memos and payee names fit the limits YNAB accepts. */
  lemma FieldsFit(oid: string, od: Order)
    ensures var t := BuildTransaction(oid, od);
      && |t.memo| <= MemoLength && |t.payeeName| <= PayeeLength
      && forall s :: s in t.subtransactions ==> |s.memo| <= MemoLength && |s.payeeName| <= PayeeLength
  {
    if |od.items| >= 2 {
      var names := Names(od.items);
      LatchPicksAName(names);
      var t := BuildTransaction(oid, od);
      if t.payeeName != "" {
        var j :| 0 <= j < |names| && names[j] == t.payeeName;
      }
    }
  }

  /** An order with at most one item is not split; an order with more
      items is split into the leftover charge, if any, and its items in
      order. */
  lemma SplitShape(oid: string, od: Order)
    ensures var t := BuildTransaction(oid, od);
      var n := od.shippingCharge + od.totalPromotions;
      && (|od.items| <= 1 <==> t.subtransactions == [])
      && (|od.items| >= 2 ==>
            && |t.subtransactions| == |od.items| + (if n != 0 then 1 else 0)
            && (n != 0 ==> t.subtransactions[0].amount == n && t.subtransactions[0].payeeName == DefaultPayee)
            && forall i :: 0 <= i < |od.items| ==>
                 t.subtransactions[i + (if n != 0 then 1 else 0)] == ItemSub(od.items[i]))
  {
    if |od.items| >= 2 {
      var t := BuildTransaction(oid, od);
      var charge := ChargeSubs(od);
      assert t.subtransactions == charge + ItemSubs(od.items);
      assert |charge| == if od.shippingCharge + od.totalPromotions != 0 then 1 else 0;
    }
  }

  function SumAmounts(subs: seq<SubTransaction>): int
    decreases |subs|
  {
    if subs == [] then 0 else SumAmounts(subs[..|subs| - 1]) + subs[|subs| - 1].amount
  }

  lemma {:induction false} SumAmountsAppend(a: seq<SubTransaction>, b: seq<SubTransaction>)
    ensures SumAmounts(a + b) == SumAmounts(a) + SumAmounts(b)
    decreases |b|
  {
    if b == [] {
      assert a + b == a;
    } else {
      var init := b[..|b| - 1];
      assert (a + b)[..|a + b| - 1] == a + init;
      SumAmountsAppend(a, init);
    }
  }

  /** The item sub-transactions book the items' total. */
  lemma {:induction false} ItemSubsSum(items: seq<Item>)
    ensures SumAmounts(ItemSubs(items)) == SumTotal(items)
    decreases |items|
  {
    if items != [] {
      var init := items[..|items| - 1];
      ItemSubsSum(init);
      assert ItemSubs(items)[..|items| - 1] == ItemSubs(init);
    }
  }

  /** The split of a balanced order adds up to the transaction's amount. */
  lemma SplitSumsToAmount(oid: string, od: Order)
    requires Balanced(od) && |od.items| >= 2
    ensures SumAmounts(BuildTransaction(oid, od).subtransactions) == BuildTransaction(oid, od).amount
  {
    var charge := ChargeSubs(od);
    SumAmountsAppend(charge, ItemSubs(od.items));
    ItemSubsSum(od.items);
    if charge != [] {
      assert SumAmounts(charge) == SumAmounts(charge[..0]) + charge[0].amount;
    }
  }

  /* ---------------------------------------------------------------------
   * The pipeline
   * ------------------------------------------------------------------- */

  /** A transaction that is split books its whole amount in its
      sub-transactions. */
  predicate SplitsAddUp(ts: map<string, Transaction>)
  {
    forall oid :: oid in ts && ts[oid].subtransactions != [] ==>
      SumAmounts(ts[oid].subtransactions) == ts[oid].amount
  }

  /** Every split order of the merge adds up, whenever the item records are
      ones the items file builds. */
  lemma {:induction false} MergedSplitsAddUp(odm: map<string, Order>, idm: map<string, Order>)
    requires forall oid :: oid in odm ==> odm[oid].items == []
    requires forall oid :: oid in idm ==> ItemRecord(idm[oid])
    ensures SplitsAddUp(map oid | oid in Merged(odm, idm) :: BuildTransaction(oid, Merged(odm, idm)[oid]))
  {
    var m := Merged(odm, idm);
    forall oid | oid in m && BuildTransaction(oid, m[oid]).subtransactions != []
      ensures SumAmounts(BuildTransaction(oid, m[oid]).subtransactions) == BuildTransaction(oid, m[oid]).amount
    {
      SplitShape(oid, m[oid]);
      if oid in idm {
        MergedBalances(odm, idm, oid);
      }
      SplitSumsToAmount(oid, m[oid]);
    }
  }

  /** Every column the export needs is in its header. */
  predicate Complete(header: seq<string>, src: Source)
  {
    forall c :: c in RequiredColumns(src) ==> c in header
  }

  /** The records one export parses to, with `parseMoney` as the money
      parser. */
  function Parsed(src: Source, header: seq<string>, body: seq<seq<string>>, date: string -> Option<Date>): Result<map<string, Order>, ParseError>
  {
    Scan(src, Projected(header, body, RequiredColumns(src)), Parsers(date, ParseMoney))
  }

  /** The error that lists the missing columns of an export, sorted and each
      once. */
  ghost predicate ReportsMissing(r: Result<map<string, Transaction>, ParseError>, header: seq<string>, src: Source)
  {
    && r.Err? && r.error.MissingColumns?
    && Sorted(r.error.columns) && Distinct(r.error.columns)
    && forall c :: c in r.error.columns <==> c in RequiredColumns(src) && c !in header
  }

  /** The part of `main` that turns the two exports into transactions
      (main.go:87-97): parse the orders, then the items, stopping at the
      first error, and build the transactions. The date parser is given. */
  method Import(orderHeader: seq<string>, orderBody: seq<seq<string>>,
                itemHeader: seq<string>, itemBody: seq<seq<string>>,
                date: string -> Option<Date>)
    returns (r: Result<map<string, Transaction>, ParseError>)
    ensures !Complete(orderHeader, Orders) ==> ReportsMissing(r, orderHeader, Orders)
    ensures Complete(orderHeader, Orders) && Parsed(Orders, orderHeader, orderBody, date).Err? ==>
      r == Err(Parsed(Orders, orderHeader, orderBody, date).error)
    ensures Complete(orderHeader, Orders) && Parsed(Orders, orderHeader, orderBody, date).Ok? && !Complete(itemHeader, Items) ==>
      ReportsMissing(r, itemHeader, Items)
    ensures Complete(orderHeader, Orders) && Parsed(Orders, orderHeader, orderBody, date).Ok? &&
            Complete(itemHeader, Items) && Parsed(Items, itemHeader, itemBody, date).Err? ==>
      r == Err(Parsed(Items, itemHeader, itemBody, date).error)
    ensures r.Ok? <==>
      && Complete(orderHeader, Orders) && Parsed(Orders, orderHeader, orderBody, date).Ok?
      && Complete(itemHeader, Items) && Parsed(Items, itemHeader, itemBody, date).Ok?
    ensures r.Ok? ==>
      var odm := Parsed(Orders, orderHeader, orderBody, date).value;
      var idm := Parsed(Items, itemHeader, itemBody, date).value;
      && r.value.Keys == odm.Keys + idm.Keys
      && forall oid :: oid in r.value ==> r.value[oid] == BuildTransaction(oid, Merged(odm, idm)[oid])
    ensures r.Ok? ==> SplitsAddUp(r.value)
  {
    var p := Parsers(date, ParseMoney);
    var odm := ParseOrders(orderHeader, orderBody, p);
    if odm.Err? {
      return Err(odm.error);
    }
    var idm := ParseItems(itemHeader, itemBody, p);
    if idm.Err? {
      return Err(idm.error);
    }
    var ts := BuildTransactions(odm.value, idm.value);
    OrdersAreColumnSums(Projected(orderHeader, orderBody, RequiredColumns(Orders)), p);
    ItemsAreListed(Projected(itemHeader, itemBody, RequiredColumns(Items)), p);
    MergedSplitsAddUp(odm.value, idm.value);
    assert ts == map oid | oid in Merged(odm.value, idm.value) :: BuildTransaction(oid, Merged(odm.value, idm.value)[oid]);
    return Ok(ts);
  }
}
