/**
 * `mergeOrders` (main.go:450-478): the records of the orders file and the
 * records of the items file, joined on the order ID.
 *
 * An order known only from the items file keeps its item record. An order
 * known from both takes its items from the items file. When the order charges
 * more tax than its items account for and it has a shipping charge, the extra
 * tax is taken to belong to shipping and moved onto the shipping charge. Whatever the order total then
 * leaves unexplained becomes one more item, paid to "Missing". An order
 * known only from the orders file is left as it is.
 *
 * Go updates the orders map and its records in place through pointers; here
 * the merge returns the new map, and `MergeOrders` is the loop over the
 * items map that builds it.
 */
module Reconcile {
  import opened Ledger

  /** Where the details of an order are shown, followed by its ID. */
  const OrderURL := "https://amzn.com/order-details/?orderID="
  /** The payee of the item that balances an order. */
  const MissingPayee := "Missing"

  /** The shipping charge after moving onto it the tax the order charges
      beyond its items' tax (main.go:463-466). Charges are negative amounts,
      so that extra tax shows as the order's tax lying below the items'.
      Moving it only ever adds to an existing shipping charge, and keeps the
      combined shipping and tax charge while bringing the tax down to the
      items' tax. */
  function MergedShipping(od: Order, id: Order): (ship: int)
    ensures ship <= od.shippingCharge
    ensures ship < od.shippingCharge <==> od.shippingCharge < 0 && od.taxCharged < id.taxCharged
    ensures ship < od.shippingCharge ==> ship + id.taxCharged == od.shippingCharge + od.taxCharged
  {
    var st := od.taxCharged - id.taxCharged;
    if st < 0 && od.shippingCharge < 0 then od.shippingCharge + st else od.shippingCharge
  }

  /** The part of the order total that neither the shipping charge, the
      promotions nor the items' total account for (main.go:469). */
  function Gap(od: Order, id: Order): int
  {
    od.totalCharged - MergedShipping(od, id) - od.totalPromotions - id.totalCharged
  }

  /** The item that books the gap of order `oid`. */
  function MissingItem(oid: string, amount: int): Item
  {
    Item(OrderURL + oid, MissingPayee, 0, amount)
  }

  /** The record of an order that both files know (main.go:460-475): the
      date and the amounts of the orders file, the items of the items file,
      and whatever is needed to make the record balance. */
  function Reconciled(oid: string, od: Order, id: Order): (r: Order)
    ensures r.date == od.date && r.totalPromotions == od.totalPromotions
    ensures r.taxCharged == od.taxCharged && r.totalCharged == od.totalCharged
    ensures |r.items| >= |id.items| && r.items[..|id.items|] == id.items
    ensures ItemRecord(id) ==> Balanced(r)
  {
    var gap := Gap(od, id);
    var extra := if gap != 0 then [MissingItem(oid, gap)] else [];
    SumTotalAppend(id.items, extra);
    assert gap != 0 ==> SumTotal(extra) == SumTotal(extra[..0]) + gap;
    assert (id.items + extra)[..|id.items|] == id.items;
    od.(shippingCharge := MergedShipping(od, id), items := id.items + extra)
  }

  /** The merged record of one order ID. */
  function Entry(oid: string, odm: map<string, Order>, idm: map<string, Order>): Order
    requires oid in odm || oid in idm
  {
    if oid !in idm then odm[oid]
    else if oid !in odm then idm[oid]
    else Reconciled(oid, odm[oid], idm[oid])
  }

  /** The map `mergeOrders` returns: one record for every order of either
      file. */
  function Merged(odm: map<string, Order>, idm: map<string, Order>): (m: map<string, Order>)
    ensures m.Keys == odm.Keys + idm.Keys
  {
    map oid | oid in odm.Keys + idm.Keys :: Entry(oid, odm, idm)
  }

  /** `mergeOrders`: one pass over the items map, in any order, updating
      the orders map. */
  method MergeOrders(odm: map<string, Order>, idm: map<string, Order>) returns (merged: map<string, Order>)
    ensures merged == Merged(odm, idm)
  {
    merged := odm;
    var todo := idm.Keys;
    while todo != {}
      invariant todo <= idm.Keys
      invariant merged.Keys == odm.Keys + (idm.Keys - todo)
      invariant forall oid :: oid in merged ==> merged[oid] == if oid in todo then odm[oid] else Entry(oid, odm, idm)
      decreases |todo|
    {
      var oid :| oid in todo;
      var id := idm[oid];
      if oid !in merged {
        merged := merged[oid := id];
      } else {
        var od := merged[oid];
        var items := id.items;
        var ship := od.shippingCharge;
        var st := od.taxCharged - id.taxCharged;
        if st < 0 && od.shippingCharge < 0 {
          ship := ship + st;
        }
        var r := od.totalCharged - ship - od.totalPromotions - id.totalCharged;
        if r != 0 {
          items := items + [Item(OrderURL + oid, MissingPayee, 0, r)];
        }
        assert od == odm[oid] && ship == MergedShipping(od, id) && r == Gap(od, id);
        merged := merged[oid := od.(shippingCharge := ship, items := items)];
      }
      todo := todo - {oid};
    }
  }

  /* ---------------------------------------------------------------------
   * What the merge keeps and what it changes
   * ------------------------------------------------------------------- */

  /** An order the items file does not know is left untouched. */
  lemma OrderOnlyUnchanged(odm: map<string, Order>, idm: map<string, Order>, oid: string)
    requires oid in odm && oid !in idm
    ensures Merged(odm, idm)[oid] == odm[oid]
  {
  }

  /** An order the orders file does not know keeps its item record. */
  lemma ItemOnlyAdopted(odm: map<string, Order>, idm: map<string, Order>, oid: string)
    requires oid !in odm && oid in idm
    ensures Merged(odm, idm)[oid] == idm[oid]
  {
  }

  /** An order both files know keeps its date, promotions, tax and total
      from the orders file, lists the items of the items file first, and
      gains the "Missing" item exactly when its total does not balance. */
  lemma SharedReconciled(odm: map<string, Order>, idm: map<string, Order>, oid: string)
    requires oid in odm && oid in idm
    ensures var m := Merged(odm, idm)[oid];
      var od := odm[oid];
      var id := idm[oid];
      && m.date == od.date
      && m.totalPromotions == od.totalPromotions
      && m.taxCharged == od.taxCharged
      && m.totalCharged == od.totalCharged
      && m.shippingCharge == MergedShipping(od, id)
      && |m.items| >= |id.items|
      && m.items[..|id.items|] == id.items
      && (|m.items| > |id.items| <==> Gap(od, id) != 0)
      && (|m.items| > |id.items| ==> m.items[|id.items|..] == [MissingItem(oid, Gap(od, id))])
  {
    var m := Merged(odm, idm)[oid];
    var id := idm[oid];
    assert m.items[..|id.items|] == id.items;
  }

  /* ---------------------------------------------------------------------
   * Balance
   * ------------------------------------------------------------------- */

  /** The shipping charge, the promotions and the items add up to the
      order's total: the amounts a split transaction books sum to the
      charge. */
  predicate Balanced(od: Order)
  {
    od.shippingCharge + od.totalPromotions + SumTotal(od.items) == od.totalCharged
  }

  lemma {:induction false} SumTotalAppend(items: seq<Item>, more: seq<Item>)
    ensures SumTotal(items + more) == SumTotal(items) + SumTotal(more)
    decreases |more|
  {
    if more == [] {
      assert items + more == items;
    } else {
      var init := more[..|more| - 1];
      assert (items + more)[..|items + more| - 1] == items + init;
      SumTotalAppend(items, init);
    }
  }

  /** After the merge, every order the items file knows balances. */
  lemma MergedBalances(odm: map<string, Order>, idm: map<string, Order>, oid: string)
    requires oid in idm && ItemRecord(idm[oid])
    ensures Balanced(Merged(odm, idm)[oid])
  {
  }
}
