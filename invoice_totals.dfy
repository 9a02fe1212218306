/** The invoice total rule: subtotal is the sum of quantity * unit_price over an
    invoice's items, tax is 10% of the subtotal and total is subtotal plus tax. */
module Totals {
  import opened Models

  const TaxRate: real := 0.10

  function LineTotal(item: InvoiceItem): (r: real) {
    item.quantity as real * item.unitPrice
  }

  function Tax(subtotal: real): (r: real) {
    subtotal * TaxRate
  }

  /** The total is always 110% of the subtotal. */
  function Total(subtotal: real): (r: real)
    ensures r == subtotal * 1.1
    ensures r - subtotal == Tax(subtotal)
  {
    subtotal + Tax(subtotal)
  }

  /** The stored totals of an invoice agree with the rule for its stored subtotal. */
  ghost predicate TotalsConsistent(inv: Invoice) {
    inv.tax == Tax(inv.subtotal) && inv.total == Total(inv.subtotal)
  }

  /** Keys of the items of one invoice (`WHERE invoice_id = ?`). */
  function ItemsOf(items: map<int, InvoiceItem>, invoiceId: int): (keys: set<int>)
    ensures forall k :: k in keys <==> k in items && items[k].invoiceId == invoiceId
  {
    set k | k in items && items[k].invoiceId == invoiceId
  }

  /** Whether the invoice has any item row. */
  predicate HasItems(items: map<int, InvoiceItem>, invoiceId: int) {
    exists k :: k in items && items[k].invoiceId == invoiceId
  }

  /** `SUM(quantity * unit_price)` over the given rows; the order rows are
      taken in is left open, as it is in the database. */
  ghost function SumLines(items: map<int, InvoiceItem>, keys: set<int>): (r: real)
    requires keys <= items.Keys
    decreases keys
  {
    if forall k :: k !in keys then 0.0
    else
      var k :| k in keys;
      LineTotal(items[k]) + SumLines(items, keys - {k})
  }

  /** Any row can be taken first: the sum does not depend on the row order. */
  lemma {:induction false} SumLinesTakeAny(items: map<int, InvoiceItem>, keys: set<int>, k: int)
    requires keys <= items.Keys
    requires k in keys
    ensures SumLines(items, keys) == LineTotal(items[k]) + SumLines(items, keys - {k})
    decreases keys
  {
    var j :| j in keys && SumLines(items, keys) == LineTotal(items[j]) + SumLines(items, keys - {j});
    if j != k {
      SumLinesTakeAny(items, keys - {j}, k);
      assert keys - {j} - {k} == keys - {k} - {j};
      SumLinesTakeAny(items, keys - {k}, j);
    }
  }

  /** Only the rows named by the keys matter: rows added or removed elsewhere
      in the table leave the sum unchanged. */
  lemma {:induction false} SumLinesFrame(items: map<int, InvoiceItem>, items': map<int, InvoiceItem>, keys: set<int>)
    requires keys <= items.Keys && keys <= items'.Keys
    requires forall k :: k in keys ==> items[k] == items'[k]
    ensures SumLines(items, keys) == SumLines(items', keys)
    decreases keys
  {
    if k :| k in keys {
      SumLinesTakeAny(items, keys, k);
      SumLinesTakeAny(items', keys, k);
      SumLinesFrame(items, items', keys - {k});
    }
  }

  /** An invoice's subtotal as UpdateInvoice computes it. */
  ghost function InvoiceSubtotal(items: map<int, InvoiceItem>, invoiceId: int): (r: real) {
    SumLines(items, ItemsOf(items, invoiceId))
  }

  /** The stored totals are current when they match the invoice's items now. */
  ghost predicate TotalsCurrent(inv: Invoice, items: map<int, InvoiceItem>) {
    inv.subtotal == InvoiceSubtotal(items, inv.invoiceId) && TotalsConsistent(inv)
  }

  /** Adding an item under an invoice raises its subtotal by that item's line
      total; since item mutations do not refresh the stored totals, totals that
      were current become stale as soon as the new line is not worth 0. */
  lemma AddItemShiftsSubtotal(items: map<int, InvoiceItem>, key: int, item: InvoiceItem, inv: Invoice)
    requires key !in items && item.invoiceId == inv.invoiceId
    ensures InvoiceSubtotal(items[key := item], inv.invoiceId) == InvoiceSubtotal(items, inv.invoiceId) + LineTotal(item)
    ensures TotalsCurrent(inv, items) && LineTotal(item) != 0.0 ==> !TotalsCurrent(inv, items[key := item])
  {
    var items' := items[key := item];
    var before := ItemsOf(items, inv.invoiceId);
    var after := ItemsOf(items', inv.invoiceId);
    assert after - {key} == before;
    SumLinesTakeAny(items', after, key);
    SumLinesFrame(items, items', before);
  }

  /** Two items (2 x 5.00 and 1 x 3.00) give subtotal 13.00, tax 1.30 and total 14.30. */
  lemma WorkedExample()
    ensures var items := map[1 := InvoiceItem(1, 7, "P1", 2, 5.00), 2 := InvoiceItem(2, 7, "T1", 1, 3.00)];
            InvoiceSubtotal(items, 7) == 13.00 && Tax(13.00) == 1.30 && Total(13.00) == 14.30
  {
    var items := map[1 := InvoiceItem(1, 7, "P1", 2, 5.00), 2 := InvoiceItem(2, 7, "T1", 1, 3.00)];
    assert ItemsOf(items, 7) == {1, 2};
    SumLinesTakeAny(items, {1, 2}, 1);
    assert {1, 2} - {1} == {2};
    SumLinesTakeAny(items, {2}, 2);
    assert {2} - {2} == {};
  }
}
