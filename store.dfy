/** The backend's tables held in memory, and every controller handler of the
    core as a method on them. Each table is a field; a handler's `modifies`
    clause names the tables its SQL statements write, so every other table is
    unchanged by construction. */
module Shop {
  import opened Models
  import opened Merge
  import opened Links
  import opened Totals

  /** A printed invoice line: only item_id, quantity and unit_price are selected. */
  function PrintLine(item: InvoiceItem): (r: InvoiceItem) {
    InvoiceItem(0, 0, item.itemId, item.quantity, item.unitPrice)
  }

  /** The invoices table after `UPDATE invoices SET customer_name=?, updated_at=NOW() WHERE invoice_id=?`. */
  function WithCustomerName(invoices: map<int, Invoice>, id: int, customerName: string, now: Time): (r: map<int, Invoice>) {
    if id in invoices then invoices[id := invoices[id].(customerName := customerName, updatedAt := now)] else invoices
  }

  /** The invoices table after `UPDATE invoices SET subtotal=?, tax=?, total=? WHERE invoice_id=?`. */
  function WithTotals(invoices: map<int, Invoice>, id: int, subtotal: real): (r: map<int, Invoice>) {
    if id in invoices then invoices[id := invoices[id].(subtotal := subtotal, tax := Tax(subtotal), total := Total(subtotal))] else invoices
  }

  class Store {
    var pizzaTypes: map<string, PizzaType>
    var toppings: map<string, Topping>
    var beverages: map<string, Beverage>
    var pizzaToppings: seq<PizzaTopping>
    var invoices: map<int, Invoice>
    var invoiceItems: map<int, InvoiceItem>
    /** Next values of the AUTO_INCREMENT keys of invoices and invoice_items. */
    var nextInvoiceId: int
    var nextItemId: int

    /** Rows sit under their own key, every join row resolves, keys handed out
        are below the counters, and every stored invoice's tax and total agree
        with its stored subtotal. */
    ghost predicate Valid()
      reads this
    {
      && (forall id :: id in pizzaTypes ==> pizzaTypes[id].pizzaTypeId == id)
      && (forall id :: id in toppings ==> toppings[id].toppingId == id)
      && (forall id :: id in beverages ==> beverages[id].beverageId == id)
      && LinksResolve(pizzaToppings, pizzaTypes.Keys, toppings.Keys)
      && (forall k :: k in invoices ==> invoices[k].invoiceId == k && k < nextInvoiceId && TotalsConsistent(invoices[k]))
      && (forall k :: k in invoiceItems ==> invoiceItems[k].invoiceItemId == k && k < nextItemId)
    }

    constructor ()
      ensures Valid()
      ensures pizzaTypes == map[] && toppings == map[] && beverages == map[] && pizzaToppings == []
      ensures invoices == map[] && invoiceItems == map[]
    {
      pizzaTypes, toppings, beverages := map[], map[], map[];
      pizzaToppings := [];
      invoices, invoiceItems := map[], map[];
      nextInvoiceId, nextItemId := 1, 1;
    }

    // ---------------------------------------------------------------- pizza types

    /** POST /pizzas: store the body with both timestamps set by the server. */
    method CreatePizzaType(body: Body<PizzaType>, now: Time, fault: Fault) returns (r: Outcome<PizzaType>)
      requires Valid()
      modifies this`pizzaTypes
      ensures Valid()
      ensures body.Malformed? ==> r == BadRequest(body.error) && pizzaTypes == old(pizzaTypes)
      ensures body.Decoded? ==>
        var row := body.value.(createdAt := now, updatedAt := now);
        if fault == FailAt(0) || row.pizzaTypeId in old(pizzaTypes) then r == InternalError && pizzaTypes == old(pizzaTypes)
        else r == Ok(row) && pizzaTypes == old(pizzaTypes)[row.pizzaTypeId := row]
    {
      if body.Malformed? {
        return BadRequest(body.error);
      }
      var pizzaType := body.value;
      pizzaType := pizzaType.(createdAt := now, updatedAt := now);
      if fault == FailAt(0) || pizzaType.pizzaTypeId in pizzaTypes {
        return InternalError;
      }
      pizzaTypes := pizzaTypes[pizzaType.pizzaTypeId := pizzaType];
      r := Ok(pizzaType);
    }

    /** PUT /pizzas/{id}: read the stored row, merge the body into it field by
        field ("non-empty wins"), stamp updated_at and write it back under the
        path's key. The answer carries a zero created_at, which the read does not select. */
    method UpdatePizzaType(id: string, body: Body<PizzaType>, now: Time, fault: Fault) returns (r: Outcome<PizzaType>)
      requires Valid()
      modifies this`pizzaTypes
      ensures Valid()
      ensures r.Ok? ==> r.value.pizzaTypeId == id && id in old(pizzaTypes)
      ensures id !in old(pizzaTypes) || fault == FailAt(0) ==> r == InternalError && pizzaTypes == old(pizzaTypes)
      ensures id in old(pizzaTypes) && fault != FailAt(0) ==>
        match body
        case Malformed(e) => r == BadRequest(e) && pizzaTypes == old(pizzaTypes)
        case Decoded(update) =>
          var row := MergePizzaType(old(pizzaTypes)[id], update, now);
          if fault == FailAt(1) then r == InternalError && pizzaTypes == old(pizzaTypes)
          else r == Ok(row.(createdAt := ZeroTime)) && pizzaTypes == old(pizzaTypes)[id := row]
    {
      if id !in pizzaTypes || fault == FailAt(0) {
        return InternalError;
      }
      var stored := pizzaTypes[id];
      var existing := PizzaType(stored.pizzaTypeId, stored.name, stored.size, stored.basePrice, stored.description, ZeroTime, ZeroTime);
      if body.Malformed? {
        return BadRequest(body.error);
      }
      var update := body.value;
      if update.name != "" {
        existing := existing.(name := update.name);
      }
      if update.size != "" {
        existing := existing.(size := update.size);
      }
      if update.basePrice != 0.0 {
        existing := existing.(basePrice := update.basePrice);
      }
      if update.description != "" {
        existing := existing.(description := update.description);
      }
      existing := existing.(updatedAt := now);
      if fault == FailAt(1) {
        return InternalError;
      }
      // every column but created_at is written, under the key from the path
      pizzaTypes := pizzaTypes[id := existing.(pizzaTypeId := id, createdAt := stored.createdAt)];
      r := Ok(existing);
    }

    /** DELETE /pizzas/{id}: first the join rows of the pizza type, then its row.
        The two statements are not one transaction: when the second fails the
        join rows are already gone. Deleting an absent id succeeds. */
    method DeletePizzaType(id: string, fault: Fault) returns (r: Outcome<string>)
      requires Valid()
      modifies this`pizzaTypes, this`pizzaToppings
      ensures Valid()
      ensures fault == FailAt(0) ==> r == InternalError && pizzaToppings == old(pizzaToppings) && pizzaTypes == old(pizzaTypes)
      ensures fault == FailAt(1) ==>
        r == InternalError && pizzaToppings == WithoutPizzaType(old(pizzaToppings), id) && pizzaTypes == old(pizzaTypes)
      ensures fault != FailAt(0) && fault != FailAt(1) ==>
        r == Ok(PizzaTypeDeleted) && pizzaToppings == WithoutPizzaType(old(pizzaToppings), id) && pizzaTypes == old(pizzaTypes) - {id}
    {
      if fault == FailAt(0) {
        return InternalError;
      }
      pizzaToppings := WithoutPizzaType(pizzaToppings, id);
      if fault == FailAt(1) {
        return InternalError;
      }
      pizzaTypes := pizzaTypes - {id};
      r := Ok(PizzaTypeDeleted);
    }

    // ---------------------------------------------------------------- toppings

    /** POST /toppings: store the body with both timestamps set by the server. */
    method CreateTopping(body: Body<Topping>, now: Time, fault: Fault) returns (r: Outcome<Topping>)
      requires Valid()
      modifies this`toppings
      ensures Valid()
      ensures body.Malformed? ==> r == BadRequest(body.error) && toppings == old(toppings)
      ensures body.Decoded? ==>
        var row := body.value.(createdAt := now, updatedAt := now);
        if fault == FailAt(0) || row.toppingId in old(toppings) then r == InternalError && toppings == old(toppings)
        else r == Ok(row) && toppings == old(toppings)[row.toppingId := row]
    {
      if body.Malformed? {
        return BadRequest(body.error);
      }
      var topping := body.value;
      topping := topping.(createdAt := now, updatedAt := now);
      if fault == FailAt(0) || topping.toppingId in toppings {
        return InternalError;
      }
      toppings := toppings[topping.toppingId := topping];
      r := Ok(topping);
    }

    /** PUT /toppings/{id}: the same read, merge and write as for pizza types,
        over name and price. */
    method UpdateTopping(id: string, body: Body<Topping>, now: Time, fault: Fault) returns (r: Outcome<Topping>)
      requires Valid()
      modifies this`toppings
      ensures Valid()
      ensures r.Ok? ==> r.value.toppingId == id && id in old(toppings)
      ensures id !in old(toppings) || fault == FailAt(0) ==> r == InternalError && toppings == old(toppings)
      ensures id in old(toppings) && fault != FailAt(0) ==>
        match body
        case Malformed(e) => r == BadRequest(e) && toppings == old(toppings)
        case Decoded(update) =>
          var row := MergeTopping(old(toppings)[id], update, now);
          if fault == FailAt(1) then r == InternalError && toppings == old(toppings)
          else r == Ok(row.(createdAt := ZeroTime)) && toppings == old(toppings)[id := row]
    {
      if id !in toppings || fault == FailAt(0) {
        return InternalError;
      }
      var stored := toppings[id];
      var existing := Topping(stored.toppingId, stored.name, stored.price, ZeroTime, ZeroTime);
      if body.Malformed? {
        return BadRequest(body.error);
      }
      var update := body.value;
      if update.name != "" {
        existing := existing.(name := update.name);
      }
      if update.price != 0.0 {
        existing := existing.(price := update.price);
      }
      existing := existing.(updatedAt := now);
      if fault == FailAt(1) {
        return InternalError;
      }
      toppings := toppings[id := existing.(toppingId := id, createdAt := stored.createdAt)];
      r := Ok(existing);
    }

    /** DELETE /toppings/{id}: first the join rows of the topping, then its row;
        not one transaction. Pizza types are not touched. */
    method DeleteTopping(id: string, fault: Fault) returns (r: Outcome<string>)
      requires Valid()
      modifies this`toppings, this`pizzaToppings
      ensures Valid()
      ensures fault == FailAt(0) ==> r == InternalError && pizzaToppings == old(pizzaToppings) && toppings == old(toppings)
      ensures fault == FailAt(1) ==>
        r == InternalError && pizzaToppings == WithoutTopping(old(pizzaToppings), id) && toppings == old(toppings)
      ensures fault != FailAt(0) && fault != FailAt(1) ==>
        r == Ok(ToppingDeleted) && pizzaToppings == WithoutTopping(old(pizzaToppings), id) && toppings == old(toppings) - {id}
    {
      if fault == FailAt(0) {
        return InternalError;
      }
      pizzaToppings := WithoutTopping(pizzaToppings, id);
      if fault == FailAt(1) {
        return InternalError;
      }
      toppings := toppings - {id};
      r := Ok(ToppingDeleted);
    }

    // ---------------------------------------------------------------- beverages

    /** POST /beverages: store the body with both timestamps set by the server. */
    method CreateBeverage(body: Body<Beverage>, now: Time, fault: Fault) returns (r: Outcome<Beverage>)
      requires Valid()
      modifies this`beverages
      ensures Valid()
      ensures body.Malformed? ==> r == BadRequest(body.error) && beverages == old(beverages)
      ensures body.Decoded? ==>
        var row := body.value.(createdAt := now, updatedAt := now);
        if fault == FailAt(0) || row.beverageId in old(beverages) then r == InternalError && beverages == old(beverages)
        else r == Ok(row) && beverages == old(beverages)[row.beverageId := row]
    {
      if body.Malformed? {
        return BadRequest(body.error);
      }
      var beverage := body.value;
      beverage := beverage.(createdAt := now, updatedAt := now);
      if fault == FailAt(0) || beverage.beverageId in beverages {
        return InternalError;
      }
      beverages := beverages[beverage.beverageId := beverage];
      r := Ok(beverage);
    }

    /** PUT /beverages/{id}: read, merge name and price, write back. */
    method UpdateBeverage(id: string, body: Body<Beverage>, now: Time, fault: Fault) returns (r: Outcome<Beverage>)
      requires Valid()
      modifies this`beverages
      ensures Valid()
      ensures r.Ok? ==> r.value.beverageId == id && id in old(beverages)
      ensures id !in old(beverages) || fault == FailAt(0) ==> r == InternalError && beverages == old(beverages)
      ensures id in old(beverages) && fault != FailAt(0) ==>
        match body
        case Malformed(e) => r == BadRequest(e) && beverages == old(beverages)
        case Decoded(update) =>
          var row := MergeBeverage(old(beverages)[id], update, now);
          if fault == FailAt(1) then r == InternalError && beverages == old(beverages)
          else r == Ok(row.(createdAt := ZeroTime)) && beverages == old(beverages)[id := row]
    {
      if id !in beverages || fault == FailAt(0) {
        return InternalError;
      }
      var stored := beverages[id];
      var existing := Beverage(stored.beverageId, stored.name, stored.price, ZeroTime, ZeroTime);
      if body.Malformed? {
        return BadRequest(body.error);
      }
      var update := body.value;
      if update.name != "" {
        existing := existing.(name := update.name);
      }
      if update.price != 0.0 {
        existing := existing.(price := update.price);
      }
      existing := existing.(updatedAt := now);
      if fault == FailAt(1) {
        return InternalError;
      }
      beverages := beverages[id := existing.(beverageId := id, createdAt := stored.createdAt)];
      r := Ok(existing);
    }

    /** DELETE /beverages/{id}: one statement on the beverages table only;
        deleting an absent id still answers with the success message. */
    method DeleteBeverage(id: string, fault: Fault) returns (r: Outcome<string>)
      requires Valid()
      modifies this`beverages
      ensures Valid()
      ensures fault == FailAt(0) ==> r == InternalError && beverages == old(beverages)
      ensures fault != FailAt(0) ==> r == Ok(BeverageDeleted) && beverages == old(beverages) - {id}
    {
      if fault == FailAt(0) {
        return InternalError;
      }
      beverages := beverages - {id};
      r := Ok(BeverageDeleted);
    }

    // ---------------------------------------------------------------- pizza <-> topping

    /** POST /pizzas/{id}/toppings: after the body decodes, check that the
        pizza type and then the topping exist, and only then insert the join
        row; the answer is that row, with status 201. */
    method LinkPizzaTopping(pizzaTypeId: string, body: Body<LinkRequest>, fault: Fault) returns (r: Outcome<PizzaTopping>)
      requires Valid()
      modifies this`pizzaToppings
      ensures Valid()
      ensures r.Created? <==> pizzaToppings != old(pizzaToppings)
      ensures r.Created? ==> pizzaTypeId in pizzaTypes && body.Decoded? && body.value.toppingId in toppings
      ensures match body
        case Malformed(e) => r == BadRequest(e) && pizzaToppings == old(pizzaToppings)
        case Decoded(req) =>
          if fault == FailAt(0) || pizzaTypeId !in pizzaTypes then
            r == BadRequest(PizzaTypeNotFound) && pizzaToppings == old(pizzaToppings)
          else if fault == FailAt(1) || req.toppingId !in toppings then
            r == BadRequest(ToppingNotFound) && pizzaToppings == old(pizzaToppings)
          else if fault == FailAt(2) then
            r == InternalError && pizzaToppings == old(pizzaToppings)
          else
            r == Created(PizzaTopping(pizzaTypeId, req.toppingId)) &&
            pizzaToppings == old(pizzaToppings) + [PizzaTopping(pizzaTypeId, req.toppingId)]
    {
      if body.Malformed? {
        return BadRequest(body.error);
      }
      var toppingId := body.value.toppingId;
      if fault == FailAt(0) || pizzaTypeId !in pizzaTypes {
        return BadRequest(PizzaTypeNotFound);
      }
      if fault == FailAt(1) || toppingId !in toppings {
        return BadRequest(ToppingNotFound);
      }
      if fault == FailAt(2) {
        return InternalError;
      }
      var link := PizzaTopping(pizzaTypeId, toppingId);
      pizzaToppings := pizzaToppings + [link];
      r := Created(link);
    }

    /** GET /pizzas/{id}/toppings: the names of the toppings linked to the
        pizza type, one per join row, collected row by row. */
    method GetToppingsByPizzaType(pizzaTypeId: string, fault: Fault) returns (r: Outcome<seq<string>>)
      requires Valid()
      ensures fault == FailAt(0) || pizzaTypeId !in pizzaTypes ==> r == BadRequest(PizzaTypeNotFound)
      ensures fault != FailAt(0) && pizzaTypeId in pizzaTypes && fault == FailAt(1) ==> r == InternalError
      ensures fault != FailAt(0) && fault != FailAt(1) && pizzaTypeId in pizzaTypes ==>
        && r == Ok(ToppingNames(pizzaToppings, toppings, pizzaTypeId))
        && |r.value| == LinkCount(pizzaToppings, pizzaTypeId)
        && (forall l :: l in pizzaToppings && l.pizzaTypeId == pizzaTypeId ==> toppings[l.toppingId].name in r.value)
    {
      if fault == FailAt(0) || pizzaTypeId !in pizzaTypes {
        return BadRequest(PizzaTypeNotFound);
      }
      if fault == FailAt(1) {
        return InternalError;
      }
      var names: seq<string> := [];
      var i := 0;
      while i < |pizzaToppings|
        invariant 0 <= i <= |pizzaToppings|
        invariant names == ToppingNames(pizzaToppings[..i], toppings, pizzaTypeId)
      {
        var link := pizzaToppings[i];
        assert pizzaToppings[..i + 1][..i] == pizzaToppings[..i];
        if link.pizzaTypeId == pizzaTypeId && link.toppingId in toppings {
          names := names + [toppings[link.toppingId].name];
        }
        i := i + 1;
      }
      assert pizzaToppings[..i] == pizzaToppings;
      ToppingNamesOnePerLink(pizzaToppings, toppings, pizzaTypeId);
      r := Ok(names);
    }

    // ---------------------------------------------------------------- invoices

    /** POST /invoices: insert a row under a fresh key with zero totals, the
        date and updated_at set to now and the body's customer name. The answer
        echoes the body with those fields replaced; its invoice_id is the body's,
        not the key the row received. */
    method CreateInvoice(body: Body<Invoice>, now: Time, fault: Fault) returns (r: Outcome<Invoice>)
      requires Valid()
      modifies this`invoices, this`nextInvoiceId
      ensures Valid()
      ensures body.Malformed? || fault == FailAt(0) ==> invoices == old(invoices) && nextInvoiceId == old(nextInvoiceId)
      ensures body.Malformed? ==> r == BadRequest(body.error)
      ensures body.Decoded? && fault == FailAt(0) ==> r == InternalError
      ensures body.Decoded? && fault != FailAt(0) ==>
        var key := old(nextInvoiceId);
        && key !in old(invoices)
        && invoices == old(invoices)[key := Invoice(key, now, 0.0, 0.0, 0.0, body.value.customerName, now)]
        && nextInvoiceId == key + 1
        && r == Ok(body.value.(invoiceDate := now, subtotal := 0.0, tax := 0.0, total := 0.0, updatedAt := now))
    {
      if body.Malformed? {
        return BadRequest(body.error);
      }
      var invoice := body.value;
      invoice := invoice.(subtotal := 0.0, tax := 0.0, total := 0.0);
      invoice := invoice.(invoiceDate := now, updatedAt := now);
      if fault == FailAt(0) {
        return InternalError;
      }
      var key := nextInvoiceId;
      invoices := invoices[key := Invoice(key, invoice.invoiceDate, invoice.subtotal, invoice.tax, invoice.total, invoice.customerName, invoice.updatedAt)];
      nextInvoiceId := nextInvoiceId + 1;
      r := Ok(invoice);
    }

    /** `SELECT SUM(quantity * unit_price) FROM invoice_items WHERE invoice_id = ?`:
        the sum over the invoice's items, and whether there was any (over no
        rows SQL's SUM is NULL). */
    method SumInvoiceItems(invoiceId: int) returns (found: bool, subtotal: real)
      requires Valid()
      ensures found <==> HasItems(invoiceItems, invoiceId)
      ensures subtotal == InvoiceSubtotal(invoiceItems, invoiceId)
    {
      var keys := ItemsOf(invoiceItems, invoiceId);
      found := exists k :: k in keys;
      var rest := keys;
      subtotal := 0.0;
      while exists k :: k in rest
        invariant rest <= keys
        invariant subtotal + SumLines(invoiceItems, rest) == SumLines(invoiceItems, keys)
        decreases rest
      {
        var k :| k in rest;
        SumLinesTakeAny(invoiceItems, rest, k);
        subtotal := subtotal + LineTotal(invoiceItems[k]);
        rest := rest - {k};
      }
    }

    /** PUT /invoices/{id}: write the body's customer name (unconditionally,
        an empty one clears it), then recompute subtotal, tax and total from the
        items and store them, then read the row back. Each step is its own
        statement: when the items sum is NULL (no items) the name is already
        written and the answer is a storage error. */
    method UpdateInvoice(id: int, body: Body<Invoice>, now: Time, fault: Fault) returns (r: Outcome<Invoice>)
      requires Valid()
      modifies this`invoices
      ensures Valid()
      ensures body.Malformed? ==> r == BadRequest(body.error) && invoices == old(invoices)
      ensures body.Decoded? && fault == FailAt(0) ==> r == InternalError && invoices == old(invoices)
      ensures body.Decoded? && fault != FailAt(0) ==>
        var renamed := WithCustomerName(old(invoices), id, body.value.customerName, now);
        var subtotal := InvoiceSubtotal(invoiceItems, id);
        if fault == FailAt(1) || !HasItems(invoiceItems, id) || fault == FailAt(2) then
          r == InternalError && invoices == renamed
        else
          && invoices == WithTotals(renamed, id, subtotal)
          && (fault == FailAt(3) || id !in old(invoices) ==> r == InternalError)
          && (fault != FailAt(3) && id in old(invoices) ==>
                && TotalsCurrent(invoices[id], invoiceItems)
                && r == Ok(body.value.(invoiceId := id, subtotal := subtotal, tax := Tax(subtotal), total := Total(subtotal))))
    {
      if body.Malformed? {
        return BadRequest(body.error);
      }
      var invoice := body.value;
      if fault == FailAt(0) {
        return InternalError;
      }
      if id in invoices {
        invoices := invoices[id := invoices[id].(customerName := invoice.customerName, updatedAt := now)];
      }
      if fault == FailAt(1) {
        return InternalError;
      }
      var found, subtotal := SumInvoiceItems(id);
      if !found {
        return InternalError;
      }
      var tax := subtotal * TaxRate;
      var total := subtotal + tax;
      if fault == FailAt(2) {
        return InternalError;
      }
      if id in invoices {
        invoices := invoices[id := invoices[id].(subtotal := subtotal, tax := tax, total := total)];
      }
      if fault == FailAt(3) || id !in invoices {
        return InternalError;
      }
      var stored := invoices[id];
      invoice := invoice.(invoiceId := stored.invoiceId, customerName := stored.customerName,
                          subtotal := stored.subtotal, tax := stored.tax, total := stored.total);
      r := Ok(invoice);
    }

    /** DELETE /invoices/{id}: removes the invoice row only; its items stay. */
    method DeleteInvoice(id: int, fault: Fault) returns (r: Outcome<string>)
      requires Valid()
      modifies this`invoices
      ensures Valid()
      ensures fault == FailAt(0) ==> r == InternalError && invoices == old(invoices)
      ensures fault != FailAt(0) ==> r == Ok(InvoiceDeleted) && invoices == old(invoices) - {id}
    {
      if fault == FailAt(0) {
        return InternalError;
      }
      invoices := invoices - {id};
      r := Ok(InvoiceDeleted);
    }

    /** POST /invoices/{id}/items: insert the item under a fresh key and the
        path's invoice id; the invoice's stored totals are not refreshed, while
        the subtotal its items now add up to grows by the new line. The answer
        echoes the decoded body. */
    method CreateInvoiceItem(invoiceId: int, body: Body<InvoiceItem>, fault: Fault) returns (r: Outcome<InvoiceItem>)
      requires Valid()
      modifies this`invoiceItems, this`nextItemId
      ensures Valid()
      ensures body.Malformed? || fault == FailAt(0) ==> invoiceItems == old(invoiceItems) && nextItemId == old(nextItemId)
      ensures body.Malformed? ==> r == BadRequest(body.error)
      ensures body.Decoded? && fault == FailAt(0) ==> r == InternalError
      ensures body.Decoded? && fault != FailAt(0) ==>
        var key := old(nextItemId);
        var item := body.value;
        && key !in old(invoiceItems)
        && invoiceItems == old(invoiceItems)[key := InvoiceItem(key, invoiceId, item.itemId, item.quantity, item.unitPrice)]
        && nextItemId == key + 1
        && r == Ok(item)
        && InvoiceSubtotal(invoiceItems, invoiceId) == InvoiceSubtotal(old(invoiceItems), invoiceId) + LineTotal(item)
    {
      if body.Malformed? {
        return BadRequest(body.error);
      }
      var item := body.value;
      if fault == FailAt(0) {
        return InternalError;
      }
      var key := nextItemId;
      var row := InvoiceItem(key, invoiceId, item.itemId, item.quantity, item.unitPrice);
      AddItemShiftsSubtotal(invoiceItems, key, row, Invoice(invoiceId, 0, 0.0, 0.0, 0.0, "", 0));
      invoiceItems := invoiceItems[key := row];
      nextItemId := nextItemId + 1;
      r := Ok(item);
    }

    /** PUT /invoices/items/{id}: the UPDATE statement has a comma right before
        WHERE, so the store rejects it whatever the input; once the body
        decodes the answer is always a storage error and nothing changes. */
    method UpdateInvoiceItem(itemId: int, body: Body<InvoiceItem>) returns (r: Outcome<InvoiceItem>)
      requires Valid()
      ensures body.Malformed? ==> r == BadRequest(body.error)
      ensures body.Decoded? ==> r == InternalError
    {
      if body.Malformed? {
        return BadRequest(body.error);
      }
      r := InternalError;
    }

    /** DELETE /invoices/items/{id}: removes that one item; totals are untouched. */
    method DeleteInvoiceItem(itemId: int, fault: Fault) returns (r: Outcome<string>)
      requires Valid()
      modifies this`invoiceItems
      ensures Valid()
      ensures fault == FailAt(0) ==> r == InternalError && invoiceItems == old(invoiceItems)
      ensures fault != FailAt(0) ==> r == Ok(InvoiceItemDeleted) && invoiceItems == old(invoiceItems) - {itemId}
    {
      if fault == FailAt(0) {
        return InternalError;
      }
      invoiceItems := invoiceItems - {itemId};
      r := Ok(InvoiceItemDeleted);
    }

    /** GET /invoices/{id}/print: a header holding only id, subtotal, tax and
        total (every other field at its zero value, and the whole header zero
        when the invoice does not exist), and one line per item of the invoice.
        `rows` names the item each line comes from; nothing is written. */
    method GeneratePrintableInvoice(id: int, fault: Fault) returns (r: Outcome<PrintableInvoice>, ghost rows: seq<int>)
      requires Valid()
      ensures fault == FailAt(0) || fault == FailAt(1) ==> r == InternalError
      ensures fault != FailAt(0) && fault != FailAt(1) ==> r.Ok?
      ensures r.Ok? ==>
        var header := r.value.invoice;
        && header.invoiceDate == ZeroTime && header.customerName == "" && header.updatedAt == ZeroTime
        && (id in invoices ==> header.invoiceId == id && header.subtotal == invoices[id].subtotal
                               && header.tax == invoices[id].tax && header.total == invoices[id].total)
        && (id !in invoices ==> header == Invoice(0, ZeroTime, 0.0, 0.0, 0.0, "", ZeroTime))
        && TotalsConsistent(header)
      ensures r.Ok? ==>
        var lines := r.value.invoiceItems;
        && |rows| == |lines|
        && (forall i :: 0 <= i < |rows| ==> rows[i] in invoiceItems && lines[i] == PrintLine(invoiceItems[rows[i]]))
        && (forall i, j :: 0 <= i < j < |rows| ==> rows[i] != rows[j])
        && (forall k :: k in rows <==> k in invoiceItems && invoiceItems[k].invoiceId == id)
    {
      rows := [];
      if fault == FailAt(0) {
        return InternalError, rows;
      }
      var header := Invoice(0, ZeroTime, 0.0, 0.0, 0.0, "", ZeroTime);
      if id in invoices {
        var stored := invoices[id];
        header := header.(invoiceId := stored.invoiceId, subtotal := stored.subtotal, tax := stored.tax, total := stored.total);
      }
      if fault == FailAt(1) {
        return InternalError, rows;
      }
      var keys := ItemsOf(invoiceItems, id);
      var rest := keys;
      var lines: seq<InvoiceItem> := [];
      while exists k :: k in rest
        invariant rest <= keys
        invariant |rows| == |lines|
        invariant forall i :: 0 <= i < |rows| ==> rows[i] in invoiceItems && lines[i] == PrintLine(invoiceItems[rows[i]])
        invariant forall i, j :: 0 <= i < j < |rows| ==> rows[i] != rows[j]
        invariant forall k :: k in rows <==> k in keys && k !in rest
        decreases rest
      {
        var k :| k in rest;
        rows := rows + [k];
        lines := lines + [PrintLine(invoiceItems[k])];
        rest := rest - {k};
      }
      r := Ok(PrintableInvoice(header, lines));
    }
  }
}
