/** The "non-empty wins" merge used by the pizza-type, topping and beverage
    update handlers: a field of the request body equal to its type's zero value
    ("" or 0) keeps the stored value, any other value replaces it. */
module Merge {
  import opened Models

  /** The merge rule for one field, stated for any field type and its zero value. */
  ghost predicate MergedField<T>(stored: T, incoming: T, zero: T, result: T) {
    if incoming == zero then result == stored else result == incoming
  }

  function NonEmptyWins(stored: string, incoming: string): (r: string)
    ensures MergedField(stored, incoming, "", r)
  {
    if incoming != "" then incoming else stored
  }

  function NonZeroWins(stored: real, incoming: real): (r: real)
    ensures MergedField(stored, incoming, 0.0, r)
  {
    if incoming != 0.0 then incoming else stored
  }

  /** The row UpdatePizzaType writes: key and creation time of the stored row,
      merged name, size, base price and description, and a fresh updated_at. */
  function MergePizzaType(stored: PizzaType, body: PizzaType, now: Time): (r: PizzaType)
    ensures r.pizzaTypeId == stored.pizzaTypeId && r.createdAt == stored.createdAt
    ensures r.updatedAt == now
    ensures MergedField(stored.name, body.name, "", r.name)
    ensures MergedField(stored.size, body.size, "", r.size)
    ensures MergedField(stored.basePrice, body.basePrice, 0.0, r.basePrice)
    ensures MergedField(stored.description, body.description, "", r.description)
  {
    stored.(name := NonEmptyWins(stored.name, body.name),
            size := NonEmptyWins(stored.size, body.size),
            basePrice := NonZeroWins(stored.basePrice, body.basePrice),
            description := NonEmptyWins(stored.description, body.description),
            updatedAt := now)
  }

  /** The row UpdateTopping writes. */
  function MergeTopping(stored: Topping, body: Topping, now: Time): (r: Topping)
    ensures r.toppingId == stored.toppingId && r.createdAt == stored.createdAt
    ensures r.updatedAt == now
    ensures MergedField(stored.name, body.name, "", r.name)
    ensures MergedField(stored.price, body.price, 0.0, r.price)
  {
    stored.(name := NonEmptyWins(stored.name, body.name),
            price := NonZeroWins(stored.price, body.price),
            updatedAt := now)
  }

  /** The row UpdateBeverage writes. */
  function MergeBeverage(stored: Beverage, body: Beverage, now: Time): (r: Beverage)
    ensures r.beverageId == stored.beverageId && r.createdAt == stored.createdAt
    ensures r.updatedAt == now
    ensures MergedField(stored.name, body.name, "", r.name)
    ensures MergedField(stored.price, body.price, 0.0, r.price)
  {
    stored.(name := NonEmptyWins(stored.name, body.name),
            price := NonZeroWins(stored.price, body.price),
            updatedAt := now)
  }

  /** A field after a series of updates whose bodies carried `incoming`, oldest first. */
  function MergeSeries<T(==)>(stored: T, incoming: seq<T>, zero: T): (r: T)
  {
    if incoming == [] then stored
    else
      var before := MergeSeries(stored, incoming[..|incoming| - 1], zero);
      var last := incoming[|incoming| - 1];
      if last == zero then before else last
  }

  ghost predicate AllZeroFrom<T>(xs: seq<T>, from: nat, zero: T) {
    forall j :: from <= j < |xs| ==> xs[j] == zero
  }

  /** Over any series of updates the last non-zero value sent wins; if none was
      sent the stored value survives, so a field holding a non-zero value can
      never be reset to the zero value through the update endpoints. */
  lemma {:induction false} MergeSeriesLastNonZeroWins<T>(stored: T, incoming: seq<T>, zero: T)
    ensures AllZeroFrom(incoming, 0, zero) ==> MergeSeries(stored, incoming, zero) == stored
    ensures forall i :: 0 <= i < |incoming| && incoming[i] != zero && AllZeroFrom(incoming, i + 1, zero) ==>
              MergeSeries(stored, incoming, zero) == incoming[i]
    ensures stored != zero ==> MergeSeries(stored, incoming, zero) != zero
  {
    if incoming != [] {
      var n := |incoming| - 1;
      var front := incoming[..n];
      MergeSeriesLastNonZeroWins(stored, front, zero);
      if incoming[n] == zero {
        assert AllZeroFrom(incoming, 0, zero) ==> AllZeroFrom(front, 0, zero);
        forall i | 0 <= i < |incoming| && incoming[i] != zero && AllZeroFrom(incoming, i + 1, zero)
          ensures MergeSeries(stored, incoming, zero) == incoming[i]
        {
          assert i < n && front[i] == incoming[i];
          assert AllZeroFrom(front, i + 1, zero);
        }
      }
    }
  }

  /** One column of a sequence of request bodies, oldest first. */
  function Column<R, T>(rows: seq<R>, field: R -> T): (r: seq<T>)
    ensures |r| == |rows|
    ensures forall i :: 0 <= i < |rows| ==> r[i] == field(rows[i])
  {
    if rows == [] then [] else Column(rows[..|rows| - 1], field) + [field(rows[|rows| - 1])]
  }

  /** The stored topping after UpdateTopping has written each body in turn. */
  function ToppingAfterUpdates(stored: Topping, bodies: seq<Topping>, now: Time): (r: Topping)
    ensures r.toppingId == stored.toppingId && r.createdAt == stored.createdAt
    ensures bodies != [] ==> r.updatedAt == now
  {
    if bodies == [] then stored
    else MergeTopping(ToppingAfterUpdates(stored, bodies[..|bodies| - 1], now), bodies[|bodies| - 1], now)
  }

  /** The stored beverage after UpdateBeverage has written each body in turn. */
  function BeverageAfterUpdates(stored: Beverage, bodies: seq<Beverage>, now: Time): (r: Beverage)
    ensures r.beverageId == stored.beverageId && r.createdAt == stored.createdAt
    ensures bodies != [] ==> r.updatedAt == now
  {
    if bodies == [] then stored
    else MergeBeverage(BeverageAfterUpdates(stored, bodies[..|bodies| - 1], now), bodies[|bodies| - 1], now)
  }

  /** The stored pizza type after UpdatePizzaType has written each body in turn. */
  function PizzaTypeAfterUpdates(stored: PizzaType, bodies: seq<PizzaType>, now: Time): (r: PizzaType)
    ensures r.pizzaTypeId == stored.pizzaTypeId && r.createdAt == stored.createdAt
    ensures bodies != [] ==> r.updatedAt == now
  {
    if bodies == [] then stored
    else MergePizzaType(PizzaTypeAfterUpdates(stored, bodies[..|bodies| - 1], now), bodies[|bodies| - 1], now)
  }

  /** Appending one more update to a series applies the merge of one field to
      the value the series had reached. */
  lemma MergeSeriesStringStep(stored: string, incoming: seq<string>, x: string)
    ensures MergeSeries(stored, incoming + [x], "") == NonEmptyWins(MergeSeries(stored, incoming, ""), x)
  {
  }

  lemma MergeSeriesRealStep(stored: real, incoming: seq<real>, x: real)
    ensures MergeSeries(stored, incoming + [x], 0.0) == NonZeroWins(MergeSeries(stored, incoming, 0.0), x)
  {
  }

  /** A series of topping updates merges each field on its own: name and price
      end as MergeSeries of the stored value over the values the bodies sent,
      so a stored non-zero price is never reset to 0. */
  lemma {:induction false} ToppingUpdatesMergeEachField(stored: Topping, bodies: seq<Topping>, now: Time)
    ensures ToppingAfterUpdates(stored, bodies, now).name == MergeSeries(stored.name, Column(bodies, (b: Topping) => b.name), "")
    ensures ToppingAfterUpdates(stored, bodies, now).price == MergeSeries(stored.price, Column(bodies, (b: Topping) => b.price), 0.0)
    ensures stored.price != 0.0 ==> ToppingAfterUpdates(stored, bodies, now).price != 0.0
  {
    if bodies != [] {
      var front := bodies[..|bodies| - 1];
      var last := bodies[|bodies| - 1];
      ToppingUpdatesMergeEachField(stored, front, now);
      assert Column(bodies, (b: Topping) => b.name) == Column(front, (b: Topping) => b.name) + [last.name];
      assert Column(bodies, (b: Topping) => b.price) == Column(front, (b: Topping) => b.price) + [last.price];
      MergeSeriesStringStep(stored.name, Column(front, (b: Topping) => b.name), last.name);
      MergeSeriesRealStep(stored.price, Column(front, (b: Topping) => b.price), last.price);
    }
    MergeSeriesLastNonZeroWins(stored.price, Column(bodies, (b: Topping) => b.price), 0.0);
  }

  /** A series of beverage updates merges name and price field by field. */
  lemma {:induction false} BeverageUpdatesMergeEachField(stored: Beverage, bodies: seq<Beverage>, now: Time)
    ensures BeverageAfterUpdates(stored, bodies, now).name == MergeSeries(stored.name, Column(bodies, (b: Beverage) => b.name), "")
    ensures BeverageAfterUpdates(stored, bodies, now).price == MergeSeries(stored.price, Column(bodies, (b: Beverage) => b.price), 0.0)
    ensures stored.price != 0.0 ==> BeverageAfterUpdates(stored, bodies, now).price != 0.0
  {
    if bodies != [] {
      var front := bodies[..|bodies| - 1];
      var last := bodies[|bodies| - 1];
      BeverageUpdatesMergeEachField(stored, front, now);
      assert Column(bodies, (b: Beverage) => b.name) == Column(front, (b: Beverage) => b.name) + [last.name];
      assert Column(bodies, (b: Beverage) => b.price) == Column(front, (b: Beverage) => b.price) + [last.price];
      MergeSeriesStringStep(stored.name, Column(front, (b: Beverage) => b.name), last.name);
      MergeSeriesRealStep(stored.price, Column(front, (b: Beverage) => b.price), last.price);
    }
    MergeSeriesLastNonZeroWins(stored.price, Column(bodies, (b: Beverage) => b.price), 0.0);
  }

  /** A series of pizza-type updates merges name, size, base price and
      description field by field; a stored non-zero base price is never reset to 0. */
  lemma {:induction false} PizzaTypeUpdatesMergeEachField(stored: PizzaType, bodies: seq<PizzaType>, now: Time)
    ensures PizzaTypeAfterUpdates(stored, bodies, now).name == MergeSeries(stored.name, Column(bodies, (b: PizzaType) => b.name), "")
    ensures PizzaTypeAfterUpdates(stored, bodies, now).size == MergeSeries(stored.size, Column(bodies, (b: PizzaType) => b.size), "")
    ensures PizzaTypeAfterUpdates(stored, bodies, now).basePrice == MergeSeries(stored.basePrice, Column(bodies, (b: PizzaType) => b.basePrice), 0.0)
    ensures PizzaTypeAfterUpdates(stored, bodies, now).description == MergeSeries(stored.description, Column(bodies, (b: PizzaType) => b.description), "")
    ensures stored.basePrice != 0.0 ==> PizzaTypeAfterUpdates(stored, bodies, now).basePrice != 0.0
  {
    if bodies != [] {
      var front := bodies[..|bodies| - 1];
      var last := bodies[|bodies| - 1];
      PizzaTypeUpdatesMergeEachField(stored, front, now);
      assert Column(bodies, (b: PizzaType) => b.name) == Column(front, (b: PizzaType) => b.name) + [last.name];
      assert Column(bodies, (b: PizzaType) => b.size) == Column(front, (b: PizzaType) => b.size) + [last.size];
      assert Column(bodies, (b: PizzaType) => b.basePrice) == Column(front, (b: PizzaType) => b.basePrice) + [last.basePrice];
      assert Column(bodies, (b: PizzaType) => b.description) == Column(front, (b: PizzaType) => b.description) + [last.description];
      MergeSeriesStringStep(stored.name, Column(front, (b: PizzaType) => b.name), last.name);
      MergeSeriesStringStep(stored.size, Column(front, (b: PizzaType) => b.size), last.size);
      MergeSeriesRealStep(stored.basePrice, Column(front, (b: PizzaType) => b.basePrice), last.basePrice);
      MergeSeriesStringStep(stored.description, Column(front, (b: PizzaType) => b.description), last.description);
    }
    MergeSeriesLastNonZeroWins(stored.basePrice, Column(bodies, (b: PizzaType) => b.basePrice), 0.0);
  }
}
