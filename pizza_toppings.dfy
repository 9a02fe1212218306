/** The pizza_toppings join table as a sequence of rows, and the queries the
    pizza-type, topping and link handlers run on it. */
module Links {
  import opened Models

  /** Every join row refers to a stored pizza type and a stored topping. */
  ghost predicate LinksResolve(links: seq<PizzaTopping>, pizzaTypes: set<string>, toppings: set<string>) {
    forall l :: l in links ==> l.pizzaTypeId in pizzaTypes && l.toppingId in toppings
  }

  /** The join table after `DELETE FROM pizza_toppings WHERE pizza_type_id = id`. */
  function WithoutPizzaType(links: seq<PizzaTopping>, id: string): (r: seq<PizzaTopping>)
    ensures forall l :: l in r <==> l in links && l.pizzaTypeId != id
    ensures |r| <= |links|
  {
    if links == [] then []
    else
      var rest := WithoutPizzaType(links[..|links| - 1], id);
      var last := links[|links| - 1];
      if last.pizzaTypeId == id then rest else rest + [last]
  }

  /** The join table after `DELETE FROM pizza_toppings WHERE topping_id = id`. */
  function WithoutTopping(links: seq<PizzaTopping>, id: string): (r: seq<PizzaTopping>)
    ensures forall l :: l in r <==> l in links && l.toppingId != id
    ensures |r| <= |links|
  {
    if links == [] then []
    else
      var rest := WithoutTopping(links[..|links| - 1], id);
      var last := links[|links| - 1];
      if last.toppingId == id then rest else rest + [last]
  }

  /** The pizza-type cascade keeps every other pizza type's join row as many
      times as it occurred, duplicates included. */
  lemma {:induction false} WithoutPizzaTypeKeepsCopies(links: seq<PizzaTopping>, id: string)
    ensures forall l :: multiset(WithoutPizzaType(links, id))[l] == if l.pizzaTypeId == id then 0 else multiset(links)[l]
  {
    if links != [] {
      assert links == links[..|links| - 1] + [links[|links| - 1]];
      WithoutPizzaTypeKeepsCopies(links[..|links| - 1], id);
    }
  }

  /** The topping cascade keeps every other topping's join row as many times
      as it occurred, duplicates included. */
  lemma {:induction false} WithoutToppingKeepsCopies(links: seq<PizzaTopping>, id: string)
    ensures forall l :: multiset(WithoutTopping(links, id))[l] == if l.toppingId == id then 0 else multiset(links)[l]
  {
    if links != [] {
      assert links == links[..|links| - 1] + [links[|links| - 1]];
      WithoutToppingKeepsCopies(links[..|links| - 1], id);
    }
  }

  /** Number of join rows for one pizza type. */
  function LinkCount(links: seq<PizzaTopping>, pizzaTypeId: string): (r: nat)
  {
    if links == [] then 0
    else LinkCount(links[..|links| - 1], pizzaTypeId) + (if links[|links| - 1].pizzaTypeId == pizzaTypeId then 1 else 0)
  }

  /** The topping names of the inner join of toppings with the join rows of one
      pizza type, one name per matching join row, in join-row order. */
  function ToppingNames(links: seq<PizzaTopping>, toppings: map<string, Topping>, pizzaTypeId: string): (r: seq<string>)
    ensures |r| <= LinkCount(links, pizzaTypeId)
    ensures forall n :: n in r ==>
              exists l :: l in links && l.pizzaTypeId == pizzaTypeId && l.toppingId in toppings && toppings[l.toppingId].name == n
  {
    if links == [] then []
    else
      var rest := ToppingNames(links[..|links| - 1], toppings, pizzaTypeId);
      var last := links[|links| - 1];
      if last.pizzaTypeId == pizzaTypeId && last.toppingId in toppings then rest + [toppings[last.toppingId].name]
      else rest
  }

  /** When every join row resolves, the listing has exactly one name per join
      row of the pizza type, and every linked topping's name appears in it. */
  lemma {:induction false} ToppingNamesOnePerLink(links: seq<PizzaTopping>, toppings: map<string, Topping>, pizzaTypeId: string)
    requires forall l :: l in links ==> l.toppingId in toppings
    ensures |ToppingNames(links, toppings, pizzaTypeId)| == LinkCount(links, pizzaTypeId)
    ensures forall l :: l in links && l.pizzaTypeId == pizzaTypeId ==> toppings[l.toppingId].name in ToppingNames(links, toppings, pizzaTypeId)
  {
    if links != [] {
      var front := links[..|links| - 1];
      assert forall l :: l in front ==> l in links;
      ToppingNamesOnePerLink(front, toppings, pizzaTypeId);
      assert forall l :: l in links ==> l in front || l == links[|links| - 1];
    }
  }

  /** After the cascade of DeletePizzaType the pizza type has no topping left. */
  lemma {:induction false} NoToppingsAfterPizzaTypeCascade(links: seq<PizzaTopping>, toppings: map<string, Topping>, id: string)
    ensures LinkCount(WithoutPizzaType(links, id), id) == 0
    ensures ToppingNames(WithoutPizzaType(links, id), toppings, id) == []
  {
    if links != [] {
      NoToppingsAfterPizzaTypeCascade(links[..|links| - 1], toppings, id);
    }
  }

  /** The cascade of DeletePizzaType leaves every other pizza type's listing as it was. */
  lemma {:induction false} PizzaTypeCascadeKeepsOthers(links: seq<PizzaTopping>, toppings: map<string, Topping>, id: string, other: string)
    requires other != id
    ensures ToppingNames(WithoutPizzaType(links, id), toppings, other) == ToppingNames(links, toppings, other)
    ensures LinkCount(WithoutPizzaType(links, id), other) == LinkCount(links, other)
  {
    if links != [] {
      var front := links[..|links| - 1];
      var last := links[|links| - 1];
      PizzaTypeCascadeKeepsOthers(front, toppings, id, other);
      if last.pizzaTypeId != id {
        var w := WithoutPizzaType(front, id);
        assert (w + [last])[..|w + [last]| - 1] == w;
      }
    }
  }

  /** After the cascade of DeleteTopping, deleting the topping row itself
      leaves no join row pointing at nothing: every listing is the same with or
      without that row. */
  lemma {:induction false} ToppingCascadeLeavesNoOrphans(links: seq<PizzaTopping>, toppings: map<string, Topping>, id: string, pizzaTypeId: string)
    ensures ToppingNames(WithoutTopping(links, id), toppings - {id}, pizzaTypeId) == ToppingNames(WithoutTopping(links, id), toppings, pizzaTypeId)
  {
    if links != [] {
      var front := links[..|links| - 1];
      var last := links[|links| - 1];
      ToppingCascadeLeavesNoOrphans(front, toppings, id, pizzaTypeId);
      if last.toppingId != id {
        var w := WithoutTopping(front, id);
        assert (w + [last])[..|w + [last]| - 1] == w;
        assert (last.toppingId in toppings - {id}) == (last.toppingId in toppings);
      }
    }
  }

  /** The cascade of DeleteTopping removes exactly the rows of that topping: a
      pizza type loses one join row per link to it and keeps all others. */
  lemma {:induction false} ToppingCascadeCount(links: seq<PizzaTopping>, id: string, pizzaTypeId: string)
    ensures LinkCount(WithoutTopping(links, id), pizzaTypeId) + |Matching(links, pizzaTypeId, id)| == LinkCount(links, pizzaTypeId)
  {
    if links != [] {
      var front := links[..|links| - 1];
      var last := links[|links| - 1];
      ToppingCascadeCount(front, id, pizzaTypeId);
      if last.toppingId != id {
        var w := WithoutTopping(front, id);
        assert (w + [last])[..|w + [last]| - 1] == w;
      }
    }
  }

  /** The join rows linking one pizza type to one topping. */
  function Matching(links: seq<PizzaTopping>, pizzaTypeId: string, toppingId: string): (r: seq<PizzaTopping>)
    ensures forall l :: l in r <==> l in links && l == PizzaTopping(pizzaTypeId, toppingId)
  {
    if links == [] then []
    else
      var rest := Matching(links[..|links| - 1], pizzaTypeId, toppingId);
      var last := links[|links| - 1];
      if last == PizzaTopping(pizzaTypeId, toppingId) then rest + [last] else rest
  }
}
