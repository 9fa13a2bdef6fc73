/** A production run: every component of the recipe is calculated first, then all are saved, then the
    product is received at the total of the components' rounded values. */
module Production {
  import opened Rounding
  import opened VoucherLines
  import opened Valuation
  import opened StockBooks

  /** A recipe component; `sold` tells whether its sales-order type takes part, and a positive override
      price, per base unit, replaces the value consumed after conversion by its own factor. */
  datatype Component = Component(material: Material, stock: real, factor: real, sold: bool, overridePrice: real,
                                 overrideFactor: real)

  /** One run: quantity produced or sold, the quantity the recipe makes, the factor from the run's unit to
      the recipe's, and the factor from the run's unit to the product's base unit; `dineIn` for a sale of
      that order type, never for a production event. */
  datatype Batch = Batch(
    branch: Branch, product: Material, quantity: real, recipeQuantity: real,
    recipeFactor: real, productFactor: real, dineIn: bool)

  predicate WellFormed(b: Batch, comps: seq<Component>) {
    && b.quantity > 0.0 && b.recipeQuantity > 0.0 && b.productFactor > 0.0
    && forall i :: 0 <= i < |comps| ==> comps[i].factor > 0.0
  }

  /** Component stock the batch needs, in the component's unit. */
  function Needed(b: Batch, c: Component): real
    requires b.recipeQuantity > 0.0
  {
    Value(Ratio(Value(c.stock, b.quantity), b.recipeQuantity), b.recipeFactor)
  }

  function Consume(rows: map<Place, StockRow>, b: Batch, c: Component): (r: Calculated)
    requires b.recipeQuantity > 0.0 && c.factor > 0.0
  {
    Calculate(At(rows, Place(b.branch, c.material)), Item(Needed(b, c), 0.0, 0.0), c.factor, ItemSold).value
  }

  /** The value the product is charged for a component. */
  function Charge(rows: map<Place, StockRow>, b: Batch, c: Component): real
    requires b.recipeQuantity > 0.0 && c.factor > 0.0
  {
    Round(if c.overridePrice > 0.0 then
            Value(Value(Round(c.overridePrice, Mills), c.overrideFactor),
                  Value(if b.dineIn then Consume(rows, b, c).base.stock else c.stock, b.quantity))
          else Consume(rows, b, c).base.stockValue, Mills)
  }

  function TotalCost(rows: map<Place, StockRow>, b: Batch, comps: seq<Component>): real
    requires WellFormed(b, comps)
  {
    if comps == [] then 0.0
    else
      var c := comps[|comps| - 1];
      TotalCost(rows, b, comps[..|comps| - 1]) + (if c.sold then Charge(rows, b, c) else 0.0)
  }

  /** The rows after saving what was calculated from `was`. */
  function SaveAll(was: map<Place, StockRow>, b: Batch, comps: seq<Component>): map<Place, StockRow>
    requires WellFormed(b, comps)
  {
    if comps == [] then was
    else
      var before, c := SaveAll(was, b, comps[..|comps| - 1]), comps[|comps| - 1];
      if c.sold then before[Place(b.branch, c.material) := Consume(was, b, c).Saved()] else before
  }

  function ReceiveProduct(rows: map<Place, StockRow>, b: Batch, totalCost: real): Option<map<Place, StockRow>>
    requires b.quantity > 0.0 && b.productFactor > 0.0
  {
    var p := Place(b.branch, b.product);
    var c := Calculate(At(rows, p), Item(b.quantity, Ratio(totalCost, b.quantity), 0.0), b.productFactor,
        ProductionEvent);
    if c.None? then None else Some(rows[p := c.value.Saved()])
  }

  function Produce(rows: map<Place, StockRow>, b: Batch, comps: seq<Component>): Option<map<Place, StockRow>>
    requires WellFormed(b, comps)
  {
    ReceiveProduct(SaveAll(rows, b, comps), b, TotalCost(rows, b, comps))
  }

  // ----- conservation -----

  /** What the components lose: needed base units at the component's own average cost. */
  function Consumed(rows: map<Place, StockRow>, b: Batch, c: Component): real
    requires b.recipeQuantity > 0.0
  {
    Value(Value(Needed(b, c), c.factor), At(rows, Place(b.branch, c.material)).averageCost)
  }

  function ConsumedAll(rows: map<Place, StockRow>, b: Batch, comps: seq<Component>): real
    requires WellFormed(b, comps)
  {
    if comps == [] then 0.0
    else
      var c := comps[|comps| - 1];
      ConsumedAll(rows, b, comps[..|comps| - 1]) + (if c.sold then Consumed(rows, b, c) else 0.0)
  }

  predicate DistinctComponents(b: Batch, comps: seq<Component>) {
    && (forall i :: 0 <= i < |comps| ==> comps[i].material != b.product)
    && (forall i, j :: 0 <= i < j < |comps| ==> comps[i].material != comps[j].material)
  }

  lemma {:induction false} ConsumeWorth(rows: map<Place, StockRow>, b: Batch, c: Component)
    requires b.recipeQuantity > 0.0 && c.factor > 0.0
    ensures Consume(rows, b, c).Saved().Worth() == At(rows, Place(b.branch, c.material)).Worth() - Consumed(rows, b, c)
    ensures Consume(rows, b, c).base.stockValue == Consumed(rows, b, c)
  {
    var r := At(rows, Place(b.branch, c.material));
    ValueLaws(r.stock, Value(Needed(b, c), c.factor), r.averageCost);
  }

  /** What the last component of this material loses, 0 when none takes part. Every component is calculated
      from the row before the run, so the last one saved is the one that counts. */
  function LastConsumed(rows: map<Place, StockRow>, b: Batch, comps: seq<Component>, m: Material): real
    requires WellFormed(b, comps)
  {
    if comps == [] then 0.0
    else
      var rest, c := comps[..|comps| - 1], comps[|comps| - 1];
      if c.sold && c.material == m then Consumed(rows, b, c) else LastConsumed(rows, b, rest, m)
  }

  /** What earlier components lose only to be overwritten by a later one of the same material. */
  function Overwritten(rows: map<Place, StockRow>, b: Batch, comps: seq<Component>): real
    requires WellFormed(b, comps)
  {
    if comps == [] then 0.0
    else
      var rest, c := comps[..|comps| - 1], comps[|comps| - 1];
      Overwritten(rows, b, rest) + (if c.sold then LastConsumed(rows, b, rest, c.material) else 0.0)
  }

  lemma {:induction false} SavedRowWorth(rows: map<Place, StockRow>, b: Batch, comps: seq<Component>, p: Place)
    requires WellFormed(b, comps)
    ensures At(SaveAll(rows, b, comps), p).Worth()
         == At(rows, p).Worth() - (if p.branch == b.branch then LastConsumed(rows, b, comps, p.material) else 0.0)
  {
    if comps != [] {
      var c := comps[|comps| - 1];
      SavedRowWorth(rows, b, comps[..|comps| - 1], p);
      ConsumeWorth(rows, b, c);
    }
  }

  /** Saving all components lowers total worth by what they lose, except for what is overwritten. */
  lemma {:induction false} SaveAllWorth(rows: map<Place, StockRow>, b: Batch, comps: seq<Component>, places: seq<Place>)
    requires WellFormed(b, comps) && Distinct(places)
    requires forall i :: 0 <= i < |comps| ==> Place(b.branch, comps[i].material) in places
    ensures TotalWorth(SaveAll(rows, b, comps), places)
         == TotalWorth(rows, places) - ConsumedAll(rows, b, comps) + Overwritten(rows, b, comps)
  {
    if comps != [] {
      var rest, c := comps[..|comps| - 1], comps[|comps| - 1];
      var before, p := SaveAll(rows, b, rest), Place(b.branch, c.material);
      SaveAllWorth(rows, b, rest, places);
      SavedRowWorth(rows, b, rest, p);
      ConsumeWorth(rows, b, c);
      TotalsUpdate(before, places, p, Consume(rows, b, c).Saved());
    }
  }

  /** A component listed twice is consumed once: all of its first consumption is overwritten. */
  lemma {:induction false} RepeatedComponentConsumedOnce(rows: map<Place, StockRow>, b: Batch, c: Component)
    requires WellFormed(b, [c, c]) && WellFormed(b, [c]) && c.sold
    ensures ConsumedAll(rows, b, [c, c]) == 2.0 * Consumed(rows, b, c)
    ensures Overwritten(rows, b, [c, c]) == Consumed(rows, b, c)
    ensures SaveAll(rows, b, [c, c]) == SaveAll(rows, b, [c])
  {
    assert [c, c][..1] == [c] && [c][..0] == [];
    assert ConsumedAll(rows, b, []) == 0.0 && Overwritten(rows, b, []) == 0.0;
    assert LastConsumed(rows, b, [], c.material) == 0.0;
    assert ConsumedAll(rows, b, [c]) == Consumed(rows, b, c);
    assert Overwritten(rows, b, [c]) == 0.0 && LastConsumed(rows, b, [c], c.material) == Consumed(rows, b, c);
  }

  /** The run changes total worth by exactly what the product is charged less what the components lose, plus
      what is overwritten and what the clamp writes up on the product's row, as it stands after the
      components are saved. */
  lemma {:induction false} ProductionResidual(rows: map<Place, StockRow>, b: Batch, comps: seq<Component>,
                                              places: seq<Place>)
    requires WellFormed(b, comps) && Distinct(places) && Place(b.branch, b.product) in places
    requires forall i :: 0 <= i < |comps| ==> Place(b.branch, comps[i].material) in places
    ensures Produce(rows, b, comps).Some?
    ensures var product := At(SaveAll(rows, b, comps), Place(b.branch, b.product));
            TotalWorth(Produce(rows, b, comps).value, places)
            == TotalWorth(rows, places) + TotalCost(rows, b, comps) - ConsumedAll(rows, b, comps)
               + Overwritten(rows, b, comps) + Value(WrittenUp(product), product.averageCost)
  {
    SaveAllWorth(rows, b, comps, places);
    var saved, p, total := SaveAll(rows, b, comps), Place(b.branch, b.product), TotalCost(rows, b, comps);
    var product := At(saved, p);
    var item := Item(b.quantity, Ratio(total, b.quantity), 0.0);
    MulPositive(b.quantity, b.productFactor);
    IntakeWorth(product, item, b.productFactor, ProductionEvent);
    RatioLaws(total, b.quantity);
    TotalsUpdate(saved, places, p, Calculate(product, item, b.productFactor, ProductionEvent).value.Saved());
    ValueLaws(Clamp(product.stock), product.stock, product.averageCost);
  }

  /** With distinct components, none of them the product, nothing is overwritten and the product's row is
      the one before the run. */
  lemma {:induction false} DistinctSaves(rows: map<Place, StockRow>, b: Batch, comps: seq<Component>)
    requires WellFormed(b, comps) && DistinctComponents(b, comps)
    ensures Overwritten(rows, b, comps) == 0.0
    ensures forall p: Place :: (forall i :: 0 <= i < |comps| ==> comps[i].material != p.material)
              ==> At(SaveAll(rows, b, comps), p) == At(rows, p)
    ensures forall m :: (forall i :: 0 <= i < |comps| ==> comps[i].material != m)
              ==> LastConsumed(rows, b, comps, m) == 0.0
  {
    if comps != [] {
      var rest := comps[..|comps| - 1];
      assert forall i :: 0 <= i < |rest| ==> rest[i] == comps[i];
      DistinctSaves(rows, b, rest);
    }
  }

  lemma {:induction false} ChargesNearConsumed(rows: map<Place, StockRow>, b: Batch, comps: seq<Component>)
    requires WellFormed(b, comps)
    requires forall i :: 0 <= i < |comps| ==> comps[i].overridePrice <= 0.0
    ensures Abs(TotalCost(rows, b, comps) - ConsumedAll(rows, b, comps)) <= 0.0005 * |comps| as real
  {
    if comps != [] {
      var c := comps[|comps| - 1];
      ChargesNearConsumed(rows, b, comps[..|comps| - 1]);
      ConsumeWorth(rows, b, c);
      RoundNear(Consumed(rows, b, c), Mills);
    }
  }

  /** Without override prices a production run conserves worth to half a thousandth per component, beyond
      what is overwritten and written up; with distinct components and a product row not below zero that
      is nothing. */
  lemma {:induction false} ProductionConserves(rows: map<Place, StockRow>, b: Batch, comps: seq<Component>,
                                               places: seq<Place>)
    requires WellFormed(b, comps) && Distinct(places) && Place(b.branch, b.product) in places
    requires forall i :: 0 <= i < |comps| ==>
               Place(b.branch, comps[i].material) in places && comps[i].overridePrice <= 0.0
    ensures Produce(rows, b, comps).Some?
    ensures var product := At(SaveAll(rows, b, comps), Place(b.branch, b.product));
            var gained := Overwritten(rows, b, comps) + Value(WrittenUp(product), product.averageCost);
            var after := Produce(rows, b, comps).value;
      && Abs(TotalWorth(after, places) - TotalWorth(rows, places) - gained) <= 0.0005 * |comps| as real
      && (DistinctComponents(b, comps) && At(rows, Place(b.branch, b.product)).stock >= 0.0 ==> gained == 0.0)
  {
    ProductionResidual(rows, b, comps, places);
    ChargesNearConsumed(rows, b, comps);
    if DistinctComponents(b, comps) {
      DistinctSaves(rows, b, comps);
      assert forall x :: Value(0.0, x) == 0.0;
    }
  }

  // ----- what a run takes and makes -----

  lemma {:induction false} NeededTimesRecipe(b: Batch, c: Component)
    requires b.recipeQuantity > 0.0
    ensures Value(Value(Needed(b, c), c.factor), b.recipeQuantity)
         == Value(Value(Value(c.stock, b.quantity), b.recipeFactor), c.factor)
  {
    var x := Value(c.stock, b.quantity);
    RatioLaws(x, b.recipeQuantity);
    var each := Ratio(x, b.recipeQuantity);
    ValueLaws(Value(Value(each, b.recipeFactor), c.factor), 0.0, b.recipeQuantity);
    ThreeFactors(b.recipeQuantity, Value(each, b.recipeFactor), c.factor);
    ThreeFactors(b.recipeQuantity, each, b.recipeFactor);
  }

  lemma {:induction false} SameFactor(x: real, y: real, n: real)
    requires n > 0.0 && Value(x, n) == Value(y, n)
    ensures x == y
  {
    RatioLaws(x, n);
    RatioLaws(y, n);
  }

  /** No component that takes part in the run from the k-th on has this material. */
  predicate NoneFrom(comps: seq<Component>, k: nat, m: Material) {
    forall j :: k <= j < |comps| && comps[j].sold ==> comps[j].material != m
  }

  /** A material of which no component takes part, and every other branch, is left alone. */
  lemma {:induction false} OthersUntouched(rows: map<Place, StockRow>, b: Batch, comps: seq<Component>, p: Place)
    requires WellFormed(b, comps) && (p.branch == b.branch ==> NoneFrom(comps, 0, p.material))
    ensures At(SaveAll(rows, b, comps), p) == At(rows, p)
  {
    if comps != [] {
      OthersUntouched(rows, b, comps[..|comps| - 1], p);
    }
  }

  /** A component that takes part, the last of its material to do so, takes its quantity per recipe times the
      recipes made, in base units, at an unchanged average cost. */
  lemma {:induction false} ComponentTaken(rows: map<Place, StockRow>, b: Batch, comps: seq<Component>, i: nat)
    requires WellFormed(b, comps) && i < |comps| && comps[i].sold && NoneFrom(comps, i + 1, comps[i].material)
    ensures var c, p := comps[i], Place(b.branch, comps[i].material);
            var after := At(SaveAll(rows, b, comps), p);
      && Value(At(rows, p).stock - after.stock, b.recipeQuantity)
         == Value(Value(Value(c.stock, b.quantity), b.recipeFactor), c.factor)
      && after.averageCost == At(rows, p).averageCost
  {
    var n := |comps| - 1;
    if i == n {
      NeededTimesRecipe(b, comps[n]);
    } else {
      assert comps[n].sold ==> comps[n].material != comps[i].material;
      ComponentTaken(rows, b, comps[..n], i);
    }
  }

  /** A run that makes what the recipe makes takes what the recipe lists. */
  lemma {:induction false} WholeRecipeTakesItsList(rows: map<Place, StockRow>, b: Batch, comps: seq<Component>, i: nat)
    requires WellFormed(b, comps) && i < |comps| && comps[i].sold && NoneFrom(comps, i + 1, comps[i].material)
    requires Value(b.quantity, b.recipeFactor) == b.recipeQuantity
    ensures var p := Place(b.branch, comps[i].material);
            At(rows, p).stock - At(SaveAll(rows, b, comps), p).stock == Value(comps[i].stock, comps[i].factor)
  {
    var c, p := comps[i], Place(b.branch, comps[i].material);
    ComponentTaken(rows, b, comps, i);
    var made := Value(b.quantity, b.recipeFactor);
    ThreeFactors(c.stock, b.quantity, b.recipeFactor);
    ThreeFactors(c.stock, made, c.factor);
    ValueLaws(made, 0.0, c.factor);
    ThreeFactors(c.stock, c.factor, made);
    SameFactor(At(rows, p).stock - At(SaveAll(rows, b, comps), p).stock, Value(c.stock, c.factor), b.recipeQuantity);
  }

  /** A production adds what it makes to the product's row, counted up from zero when that is below, and
      changes no other row after the components; what it makes carries the whole cost of the run. */
  lemma {:induction false} ProductMade(rows: map<Place, StockRow>, b: Batch, comps: seq<Component>)
    requires WellFormed(b, comps)
    ensures Produce(rows, b, comps).Some?
    ensures var saved, after, p := SaveAll(rows, b, comps), Produce(rows, b, comps).value, Place(b.branch, b.product);
            var was := if At(saved, p).stock < 0.0 then 0.0 else At(saved, p).stock;
      && At(after, p).stock == was + Value(b.quantity, b.productFactor)
      && Value(At(after, p).stock, At(after, p).averageCost)
         == Value(was, At(saved, p).averageCost) + TotalCost(rows, b, comps)
      && (forall q :: q != p ==> At(after, q) == At(saved, q))
  {
    var p, total := Place(b.branch, b.product), TotalCost(rows, b, comps);
    var product := At(SaveAll(rows, b, comps), p);
    MulPositive(b.quantity, b.productFactor);
    IntakeWorth(product, Item(b.quantity, Ratio(total, b.quantity), 0.0), b.productFactor, ProductionEvent);
    RatioLaws(total, b.quantity);
  }

  /** A component that takes part adds to the run's cost, in thousandths, what it takes at its own average
      cost or, with an override price, that price: on a sale of type dine-in for what it takes, otherwise for
      what the recipe lists, times the quantity. */
  lemma {:induction false} CostGrows(rows: map<Place, StockRow>, b: Batch, comps: seq<Component>, c: Component,
                                     taken: real)
    requires WellFormed(b, comps + [c])
    requires Value(taken, b.recipeQuantity) == Value(Value(Value(c.stock, b.quantity), b.recipeFactor), c.factor)
    ensures WellFormed(b, comps)
    ensures var price := Value(Round(c.overridePrice, Mills), c.overrideFactor);
            TotalCost(rows, b, comps + [c])
            == TotalCost(rows, b, comps)
               + if !c.sold then 0.0
                 else if c.overridePrice <= 0.0 then
                   Round(Value(taken, At(rows, Place(b.branch, c.material)).averageCost), Mills)
                 else Round(Value(price, Value(if b.dineIn then taken else c.stock, b.quantity)), Mills)
  {
    var all := comps + [c];
    assert all[..|all| - 1] == comps;
    assert WellFormed(b, comps) by {
      assert forall i :: 0 <= i < |comps| ==> all[i] == comps[i];
    }
    assert c.factor > 0.0 by {
      assert all[|comps|] == c;
    }
    NeededTimesRecipe(b, c);
    SameFactor(taken, Value(Needed(b, c), c.factor), b.recipeQuantity);
    ConsumeWorth(rows, b, c);
  }

  class Kitchen {
    var rows: map<Place, StockRow>

    /** The documents are all loaded and calculated before any of them is saved; a production event then
        receives the product, a sale stops there. */
    method HandleSemiFinishedMaterial(b: Batch, comps: seq<Component>, isProductionEvent: bool)
        returns (ok: bool, totalCost: real)
      requires WellFormed(b, comps)
      modifies this
      ensures totalCost == TotalCost(old(rows), b, comps)
      ensures !isProductionEvent ==> ok && rows == SaveAll(old(rows), b, comps)
      ensures isProductionEvent ==> (ok <==> Produce(old(rows), b, comps).Some?)
      ensures isProductionEvent && ok ==> rows == Produce(old(rows), b, comps).value
    {
      var inventoriesToSave: seq<(Place, StockRow)> := [];
      totalCost := 0.0;
      for i := 0 to |comps|
        invariant rows == old(rows)
        invariant totalCost == TotalCost(rows, b, comps[..i])
        invariant Saved(rows, inventoriesToSave) == SaveAll(rows, b, comps[..i])
      {
        assert comps[..i + 1][..i] == comps[..i];
        var c := comps[i];
        if c.sold {
          var p := Place(b.branch, c.material);
          var inventoryItem := new InventoryDocument(At(rows, p));
          var stock := Value(Ratio(Value(c.stock, b.quantity), b.recipeQuantity), b.recipeFactor);
          var calculated := inventoryItem.CalculateInventoryItem(Item(stock, 0.0, 0.0), c.factor, ItemSold);
          ghost var before := inventoriesToSave;
          inventoriesToSave := inventoriesToSave + [(p, calculated.value.Saved())];
          assert inventoriesToSave[..|before|] == before;
          var stockValue := calculated.value.base.stockValue;
          if c.overridePrice > 0.0 {
            stockValue := Value(Value(Round(c.overridePrice, Mills), c.overrideFactor),
                                Value(if b.dineIn then calculated.value.base.stock else c.stock, b.quantity));
          }
          totalCost := totalCost + Round(stockValue, Mills);
        }
      }
      assert comps[..|comps|] == comps;
      for i := 0 to |inventoriesToSave|
        invariant rows == Saved(old(rows), inventoriesToSave[..i])
      {
        assert inventoriesToSave[..i + 1][..i] == inventoriesToSave[..i];
        rows := rows[inventoriesToSave[i].0 := inventoriesToSave[i].1];
      }
      assert inventoriesToSave[..|inventoriesToSave|] == inventoriesToSave;
      if !isProductionEvent {
        return true, totalCost;
      }
      var p := Place(b.branch, b.product);
      var product := new InventoryDocument(At(rows, p));
      var item := Item(b.quantity, Ratio(totalCost, b.quantity), 0.0);
      var calculated := product.CalculateInventoryItem(item, b.productFactor, ProductionEvent);
      if calculated.None? {
        return false, totalCost;
      }
      product.SaveInventory(calculated.value, ProductionEvent, 0.0);
      rows := rows[p := product.Row()];
      return true, totalCost;
    }
  }

  function Saved(rows: map<Place, StockRow>, saves: seq<(Place, StockRow)>): map<Place, StockRow> {
    if saves == [] then rows else Saved(rows, saves[..|saves| - 1])[saves[|saves| - 1].0 := saves[|saves| - 1].1]
  }
}
