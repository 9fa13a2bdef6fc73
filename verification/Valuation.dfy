/** Weighted-average stock valuation of one inventory row: `calculateInventoryItem` followed by
    `saveInventory`, and what a whole run of stock movements keeps. */
module Valuation {
  import opened Rounding
  import opened VoucherLines

  /** Price times quantity, or quantity times conversion factor. */
  function Value(quantity: real, price: real): real {
    quantity * price
  }

  /** An amount per unit. */
  function Ratio(amount: real, units: real): real
    requires units != 0.0
  {
    amount / units
  }

  type Material = nat

  /** An inventory row: stock in base units, cost per base unit. */
  datatype StockRow = StockRow(material: Material, stock: real, averageCost: real, stockValue: real) {
    function Worth(): real {
      Value(stock, averageCost)
    }
  }

  /** A row as it is created. */
  function NewRow(m: Material): StockRow {
    StockRow(m, 0.0, 0.0, 0.0)
  }

  datatype Action =
    | GoodsReceipt | ReceivedWithTransfer | ProductionEvent
    | SentWithTransfer | ItemSold | WasteEvent
    | InventoryCount | ManualCount

  /** Quantity and prices in the unit of the document line; an absent cost or price is 0. */
  datatype Item = Item(stock: real, cost: real, netPrice: real)

  /** The movement restated in base units, as it goes to the history. */
  datatype BaseItem = BaseItem(stock: real, cost: real, stockValue: real)

  datatype Calculated = Calculated(material: Material, stock: real, averageCost: real, stockValue: real, factor: real,
                                   positive: bool, base: BaseItem) {
    function Saved(): StockRow {
      StockRow(material, stock, averageCost, stockValue)
    }
  }

  function Clamp(stock: real): real {
    if stock < 0.0 then 0.0 else stock
  }

  predicate Clamps(action: Action) {
    action.GoodsReceipt? || action.ReceivedWithTransfer? || action.ProductionEvent? || action.SentWithTransfer?
  }

  predicate IsIntake(action: Action) {
    action.GoodsReceipt? || action.ReceivedWithTransfer? || action.ProductionEvent?
  }

  /** Cost per document unit as the averaging uses it; a transfer's cost comes per base unit and is
      rescaled first. */
  function ItemCost(item: Item, factor: real, action: Action): real {
    if action.ReceivedWithTransfer? then Value(item.cost, factor) else item.cost
  }

  predicate IsCount(action: Action) {
    action.InventoryCount? || action.ManualCount?
  }

  /** What an intake is paid, in all. */
  function Paid(item: Item, factor: real, action: Action): real {
    Value(item.stock, if action.GoodsReceipt? then item.netPrice else ItemCost(item, factor, action))
  }

  function NewStock(row: StockRow, item: Item, factor: real, action: Action): real {
    match action
    case GoodsReceipt | ReceivedWithTransfer | ProductionEvent => Clamp(row.stock) + Value(item.stock, factor)
    case SentWithTransfer => Clamp(row.stock) - Value(item.stock, factor)
    case ItemSold | WasteEvent => row.stock - Value(item.stock, factor)
    case InventoryCount | ManualCount => if item.stock != 0.0 then Value(item.stock, factor) else row.stock
  }

  /** The new average; None where the code divides by zero and no number comes out. */
  function NewAverage(row: StockRow, item: Item, factor: real, action: Action): Option<real>
    requires factor > 0.0
  {
    if IsIntake(action) then
      var stock := NewStock(row, item, factor, action);
      if stock == 0.0 then None
      else Some(Ratio(Value(Clamp(row.stock), row.averageCost) + Paid(item, factor, action), stock))
    else if IsCount(action) && item.cost != 0.0 then Some(Ratio(item.cost, factor))
    else Some(row.averageCost)
  }

  function Calculate(row: StockRow, item: Item, factor: real, action: Action): Option<Calculated>
    requires factor > 0.0
  {
    var average := NewAverage(row, item, factor, action);
    if average.None? then None
    else
      var stock := NewStock(row, item, factor, action);
      var cost := ItemCost(item, factor, action);
      var baseCost := if cost != 0.0 then Ratio(cost, factor) else row.averageCost;
      var seen := if Clamps(action) then Clamp(row.stock) else row.stock;
      Some(Calculated(row.material, stock, average.value, Round(Value(stock, average.value), Cents), factor,
                      IsIntake(action) || (IsCount(action) && seen - Value(item.stock, factor) < 0.0),
                      BaseItem(Value(item.stock, factor), baseCost, Value(Value(item.stock, factor), baseCost))))
  }

  // ----- arithmetic of averages -----

  lemma {:induction false} MulMono(x: real, y: real, w: real)
    requires w >= 0.0 && x <= y
    ensures x * w <= y * w
  {
  }

  lemma {:induction false} MulPositive(x: real, y: real)
    requires x > 0.0 && y > 0.0
    ensures Value(x, y) > 0.0
  {
  }

  lemma {:induction false} ValueLaws(a: real, b: real, p: real)
    ensures Value(a - b, p) == Value(a, p) - Value(b, p)
    ensures Value(a + b, p) == Value(a, p) + Value(b, p)
    ensures Value(p, a - b) == Value(p, a) - Value(p, b)
    ensures Value(a, p) == Value(p, a)
  {
  }

  lemma {:induction false} ThreeFactors(x: real, y: real, z: real)
    ensures Value(Value(x, y), z) == Value(x, Value(y, z))
  {
  }

  lemma {:induction false} ValueZero(x: real, f: real)
    requires f > 0.0
    ensures Value(x, f) == 0.0 <==> x == 0.0
  {
    if x > 0.0 {
      MulPositive(x, f);
    } else if x < 0.0 {
      MulPositive(-x, f);
      assert (-x) * f == -(x * f);
    }
  }

  lemma {:induction false} RatioLaws(n: real, d: real)
    requires d != 0.0
    ensures Value(d, Ratio(n, d)) == n
    ensures Ratio(Value(n, d), d) == n
  {
    assert d * (n / d) == n;
    assert n * d / d == n;
  }

  lemma {:induction false} Quotient(lo: real, n: real, d: real, hi: real)
    requires d > 0.0 && Value(lo, d) <= n <= Value(hi, d)
    ensures lo <= Ratio(n, d) <= hi
  {
    var q := n / d;
    assert q * d == n;
  }

  lemma {:induction false} WeightedLe(s: real, a: real, w: real, b: real, lo: real)
    requires s >= 0.0 && w >= 0.0 && lo <= a && lo <= b
    ensures Value(lo, s + w) <= Value(s, a) + Value(w, b)
  {
    MulMono(lo, a, s);
    MulMono(lo, b, w);
  }

  lemma {:induction false} WeightedGe(s: real, a: real, w: real, b: real, hi: real)
    requires s >= 0.0 && w >= 0.0 && a <= hi && b <= hi
    ensures Value(s, a) + Value(w, b) <= Value(hi, s + w)
  {
    MulMono(a, hi, s);
    MulMono(b, hi, w);
  }

  /** The average of stock s at cost a and quantity w at price b lies between the two. */
  lemma {:induction false} WeightedAverage(s: real, a: real, w: real, b: real, lo: real, hi: real)
    requires s >= 0.0 && w > 0.0 && lo <= a <= hi && lo <= b <= hi
    ensures lo <= Ratio(Value(s, a) + Value(w, b), s + w) <= hi
  {
    WeightedLe(s, a, w, b, lo);
    WeightedGe(s, a, w, b, hi);
    Quotient(lo, Value(s, a) + Value(w, b), s + w, hi);
  }

  // ----- one movement -----

  /** The base-unit price at which an intake takes stock in. */
  function UnitPrice(item: Item, factor: real, action: Action): real
    requires factor > 0.0
  {
    match action
    case GoodsReceipt => Ratio(item.netPrice, factor)
    case ReceivedWithTransfer => item.cost
    case _ => Ratio(item.cost, factor)
  }

  lemma {:induction false} Rescale(x: real, f: real, y: real)
    requires f > 0.0
    ensures Value(y, x) == Value(Value(y, f), Ratio(x, f))
    ensures Value(y, Value(x, f)) == Value(Value(y, f), x)
  {
    var z := x / f;
    assert z * f == x;
    assert y * (z * f) == y * f * z;
    assert y * (x * f) == y * f * x;
  }

  /** An intake pays its unit price for every base unit it brings. */
  lemma {:induction false} PaidIsPriceTimesQuantity(item: Item, factor: real, action: Action)
    requires factor > 0.0 && IsIntake(action)
    ensures Paid(item, factor, action) == Value(Value(item.stock, factor), UnitPrice(item, factor, action))
  {
    Rescale(item.netPrice, factor, item.stock);
    Rescale(item.cost, factor, item.stock);
  }

  /** The value of a row rises by exactly what was paid, over what the clamp left of it. */
  lemma {:induction false} IntakeWorth(row: StockRow, item: Item, factor: real, action: Action)
    requires factor > 0.0 && IsIntake(action) && NewStock(row, item, factor, action) != 0.0
    ensures Calculate(row, item, factor, action).Some?
    ensures Calculate(row, item, factor, action).value.Saved().Worth()
         == Value(Clamp(row.stock), row.averageCost) + Paid(item, factor, action)
  {
    RatioLaws(Value(Clamp(row.stock), row.averageCost) + Paid(item, factor, action),
        NewStock(row, item, factor, action));
  }

  /** A positive intake keeps the average between the old one and the price paid. */
  lemma {:induction false} IntakeAverage(row: StockRow, item: Item, factor: real, action: Action, lo: real, hi: real)
    requires factor > 0.0 && IsIntake(action) && item.stock > 0.0
    requires lo <= row.averageCost <= hi && lo <= UnitPrice(item, factor, action) <= hi
    ensures NewAverage(row, item, factor, action).Some?
    ensures lo <= NewAverage(row, item, factor, action).value <= hi
  {
    MulPositive(item.stock, factor);
    PaidIsPriceTimesQuantity(item, factor, action);
    var price := UnitPrice(item, factor, action);
    WeightedAverage(Clamp(row.stock), row.averageCost, Value(item.stock, factor), price, lo, hi);
  }

  /** With nothing in stock the average becomes exactly the intake's unit price. */
  lemma {:induction false} IntakeIntoNothing(row: StockRow, item: Item, factor: real, action: Action)
    requires factor > 0.0 && IsIntake(action) && item.stock > 0.0 && row.stock <= 0.0
    ensures NewAverage(row, item, factor, action) == Some(UnitPrice(item, factor, action))
  {
    var w, b := Value(item.stock, factor), UnitPrice(item, factor, action);
    MulPositive(item.stock, factor);
    PaidIsPriceTimesQuantity(item, factor, action);
    assert Value(Clamp(row.stock), row.averageCost) == 0.0;
    RatioLaws(b, w);
    ValueLaws(b, w, w);
    ValueLaws(b, w, b);
    assert Value(w, b) == Value(b, w) by { ValueLaws(w, 0.0, b); }
  }

  // ----- whole runs -----

  datatype Movement = Movement(action: Action, item: Item, factor: real)

  /** Factors are positive, and what is taken in or counted is a positive quantity. */
  predicate Proper(m: Movement) {
    && m.factor > 0.0
    && (IsIntake(m.action) ==> m.item.stock > 0.0)
  }

  predicate AllProper(moves: seq<Movement>) {
    forall i :: 0 <= i < |moves| ==> Proper(moves[i])
  }

  function Moved(row: StockRow, m: Movement): StockRow
    requires Proper(m)
  {
    var c := Calculate(row, m.item, m.factor, m.action);
    if c.Some? then c.value.Saved() else row
  }

  function After(row: StockRow, moves: seq<Movement>): StockRow
    requires AllProper(moves)
  {
    if moves == [] then row else Moved(After(row, moves[..|moves| - 1]), moves[|moves| - 1])
  }

  /** The movement names a base-unit price: every intake, and a count that carries a cost. */
  predicate Prices(m: Movement) {
    IsIntake(m.action) || ((m.action.InventoryCount? || m.action.ManualCount?) && m.item.cost != 0.0)
  }

  function Lowest(start: real, moves: seq<Movement>): real
    requires AllProper(moves)
  {
    if moves == [] then start
    else
      var rest, m := Lowest(start, moves[..|moves| - 1]), moves[|moves| - 1];
      if Prices(m) && UnitPrice(m.item, m.factor, m.action) < rest then UnitPrice(m.item, m.factor, m.action) else rest
  }

  function Highest(start: real, moves: seq<Movement>): real
    requires AllProper(moves)
  {
    if moves == [] then start
    else
      var rest, m := Highest(start, moves[..|moves| - 1]), moves[|moves| - 1];
      if Prices(m) && UnitPrice(m.item, m.factor, m.action) > rest then UnitPrice(m.item, m.factor, m.action) else rest
  }

  /** Over every run of proper movements the average cost stays between the lowest and the highest of
      the initial cost and the prices taken in. */
  lemma {:induction false} AverageStaysInHull(row: StockRow, moves: seq<Movement>)
    requires AllProper(moves)
    ensures Lowest(row.averageCost, moves) <= After(row, moves).averageCost <= Highest(row.averageCost, moves)
  {
    if moves != [] {
      var rest, m := moves[..|moves| - 1], moves[|moves| - 1];
      AverageStaysInHull(row, rest);
      if IsIntake(m.action) {
        IntakeAverage(After(row, rest), m.item, m.factor, m.action, Lowest(row.averageCost, moves),
            Highest(row.averageCost, moves));
      }
    }
  }

  /** Every saved value is the rounding of saved stock times saved average. */
  lemma {:induction false} StockValueRounded(row: StockRow, m: Movement)
    requires Proper(m)
    ensures Calculate(row, m.item, m.factor, m.action).Some?
    ensures Moved(row, m).stockValue == Round(Moved(row, m).Worth(), Cents)
  {
    if IsIntake(m.action) {
      MulPositive(m.item.stock, m.factor);
    }
  }

  lemma {:induction false} RunValueRounded(row: StockRow, moves: seq<Movement>)
    requires moves != [] && AllProper(moves)
    ensures After(row, moves).stockValue == Round(After(row, moves).Worth(), Cents)
  {
    StockValueRounded(After(row, moves[..|moves| - 1]), moves[|moves| - 1]);
  }

  // ----- what each movement does to the stock -----

  /** In base units: intakes add to the stock and transfers out take from it, counted up from zero when it is
      below; sales and waste take from it as it is, below zero if need be; a count that is not zero replaces
      it. Only intakes and counts with a cost of their own change the average cost. */
  lemma {:induction false} MovementMeans(row: StockRow, item: Item, factor: real, action: Action)
    requires factor > 0.0 && (IsIntake(action) ==> item.stock > 0.0)
    ensures Calculate(row, item, factor, action).Some?
    ensures var c := Calculate(row, item, factor, action).value;
            var moved, had := Value(item.stock, factor), if row.stock < 0.0 then 0.0 else row.stock;
      && c.material == row.material && c.base.stock == moved
      && match action
         case GoodsReceipt | ReceivedWithTransfer | ProductionEvent => c.stock == had + moved && c.positive
         case SentWithTransfer => c.stock == had - moved && c.averageCost == row.averageCost && !c.positive
         case ItemSold | WasteEvent => c.stock == row.stock - moved && c.averageCost == row.averageCost && !c.positive
         case InventoryCount | ManualCount =>
           && c.stock == (if item.stock != 0.0 then moved else row.stock)
           && (item.cost == 0.0 ==> c.averageCost == row.averageCost)
           && (item.cost != 0.0 ==> Value(factor, c.averageCost) == item.cost)
           && (c.positive <==> row.stock < moved)
  {
    if IsIntake(action) {
      MulPositive(item.stock, factor);
    }
    if item.cost != 0.0 {
      RatioLaws(item.cost, factor);
    }
  }

  /** An intake adds to the value of the row what the document pays: a receipt its net price for the quantity
      received, a production its cost for the quantity made, and a transfer its cost, which comes per base
      unit, for the base units. */
  lemma {:induction false} IntakeMeans(row: StockRow, item: Item, factor: real, action: Action)
    requires factor > 0.0 && IsIntake(action) && item.stock > 0.0
    ensures Calculate(row, item, factor, action).Some?
    ensures var worth := Calculate(row, item, factor, action).value.Saved().Worth();
            var had := Value(if row.stock < 0.0 then 0.0 else row.stock, row.averageCost);
            match action
            case GoodsReceipt => worth == had + Value(item.stock, item.netPrice)
            case ProductionEvent => worth == had + Value(item.stock, item.cost)
            case _ => worth == had + Value(Value(item.stock, factor), item.cost)
  {
    MulPositive(item.stock, factor);
    IntakeWorth(row, item, factor, action);
    Rescale(item.cost, factor, item.stock);
  }

  /** The history row of a movement carries the document's cost per base unit, the row's average when the
      document has none, and the moved quantity at that cost. A transfer's cost comes per base unit. */
  lemma {:induction false} HistoryMeans(row: StockRow, item: Item, factor: real, action: Action)
    requires factor > 0.0 && Calculate(row, item, factor, action).Some?
    ensures var base := Calculate(row, item, factor, action).value.base;
      && base.stockValue == Value(base.stock, base.cost)
      && (item.cost == 0.0 ==> base.cost == row.averageCost)
      && (item.cost != 0.0 && action.ReceivedWithTransfer? ==> base.cost == item.cost)
      && (item.cost != 0.0 && !action.ReceivedWithTransfer? ==> Value(factor, base.cost) == item.cost)
  {
    ValueZero(item.cost, factor);
    RatioLaws(item.cost, factor);
  }

  /** Base units a run brings in less those it takes out. */
  function InLessOut(moves: seq<Movement>): real {
    if moves == [] then 0.0
    else
      var m := moves[|moves| - 1];
      InLessOut(moves[..|moves| - 1])
      + match m.action
        case GoodsReceipt | ReceivedWithTransfer | ProductionEvent => Value(m.item.stock, m.factor)
        case _ => -Value(m.item.stock, m.factor)
  }

  /** Over every run without counts in which no clamp meets a row below zero, the stock changes by what
      came in less what went out. */
  lemma {:induction false} StockAddsUp(row: StockRow, moves: seq<Movement>)
    requires AllProper(moves) && forall i :: 0 <= i < |moves| ==> !IsCount(moves[i].action)
    requires forall i {:trigger moves[i]} :: 0 <= i < |moves| && Clamps(moves[i].action) ==>
               row.stock + InLessOut(moves[..i]) >= 0.0
    ensures After(row, moves).stock == row.stock + InLessOut(moves)
    ensures After(row, moves).material == row.material
  {
    if moves != [] {
      var n := |moves| - 1;
      var rest, m := moves[..n], moves[n];
      forall i {:trigger rest[i]} | 0 <= i < n ensures rest[i] == moves[i] && rest[..i] == moves[..i] {
      }
      StockAddsUp(row, rest);
      assert Proper(m) && !IsCount(m.action);
      MovementMeans(After(row, rest), m.item, m.factor, m.action);
    }
  }

  /** A count that is not zero sets the stock whatever happened before it. */
  lemma {:induction false} CountResets(row: StockRow, moves: seq<Movement>, count: Movement)
    requires AllProper(moves + [count]) && IsCount(count.action) && count.item.stock != 0.0
    ensures After(row, moves + [count]).stock == Value(count.item.stock, count.factor)
  {
    var all := moves + [count];
    assert all[..|moves|] == moves && all[|moves|] == count;
    assert Proper(count) && AllProper(moves) by {
      assert forall i :: 0 <= i < |moves| ==> all[i] == moves[i];
    }
    MovementMeans(After(row, moves), count.item, count.factor, count.action);
  }

  // ----- the inventory document -----

  /** An inventory document as loaded from the collection; calculating clamps its stock in place. */
  class InventoryDocument {
    var material: Material
    var stock: real
    var averageCost: real
    var stockValue: real
    var virtualConsumption: real

    function Row(): StockRow
      reads this
    {
      StockRow(material, stock, averageCost, stockValue)
    }

    constructor (row: StockRow)
      ensures Row() == row
    {
      material, stock, averageCost, stockValue := row.material, row.stock, row.averageCost, row.stockValue;
      virtualConsumption := 0.0;
    }

    method CalculateInventoryItem(item: Item, factor: real, action: Action) returns (result: Option<Calculated>)
      requires factor > 0.0
      modifies this`stock
      ensures result == Calculate(old(Row()), item, factor, action)
      ensures stock == if Clamps(action) then Clamp(old(stock)) else old(stock)
    {
      var newStock, newAverage, positive := stock, averageCost, false;
      var itemCost := item.cost;
      if action.ReceivedWithTransfer? {
        itemCost := Value(itemCost, factor);
      }
      match action {
        case GoodsReceipt =>
          if stock < 0.0 { stock := 0.0; }
          newStock := stock + Value(item.stock, factor);
          if newStock == 0.0 { return None; }
          newAverage := Ratio(Value(stock, averageCost) + Value(item.stock, item.netPrice), newStock);
          positive := true;
        case ReceivedWithTransfer | ProductionEvent =>
          if stock < 0.0 { stock := 0.0; }
          newStock := stock + Value(item.stock, factor);
          if newStock == 0.0 { return None; }
          newAverage := Ratio(Value(stock, averageCost) + Value(item.stock, itemCost), newStock);
          positive := true;
        case SentWithTransfer =>
          if stock < 0.0 { stock := 0.0; }
          newStock := stock - Value(item.stock, factor);
        case ItemSold | WasteEvent =>
          newStock := stock - Value(item.stock, factor);
        case InventoryCount | ManualCount =>
          if item.stock != 0.0 { newStock := Value(item.stock, factor); }
          if item.cost != 0.0 { newAverage := Ratio(item.cost, factor); }
          if stock - Value(item.stock, factor) < 0.0 { positive := true; }
      }
      var baseCost := if itemCost != 0.0 then Ratio(itemCost, factor) else averageCost;
      var base := BaseItem(Value(item.stock, factor), baseCost, Value(Value(item.stock, factor), baseCost));
      return Some(Calculated(material, newStock, newAverage, Round(Value(newStock, newAverage), Cents), factor,
                             positive, base));
    }

    /** A positive final cost replaces the calculated average; every caller here leaves it at 0. */
    method SaveInventory(calculated: Calculated, action: Action, finalAvgCost: real)
      requires calculated.material == material
      modifies this
      ensures var cost := if finalAvgCost > 0.0 then finalAvgCost else calculated.averageCost;
              Row() == calculated.Saved().(averageCost := cost)
      ensures virtualConsumption ==
              if action.InventoryCount? then 0.0
              else if calculated.stock < 0.0 && calculated.base.stock != 0.0 then
                var was := old(virtualConsumption);
                if was != 0.0 then was - calculated.stock else calculated.stock
              else old(virtualConsumption)
    {
      stock, stockValue := calculated.stock, calculated.stockValue;
      averageCost := if finalAvgCost > 0.0 then finalAvgCost else calculated.averageCost;
      if action.InventoryCount? {
        virtualConsumption := 0.0;
      } else if calculated.stock < 0.0 && calculated.base.stock != 0.0 {
        virtualConsumption := if virtualConsumption != 0.0 then virtualConsumption - calculated.stock
            else calculated.stock;
      }
    }
  }
}
