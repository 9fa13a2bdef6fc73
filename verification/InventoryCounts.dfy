/** An inventory count sheet: preparation against the stock on hand, edits, the status machine, and the
    application of the count to the stock. */
module InventoryCounts {
  import opened Rounding
  import opened VoucherLines
  import opened Valuation

  type Uom = nat

  /** Base unit of each material, the unit it is bought in where one is set, unit conversion factors, and
      the price overriding a material's average cost where one is set, already per base unit. */
  datatype Catalogue = Catalogue(base: Material -> Uom, buy: Material -> Option<Uom>, factor: (Uom, Uom) -> real,
                                 overridePrice: Material -> Option<real>)

  /** An inventory row of the branch, with the base unit stored when the row was created. */
  datatype Shelf = Shelf(row: StockRow, uomBase: Uom)

  datatype Entry = Entry(quantity: real, uom: Uom)

  datatype CountLine = CountLine(material: Material, entries: seq<Entry>)

  datatype CountItem = CountItem(
    material: Material, entries: seq<Entry>, uomBase: Uom,
    totalCount: real, countValue: real, onHandCount: real, onHandCountValue: real,
    differentialCount: real, differentialCountValue: real, marks: Marks)

  datatype Variation = Match | Below | Above

  /** What preparation notes on one entry; no status when the variation equals the stock on hand. */
  datatype EntryMark = EntryMark(
    baseQuantity: real, variationQuantity: real, status: Option<Variation>,
    purchaseQty: real, variationQuantityPurchase: real)

  /** And on the whole line. */
  datatype Marks = Marks(
    entries: seq<EntryMark>, variationQuantity: real, status: Variation, newPurchaseCount: real,
    onHandPurchaseCount: real, variationQuantityPurchase: real, onHandPurchaseValue: real)

  datatype CountStatus = New | Locked | Applied | Rejected

  /** Gain or loss of one material, as sent to the control report when a count is applied. */
  datatype Record = Record(material: Material, qtyGain: real, valueGain: real, countGain: nat, qtyLoss: real,
                           valueLoss: real, countLoss: nat)

  /** `applications` counts how often the sheet's items were written to the stock. */
  datatype World = World(shelves: map<Material, Shelf>, status: CountStatus, items: seq<CountItem>, applications: nat,
                         records: seq<Record>)

  datatype Op =
    | Edit(lines: seq<CountLine>)
    | ChangeStatus(status: CountStatus)
    | Elsewhere(material: Material, row: StockRow)  // any other movement of a stocked material

  datatype Reply = Done | ChangesNotAllowed | ItemLocked | Failed

  /** Entries of a line converted to one unit. */
  function CountIn(c: Catalogue, entries: seq<Entry>, uom: Uom): real {
    if entries == [] then 0.0
    else
      var e := entries[|entries| - 1];
      CountIn(c, entries[..|entries| - 1], uom) + InUnit(c, e, uom)
  }

  function InUnit(c: Catalogue, e: Entry, uom: Uom): real {
    Value(e.quantity, if e.uom == uom then 1.0 else c.factor(e.uom, uom))
  }

  /** Factor to the unit a material is bought in, 1 when none is set. */
  function BuyFactor(c: Catalogue, m: Material, uom: Uom): real {
    var buy := c.buy(m);
    if buy.Some? && uom != buy.value then c.factor(uom, buy.value) else 1.0
  }

  function PurchaseIn(c: Catalogue, m: Material, entries: seq<Entry>): real {
    if entries == [] then 0.0
    else
      var e := entries[|entries| - 1];
      PurchaseIn(c, m, entries[..|entries| - 1]) + Value(e.quantity, BuyFactor(c, m, e.uom))
  }

  function MarkEntry(c: Catalogue, m: Material, stock: real, e: Entry): EntryMark {
    var base, purchase := InUnit(c, e, c.base(m)), Value(e.quantity, BuyFactor(c, m, e.uom));
    var variation := base - stock;
    EntryMark(base, variation,
              if base == stock then Some(Match) else if variation < stock then Some(Below)
              else if variation > stock then Some(Above) else None,
              purchase, purchase - stock)
  }

  function MarkEntries(c: Catalogue, m: Material, stock: real, entries: seq<Entry>): seq<EntryMark> {
    if entries == [] then []
    else MarkEntries(c, m, stock, entries[..|entries| - 1]) + [MarkEntry(c, m, stock, entries[|entries| - 1])]
  }

  function MarkLine(c: Catalogue, row: StockRow, l: CountLine): Marks {
    var variation := CountIn(c, l.entries, c.base(l.material)) - row.stock;
    var purchase, before := PurchaseIn(c, l.material, l.entries), BuyFactor(c, l.material, c.base(l.material));
    Marks(MarkEntries(c, l.material, row.stock, l.entries), variation,
          if variation == 0.0 then Match else if variation < row.stock then Below else Above,
          purchase, Value(row.stock, before), purchase - row.stock, Value(row.stockValue, before))
  }

  function UnitCost(c: Catalogue, m: Material, row: StockRow): real {
    var p := c.overridePrice(m);
    if p.Some? && p.value > 0.0 then p.value else row.averageCost
  }

  function PrepareItem(c: Catalogue, shelf: Shelf, l: CountLine): CountItem {
    var count, onHand := CountIn(c, l.entries, c.base(l.material)), shelf.row.stock;
    var cost := UnitCost(c, l.material, shelf.row);
    var difference := if count - onHand > 0.0 then count - onHand else -(count - onHand);
    CountItem(l.material, l.entries, shelf.uomBase, count, Value(cost, count), onHand, Value(cost, onHand),
              difference, Value(cost, difference), MarkLine(c, shelf.row, l))
  }

  /** Rows for the materials that have none yet. */
  function WithShelves(c: Catalogue, shelves: map<Material, Shelf>, lines: seq<CountLine>): (r: map<Material, Shelf>)
    ensures shelves.Keys <= r.Keys
    ensures forall i :: 0 <= i < |lines| ==> lines[i].material in r
  {
    if lines == [] then shelves
    else
      var before, m := WithShelves(c, shelves, lines[..|lines| - 1]), lines[|lines| - 1].material;
      assert forall i :: 0 <= i < |lines| - 1 ==> lines[..|lines| - 1][i] == lines[i];
      if m in before then before else before[m := Shelf(NewRow(m), c.base(m))]
  }

  function PrepareAll(c: Catalogue, shelves: map<Material, Shelf>, lines: seq<CountLine>): (r: seq<CountItem>)
    requires forall i :: 0 <= i < |lines| ==> lines[i].material in shelves
    ensures |r| == |lines|
    ensures forall i :: 0 <= i < |lines| ==> r[i] == PrepareItem(c, shelves[lines[i].material], lines[i])
  {
    if lines == [] then []
    else PrepareAll(c, shelves, lines[..|lines| - 1])
         + [PrepareItem(c, shelves[lines[|lines| - 1].material], lines[|lines| - 1])]
  }

  /** The stock row after a count: the entries are converted again, now to the unit stored in the item. */
  function ApplyItem(c: Catalogue, row: StockRow, item: CountItem): StockRow {
    Calculate(row, Item(CountIn(c, item.entries, item.uomBase), 0.0, 0.0), 1.0, InventoryCount).value.Saved()
  }

  function ApplyAll(c: Catalogue, shelves: map<Material, Shelf>, items: seq<CountItem>): (r: map<Material, Shelf>)
    requires forall i :: 0 <= i < |items| ==> items[i].material in shelves
    ensures r.Keys == shelves.Keys
  {
    if items == [] then shelves
    else
      var before, item := ApplyAll(c, shelves, items[..|items| - 1]), items[|items| - 1];
      before[item.material := before[item.material].(row := ApplyItem(c, before[item.material].row, item))]
  }

  function RecordFor(item: CountItem): Record {
    if item.totalCount > item.onHandCount then
      Record(item.material, item.totalCount - item.onHandCount, item.countValue - item.onHandCountValue, 1, 0.0, 0.0, 0)
    else
      Record(item.material, 0.0, 0.0, 0, item.onHandCount - item.totalCount, item.onHandCountValue - item.countValue, 1)
  }

  function RecordsFor(items: seq<CountItem>): seq<Record> {
    if items == [] then [] else RecordsFor(items[..|items| - 1]) + [RecordFor(items[|items| - 1])]
  }

  predicate Closed(s: CountStatus) {
    s.Applied? || s.Rejected?
  }

  function Step(c: Catalogue, w: World, op: Op): (World, Reply) {
    match op
    case Elsewhere(m, row) =>
      if m in w.shelves then (w.(shelves := w.shelves[m := w.shelves[m].(row := row)]), Done) else (w, Failed)
    case Edit(lines) =>
      if Closed(w.status) then (w, ChangesNotAllowed)
      else if w.status.Locked? then (w, ItemLocked)
      else
        var shelves := WithShelves(c, w.shelves, lines);
        (w.(shelves := shelves, items := PrepareAll(c, shelves, lines)), Done)
    case ChangeStatus(s) =>
      if Closed(w.status) then (w, ChangesNotAllowed)
      else if !s.Applied? then (w.(status := s), Done)
      else if exists i :: 0 <= i < |w.items| && w.items[i].material !in w.shelves then (w, Failed)
      else
        (World(ApplyAll(c, w.shelves, w.items), Applied, w.items, w.applications + 1,
               w.records + RecordsFor(w.items)), Done)
  }

  function Run(c: Catalogue, w: World, ops: seq<Op>): World {
    if ops == [] then w else Step(c, Run(c, w, ops[..|ops| - 1]), ops[|ops| - 1]).0
  }

  /** A sheet just created from these lines. */
  function Start(c: Catalogue, shelves: map<Material, Shelf>, lines: seq<CountLine>): World {
    var s := WithShelves(c, shelves, lines);
    World(s, New, PrepareAll(c, s, lines), 0, [])
  }

  // ----- what every run keeps -----

  ghost predicate Consistent(w: World) {
    && (forall i :: 0 <= i < |w.items| ==> w.items[i].material in w.shelves)
    && w.applications == (if w.status.Applied? then 1 else 0)
    && w.records == (if w.status.Applied? then RecordsFor(w.items) else [])
  }

  /** Over every run of edits, locks, unlocks, accepts, rejects and other stock movements, the stock has
      been written by this sheet exactly once if its status is Applied and never otherwise. */
  lemma {:induction false} AppliedAtMostOnce(c: Catalogue, shelves: map<Material, Shelf>, lines: seq<CountLine>,
                                             ops: seq<Op>)
    ensures Consistent(Run(c, Start(c, shelves, lines), ops))
    ensures Run(c, Start(c, shelves, lines), ops).applications <= 1
  {
    if ops != [] {
      var before := Run(c, Start(c, shelves, lines), ops[..|ops| - 1]);
      AppliedAtMostOnce(c, shelves, lines, ops[..|ops| - 1]);
      StepConsistent(c, before, ops[|ops| - 1]);
    }
  }

  lemma {:induction false} StepConsistent(c: Catalogue, w: World, op: Op)
    requires Consistent(w)
    ensures Consistent(Step(c, w, op).0)
    ensures Step(c, w, op).1 == Failed ==> op.Elsewhere?
  {
    var w' := Step(c, w, op).0;
    if op.Edit? && w'.items != w.items {
      forall i | 0 <= i < |w'.items| ensures w'.items[i].material in w'.shelves {
        assert op.lines[i].material in w'.shelves;
      }
    }
  }

  /** Applied and Rejected absorb: nothing about the sheet changes any more, and this sheet leaves the
      stock alone. */
  lemma {:induction false} ClosedAbsorbs(c: Catalogue, w: World, ops: seq<Op>)
    requires Closed(w.status)
    ensures var w' := Run(c, w, ops);
            w'.status == w.status && w'.items == w.items && w'.applications == w.applications && w'.records == w.records
    ensures (forall i :: 0 <= i < |ops| ==> !ops[i].Elsewhere?) ==> Run(c, w, ops) == w
  {
    if ops != [] {
      var rest := ops[..|ops| - 1];
      ClosedAbsorbs(c, w, rest);
      if forall i :: 0 <= i < |ops| ==> !ops[i].Elsewhere? {
        assert forall i :: 0 <= i < |rest| ==> rest[i] == ops[i];
        assert !ops[|ops| - 1].Elsewhere?;
      }
    }
  }

  /** The lines change only by an edit made while the status is New. */
  lemma {:induction false} LinesChangeOnlyWhenNew(c: Catalogue, w: World, op: Op)
    requires Step(c, w, op).0.items != w.items
    ensures op.Edit? && w.status.New? && Step(c, w, op).1 == Done && Step(c, w, op).0.status.New?
  {
  }

  // ----- what applying does -----

  lemma {:induction false} ApplyItemStock(c: Catalogue, row: StockRow, item: CountItem)
    ensures ApplyItem(c, row, item).averageCost == row.averageCost
    ensures ApplyItem(c, row, item).stock ==
            if CountIn(c, item.entries, item.uomBase) != 0.0 then CountIn(c, item.entries, item.uomBase) else row.stock
  {
    assert forall x :: Value(x, 1.0) == x;
  }

  predicate DistinctItems(items: seq<CountItem>) {
    forall i, j :: 0 <= i < j < |items| ==> items[i].material != items[j].material
  }

  lemma {:induction false} ApplyAllAt(c: Catalogue, shelves: map<Material, Shelf>, items: seq<CountItem>, m: Material)
    requires forall i :: 0 <= i < |items| ==> items[i].material in shelves
    requires m in shelves && forall i :: 0 <= i < |items| ==> items[i].material != m
    ensures ApplyAll(c, shelves, items)[m] == shelves[m]
  {
    if items != [] {
      ApplyAllAt(c, shelves, items[..|items| - 1], m);
    }
  }

  /** With distinct materials every row is the one its own item gives. */
  lemma {:induction false} ApplyAllSets(c: Catalogue, shelves: map<Material, Shelf>, items: seq<CountItem>, i: nat)
    requires forall i :: 0 <= i < |items| ==> items[i].material in shelves
    requires DistinctItems(items) && i < |items|
    ensures ApplyAll(c, shelves, items)[items[i].material].row == ApplyItem(c, shelves[items[i].material].row, items[i])
  {
    var n := |items| - 1;
    if i < n {
      ApplyAllSets(c, shelves, items[..n], i);
    } else {
      ApplyAllAt(c, shelves, items[..n], items[n].material);
    }
  }

  /** The last count of a material that is not zero, or the stock there was. */
  function FinalStock(c: Catalogue, items: seq<CountItem>, m: Material, stock: real): real {
    if items == [] then stock
    else
      var before, item := FinalStock(c, items[..|items| - 1], m, stock), items[|items| - 1];
      var count := CountIn(c, item.entries, item.uomBase);
      if item.material == m && count != 0.0 then count else before
  }

  /** Applying a sheet leaves on every row the last count of its material that is not zero, and keeps the
      average cost. */
  lemma {:induction false} ApplyAllStock(c: Catalogue, shelves: map<Material, Shelf>, items: seq<CountItem>,
                                         m: Material)
    requires m in shelves && forall i :: 0 <= i < |items| ==> items[i].material in shelves
    ensures m in ApplyAll(c, shelves, items)
    ensures ApplyAll(c, shelves, items)[m].row.stock == FinalStock(c, items, m, shelves[m].row.stock)
    ensures ApplyAll(c, shelves, items)[m].row.averageCost == shelves[m].row.averageCost
  {
    if items != [] {
      var rest, item := items[..|items| - 1], items[|items| - 1];
      ApplyAllStock(c, shelves, rest, m);
      ApplyItemStock(c, ApplyAll(c, shelves, rest)[item.material].row, item);
    }
  }

  lemma {:induction false} FinalStockUnlisted(c: Catalogue, items: seq<CountItem>, m: Material, stock: real)
    requires forall i :: 0 <= i < |items| ==> items[i].material != m
    ensures FinalStock(c, items, m, stock) == stock
  {
    if items != [] {
      FinalStockUnlisted(c, items[..|items| - 1], m, stock);
    }
  }

  lemma {:induction false} FinalStockFrom(c: Catalogue, items: seq<CountItem>, m: Material, stock: real, i: nat)
    requires i <= |items| && forall j :: i <= j < |items| ==> items[j].material != m
    ensures FinalStock(c, items, m, stock) == FinalStock(c, items[..i], m, stock)
  {
    if i < |items| {
      FinalStockFrom(c, items[..|items| - 1], m, stock, i);
      assert items[..|items| - 1][..i] == items[..i];
    } else {
      assert items[..i] == items;
    }
  }

  /** The last item of a material sets its stock to its own count, or leaves what the items before it left. */
  lemma {:induction false} LastItemSets(c: Catalogue, shelves: map<Material, Shelf>, items: seq<CountItem>, i: nat)
    requires forall i :: 0 <= i < |items| ==> items[i].material in shelves
    requires i < |items| && forall j :: i < j < |items| ==> items[j].material != items[i].material
    ensures items[i].material in ApplyAll(c, shelves, items)
    ensures var item := items[i];
            var count := CountIn(c, item.entries, item.uomBase);
            ApplyAll(c, shelves, items)[item.material].row.stock
            == if count != 0.0 then count
               else FinalStock(c, items[..i], item.material, shelves[item.material].row.stock)
  {
    var m := items[i].material;
    ApplyAllStock(c, shelves, items, m);
    FinalStockFrom(c, items, m, shelves[m].row.stock, i + 1);
    assert items[..i + 1][..i] == items[..i];
  }

  /** Applying a prepared sheet whose rows agree with the catalogue on base units sets the stock to the total
      counted at preparation on the last line of a material, whatever moved in between, exactly when that
      total is not zero or the lines before it leave zero anyway: a zero count is not written. When no
      earlier line lists the material, what they leave is the stock itself. */
  lemma {:induction false} ApplySetsTotalCount(c: Catalogue, prepared: map<Material, Shelf>, lines: seq<CountLine>,
                                               shelves: map<Material, Shelf>, i: nat)
    requires forall k :: 0 <= k < |lines| ==> lines[k].material in prepared && lines[k].material in shelves
    requires i < |lines| && forall j :: i < j < |lines| ==> lines[j].material != lines[i].material
    requires prepared[lines[i].material].uomBase == c.base(lines[i].material)
    ensures var items, m := PrepareAll(c, prepared, lines), lines[i].material;
            var left := FinalStock(c, items[..i], m, shelves[m].row.stock);
      && (ApplyAll(c, shelves, items)[m].row.stock == items[i].totalCount
          <==> items[i].totalCount != 0.0 || left == 0.0)
      && ((forall j :: 0 <= j < i ==> lines[j].material != m) ==> left == shelves[m].row.stock)
  {
    var items, m := PrepareAll(c, prepared, lines), lines[i].material;
    assert items[i] == PrepareItem(c, prepared[m], lines[i]);
    LastItemSets(c, shelves, items, i);
    NothingEarlier(c, prepared, lines, m, shelves[m].row.stock, i);
  }

  lemma {:induction false} NothingEarlier(c: Catalogue, prepared: map<Material, Shelf>, lines: seq<CountLine>,
                                          m: Material, stock: real, i: nat)
    requires forall k :: 0 <= k < |lines| ==> lines[k].material in prepared
    requires i <= |lines|
    ensures (forall j :: 0 <= j < i ==> lines[j].material != m)
            ==> FinalStock(c, PrepareAll(c, prepared, lines)[..i], m, stock) == stock
  {
    if forall j :: 0 <= j < i ==> lines[j].material != m {
      FinalStockUnlisted(c, PrepareAll(c, prepared, lines)[..i], m, stock);
    }
  }

  /** A material counted as nothing where 5 are on hand keeps its 5. */
  lemma {:induction false} EmptyCountIsNotWritten(c: Catalogue, shelf: Shelf, m: Material)
    requires shelf.row.stock == 5.0
    ensures var item := PrepareItem(c, shelf, CountLine(m, []));
            item.totalCount == 0.0 && ApplyItem(c, shelf.row, item).stock == 5.0
  {
    ApplyItemStock(c, shelf.row, PrepareItem(c, shelf, CountLine(m, [])));
  }

  // ----- what preparing notes -----

  function SumBase(marks: seq<EntryMark>): real {
    if marks == [] then 0.0 else SumBase(marks[..|marks| - 1]) + marks[|marks| - 1].baseQuantity
  }

  function SumPurchase(marks: seq<EntryMark>): real {
    if marks == [] then 0.0 else SumPurchase(marks[..|marks| - 1]) + marks[|marks| - 1].purchaseQty
  }

  /** The entries' marks add up to the line's counts in both units. */
  lemma {:induction false} MarksAddUp(c: Catalogue, m: Material, stock: real, entries: seq<Entry>)
    ensures |MarkEntries(c, m, stock, entries)| == |entries|
    ensures SumBase(MarkEntries(c, m, stock, entries)) == CountIn(c, entries, c.base(m))
    ensures SumPurchase(MarkEntries(c, m, stock, entries)) == PurchaseIn(c, m, entries)
  {
    if entries != [] {
      var rest := entries[..|entries| - 1];
      MarksAddUp(c, m, stock, rest);
      assert MarkEntries(c, m, stock, entries)[..|rest|] == MarkEntries(c, m, stock, rest);
    }
  }

  /** The mark says on which side of the stock on hand the count lies. */
  predicate TellsSide(status: Variation, count: real, onHand: real) {
    && (status == Match <==> count == onHand)
    && (status == Above <==> count > onHand)
    && (status == Below <==> count < onHand)
  }

  /** The variation is compared with the stock on hand instead of with zero, so a line's mark tells the side
      exactly when a surplus is at least the stock on hand and a shortage is less than it. */
  lemma {:induction false} MarkTellsSideIff(c: Catalogue, shelf: Shelf, l: CountLine)
    ensures var item := PrepareItem(c, shelf, l);
            var variation := item.totalCount - item.onHandCount;
            TellsSide(item.marks.status, item.totalCount, item.onHandCount)
            <==> if variation > 0.0 then variation >= item.onHandCount
                 else variation == 0.0 || variation < item.onHandCount
  {
    var item := PrepareItem(c, shelf, l);
    assert item.marks.variationQuantity == item.totalCount - item.onHandCount;
  }

  /** 3 counted where 2 are on hand are marked as below. */
  lemma {:induction false} SurplusMarkedBelow(c: Catalogue, shelf: Shelf, l: CountLine)
    requires shelf.row.stock == 2.0 && CountIn(c, l.entries, c.base(l.material)) == 3.0
    ensures PrepareItem(c, shelf, l).marks.status == Below
  {
    MarkTellsSideIff(c, shelf, l);
  }

  /** The record of an item: gain less loss is the difference counted, in quantity and in value, and
      exactly one side is marked; a count that matches is marked as a loss of nothing. */
  lemma {:induction false} RecordMeans(c: Catalogue, shelf: Shelf, l: CountLine)
    ensures var item, r := PrepareItem(c, shelf, l), RecordFor(PrepareItem(c, shelf, l));
      && r.qtyGain - r.qtyLoss == item.totalCount - item.onHandCount
      && r.valueGain - r.valueLoss == item.countValue - item.onHandCountValue
      && r.qtyGain >= 0.0 && r.qtyLoss >= 0.0 && r.countGain + r.countLoss == 1
      && r.qtyGain + r.qtyLoss == item.differentialCount
      && (r.countGain == 1 <==> item.totalCount > item.onHandCount)
      && (UnitCost(c, l.material, shelf.row) >= 0.0 ==> r.valueGain + r.valueLoss == item.differentialCountValue)
  {
    var item, cost := PrepareItem(c, shelf, l), UnitCost(c, l.material, shelf.row);
    ValueLaws(item.totalCount, item.onHandCount, cost);
    ValueLaws(item.onHandCount, item.totalCount, cost);
  }

  // ----- what a count is worth -----

  /** Conversion factors come from unit sizes: so many of one unit make the other. */
  ghost predicate FromSizes(c: Catalogue, size: Uom -> real) {
    && (forall u :: size(u) > 0.0)
    && (forall u, v :: u != v ==> Value(c.factor(u, v), size(v)) == size(u))
  }

  /** What the entries hold, each quantity in the size of its own unit. */
  function Measured(entries: seq<Entry>, size: Uom -> real): real {
    if entries == [] then 0.0
    else
      var e := entries[|entries| - 1];
      Measured(entries[..|entries| - 1], size) + Value(e.quantity, size(e.uom))
  }

  /** The plain sum of the quantities. */
  function Pieces(entries: seq<Entry>): real {
    if entries == [] then 0.0 else Pieces(entries[..|entries| - 1]) + entries[|entries| - 1].quantity
  }

  predicate AllIn(entries: seq<Entry>, u: Uom) {
    forall i :: 0 <= i < |entries| ==> entries[i].uom == u
  }

  lemma {:induction false} ConvertedSize(c: Catalogue, size: Uom -> real, quantity: real, u: Uom, v: Uom)
    requires FromSizes(c, size)
    ensures u != v ==> Value(Value(quantity, c.factor(u, v)), size(v)) == Value(quantity, size(u))
    ensures Value(Value(quantity, 1.0), size(v)) == Value(quantity, size(v))
  {
    if u != v {
      ThreeFactors(quantity, c.factor(u, v), size(v));
    }
  }

  lemma {:induction false} CountMeasures(c: Catalogue, size: Uom -> real, entries: seq<Entry>, uom: Uom)
    requires FromSizes(c, size)
    ensures Value(CountIn(c, entries, uom), size(uom)) == Measured(entries, size)
  {
    if entries == [] {
      assert Value(0.0, size(uom)) == 0.0;
    } else {
      var rest, e := entries[..|entries| - 1], entries[|entries| - 1];
      CountMeasures(c, size, rest, uom);
      ConvertedSize(c, size, e.quantity, e.uom, uom);
      ValueLaws(CountIn(c, rest, uom), InUnit(c, e, uom), size(uom));
    }
  }

  lemma {:induction false} PurchaseMeasures(c: Catalogue, size: Uom -> real, m: Material, entries: seq<Entry>)
    requires FromSizes(c, size)
    ensures c.buy(m).Some? ==> Value(PurchaseIn(c, m, entries), size(c.buy(m).value)) == Measured(entries, size)
    ensures c.buy(m).None? ==> PurchaseIn(c, m, entries) == Pieces(entries)
  {
    if entries == [] {
      assert forall x :: Value(0.0, x) == 0.0;
    } else {
      var rest, e := entries[..|entries| - 1], entries[|entries| - 1];
      PurchaseMeasures(c, size, m, rest);
      assert Value(e.quantity, 1.0) == e.quantity;
      if c.buy(m).Some? {
        var buy := c.buy(m).value;
        ConvertedSize(c, size, e.quantity, e.uom, buy);
        ValueLaws(PurchaseIn(c, m, rest), Value(e.quantity, BuyFactor(c, m, e.uom)), size(buy));
      }
    }
  }

  /** A prepared line holds, in base units and in the unit bought in, what its entries hold in theirs; so do
      the marks of its entries, and the stock on hand restated in the unit bought in. */
  lemma {:induction false} CountedIsMeasured(c: Catalogue, size: Uom -> real, shelf: Shelf, l: CountLine)
    requires FromSizes(c, size)
    ensures var item := PrepareItem(c, shelf, l);
            var base, buy := c.base(l.material), c.buy(l.material);
      && Value(item.totalCount, size(base)) == Measured(l.entries, size)
      && (buy.Some? ==> Value(item.marks.newPurchaseCount, size(buy.value)) == Measured(l.entries, size))
      && (buy.Some? ==> Value(item.marks.onHandPurchaseCount, size(buy.value)) == Value(shelf.row.stock, size(base)))
      && (buy.None? ==> item.marks.newPurchaseCount == Pieces(l.entries)
                        && item.marks.onHandPurchaseCount == shelf.row.stock)
  {
    CountMeasures(c, size, l.entries, c.base(l.material));
    PurchaseMeasures(c, size, l.material, l.entries);
    if c.buy(l.material).Some? {
      ConvertedSize(c, size, shelf.row.stock, c.base(l.material), c.buy(l.material).value);
    }
    assert Value(shelf.row.stock, 1.0) == shelf.row.stock;
  }

  /** Entries all in one unit come to their plain sum, times the factor from that unit to the base unit, and
      to the unit bought in, where the units differ. */
  lemma {:induction false} OneUnitCounts(c: Catalogue, shelf: Shelf, l: CountLine, u: Uom)
    requires AllIn(l.entries, u)
    ensures var item := PrepareItem(c, shelf, l);
            var base, buy, pieces := c.base(l.material), c.buy(l.material), Pieces(l.entries);
      && item.totalCount == (if u == base then pieces else Value(c.factor(u, base), pieces))
      && item.marks.newPurchaseCount
         == (if buy.None? || u == buy.value then pieces else Value(c.factor(u, buy.value), pieces))
  {
    OneUnitCountIn(c, l.entries, u, c.base(l.material));
    OneUnitPurchase(c, l.material, l.entries, u);
  }

  lemma {:induction false} OneUnitCountIn(c: Catalogue, entries: seq<Entry>, u: Uom, uom: Uom)
    requires AllIn(entries, u)
    ensures CountIn(c, entries, uom) == if u == uom then Pieces(entries) else Value(c.factor(u, uom), Pieces(entries))
  {
    if entries == [] {
      assert Value(c.factor(u, uom), 0.0) == 0.0;
    } else {
      var rest, e := entries[..|entries| - 1], entries[|entries| - 1];
      assert forall i :: 0 <= i < |rest| ==> rest[i] == entries[i];
      OneUnitCountIn(c, rest, u, uom);
      assert Value(e.quantity, 1.0) == e.quantity;
      SumTimes(c.factor(u, uom), Pieces(rest), e.quantity);
    }
  }

  lemma {:induction false} OneUnitPurchase(c: Catalogue, m: Material, entries: seq<Entry>, u: Uom)
    requires AllIn(entries, u)
    ensures PurchaseIn(c, m, entries)
         == if c.buy(m).None? || u == c.buy(m).value then Pieces(entries)
            else Value(c.factor(u, c.buy(m).value), Pieces(entries))
  {
    if entries == [] {
      assert forall x :: Value(x, 0.0) == 0.0;
    } else {
      var rest, e := entries[..|entries| - 1], entries[|entries| - 1];
      assert forall i :: 0 <= i < |rest| ==> rest[i] == entries[i];
      OneUnitPurchase(c, m, rest, u);
      assert Value(e.quantity, 1.0) == e.quantity;
      SumTimes(BuyFactor(c, m, u), Pieces(rest), e.quantity);
    }
  }

  lemma {:induction false} SumTimes(f: real, x: real, y: real)
    ensures Value(f, x + y) == Value(f, x) + Value(y, f)
  {
  }

  /** Applying a sheet leaves on the row of a material, in the unit stored with its last item, what that
      item's entries hold in theirs, unless they hold nothing; entries all in one unit leave their plain sum
      times the factor to the stored unit. */
  lemma {:induction false} AppliedIsMeasured(c: Catalogue, size: Uom -> real, shelves: map<Material, Shelf>,
                                             items: seq<CountItem>, i: nat, u: Uom)
    requires forall k :: 0 <= k < |items| ==> items[k].material in shelves
    requires i < |items| && forall j :: i < j < |items| ==> items[j].material != items[i].material
    ensures items[i].material in ApplyAll(c, shelves, items)
    ensures var item := items[i];
            var stock := ApplyAll(c, shelves, items)[item.material].row.stock;
            var counted := if u == item.uomBase then Pieces(item.entries)
              else Value(c.factor(u, item.uomBase), Pieces(item.entries));
      && (FromSizes(c, size) && Measured(item.entries, size) != 0.0 ==>
            Value(stock, size(item.uomBase)) == Measured(item.entries, size))
      && (AllIn(item.entries, u) && counted != 0.0 ==> stock == counted)
  {
    var item := items[i];
    LastItemSets(c, shelves, items, i);
    if FromSizes(c, size) {
      CountMeasures(c, size, item.entries, item.uomBase);
      assert Value(0.0, size(item.uomBase)) == 0.0;
    }
    if AllIn(item.entries, u) {
      OneUnitCountIn(c, item.entries, u, item.uomBase);
    }
  }

  /** Boxes of twelve: n of them counted are 12 n in the base unit, at preparation and in the stock. */
  lemma {:induction false} BoxesOfTwelve(c: Catalogue, shelves: map<Material, Shelf>, m: Material, box: Uom, n: real)
    requires m in shelves && shelves[m].uomBase == c.base(m) && box != c.base(m)
    requires c.factor(box, c.base(m)) == 12.0 && n != 0.0
    ensures var items := PrepareAll(c, shelves, [CountLine(m, [Entry(n, box)])]);
      && items[0].totalCount == 12.0 * n
      && ApplyAll(c, shelves, items)[m].row.stock == 12.0 * n
  {
    var l := CountLine(m, [Entry(n, box)]);
    var items := PrepareAll(c, shelves, [l]);
    assert items[0] == PrepareItem(c, shelves[m], [l][0]);
    assert Pieces(l.entries) == n by {
      assert l.entries[..0] == [];
    }
    OneUnitCounts(c, shelves[m], l, box);
    assert Value(c.factor(box, c.base(m)), n) == 12.0 * n;
    AppliedIsMeasured(c, (u: Uom) => 1.0, shelves, items, 0, box);
  }

  // ----- what else preparing and changing status do -----

  /** A prepared line keeps its material, entries and stored unit, and values what was counted, what is on
      hand and the difference alike: at a positive override price, or else at the average cost. */
  lemma {:induction false} PreparedMeans(c: Catalogue, shelf: Shelf, l: CountLine)
    ensures var item, p := PrepareItem(c, shelf, l), c.overridePrice(l.material);
            var cost := if p.Some? && p.value > 0.0 then p.value else shelf.row.averageCost;
      && item.material == l.material && item.entries == l.entries && item.uomBase == shelf.uomBase
      && item.onHandCount == shelf.row.stock
      && item.differentialCount == Abs(item.totalCount - item.onHandCount)
      && item.countValue == Value(cost, item.totalCount)
      && item.onHandCountValue == Value(cost, item.onHandCount)
      && item.differentialCountValue == Value(cost, item.differentialCount)
      && item.marks.variationQuantity == item.totalCount - item.onHandCount
      && item.marks.variationQuantityPurchase == item.marks.newPurchaseCount - item.onHandCount
  {
  }

  /** Each entry is marked by itself: a match when it alone equals the stock on hand, otherwise below when it
      is less than twice the stock, above when it is more, and not at all at exactly twice. */
  lemma {:induction false} EntryMarksMean(c: Catalogue, size: Uom -> real, m: Material, stock: real,
                                          entries: seq<Entry>, i: nat)
    requires FromSizes(c, size) && i < |entries|
    ensures |MarkEntries(c, m, stock, entries)| == |entries|
    ensures var mark, e := MarkEntries(c, m, stock, entries)[i], entries[i];
      && Value(mark.baseQuantity, size(c.base(m))) == Value(e.quantity, size(e.uom))
      && mark.variationQuantity == mark.baseQuantity - stock
      && (c.buy(m).Some? ==> Value(mark.purchaseQty, size(c.buy(m).value)) == Value(e.quantity, size(e.uom)))
      && (c.buy(m).None? ==> mark.purchaseQty == e.quantity)
      && mark.variationQuantityPurchase == mark.purchaseQty - stock
      && (mark.status == Some(Match) <==> mark.baseQuantity == stock)
      && (mark.status == Some(Below) <==> mark.baseQuantity != stock && mark.baseQuantity < 2.0 * stock)
      && (mark.status == Some(Above) <==> mark.baseQuantity != stock && mark.baseQuantity > 2.0 * stock)
  {
    var n, e := |entries| - 1, entries[i];
    MarksAddUp(c, m, stock, entries);
    MarksAddUp(c, m, stock, entries[..n]);
    if i < n {
      EntryMarksMean(c, size, m, stock, entries[..n], i);
    } else {
      ConvertedSize(c, size, e.quantity, e.uom, c.base(m));
      assert Value(e.quantity, 1.0) == e.quantity;
      if c.buy(m).Some? {
        ConvertedSize(c, size, e.quantity, e.uom, c.buy(m).value);
      }
    }
  }

  /** Missing rows are created empty, in the material's base unit; the rows there are stay as they are. */
  lemma {:induction false} RowsCreated(c: Catalogue, shelves: map<Material, Shelf>, lines: seq<CountLine>, m: Material)
    ensures m in WithShelves(c, shelves, lines) <==>
            m in shelves || exists i :: 0 <= i < |lines| && lines[i].material == m
    ensures m in WithShelves(c, shelves, lines) ==>
              var shelf := WithShelves(c, shelves, lines)[m];
              if m in shelves then shelf == shelves[m]
              else shelf.row.stock == 0.0 && shelf.row.averageCost == 0.0 && shelf.row.stockValue == 0.0
                   && shelf.uomBase == c.base(m)
  {
    if lines != [] {
      var n := |lines| - 1;
      RowsCreated(c, shelves, lines[..n], m);
      assert forall i :: 0 <= i < n ==> lines[..n][i] == lines[i];
      assert lines[n].material == m ==> exists i :: 0 <= i < |lines| && lines[i].material == m;
    }
  }

  /** On a new sheet an edit prepares every line against the row as it is then, a missing one created empty,
      and changes no row there is; on any other it changes nothing. */
  lemma {:induction false} EditMeans(c: Catalogue, w: World, lines: seq<CountLine>, i: nat)
    requires i < |lines|
    ensures var (after, reply) := Step(c, w, Edit(lines));
            var m := lines[i].material;
      && (w.status == Applied || w.status == Rejected ==> reply == ChangesNotAllowed)
      && (w.status == Locked ==> reply == ItemLocked)
      && (w.status != New ==> after == w)
      && (w.status == New ==>
            && reply == Done && after.status == New && |after.items| == |lines|
            && after.items[i].material == m && after.items[i].entries == lines[i].entries
            && after.items[i].onHandCount == (if m in w.shelves then w.shelves[m].row.stock else 0.0)
            && after.items[i].uomBase == (if m in w.shelves then w.shelves[m].uomBase else c.base(m))
            && after.records == w.records && after.applications == w.applications
            && forall n :: n in w.shelves ==> n in after.shelves && after.shelves[n] == w.shelves[n])
  {
    forall n | n in w.shelves ensures n in WithShelves(c, w.shelves, lines)
                              ensures WithShelves(c, w.shelves, lines)[n] == w.shelves[n] {
      RowsCreated(c, w.shelves, lines, n);
    }
    RowsCreated(c, w.shelves, lines, lines[i].material);
  }

  /** On an open sheet a change of status takes effect; every status but Applied leaves stock, lines and
      records alone, and Applied writes the stock once and records every item. */
  lemma {:induction false} StatusMeans(c: Catalogue, w: World, s: CountStatus)
    requires Consistent(w)
    ensures var (after, reply) := Step(c, w, ChangeStatus(s));
      && (reply == Done <==> w.status != Applied && w.status != Rejected)
      && (reply != Done ==> after == w)
      && (reply == Done ==> after.status == s && after.items == w.items)
      && (reply == Done && s != Applied ==> after.shelves == w.shelves && after.records == w.records)
      && (reply == Done && s == Applied ==>
            && |after.records| == |w.items|
            && forall i :: 0 <= i < |w.items| ==>
                 after.records[i] == RecordFor(w.items[i]) && after.records[i].material == w.items[i].material)
  {
    RecordsEach(w.items);
  }

  lemma {:induction false} RecordsEach(items: seq<CountItem>)
    ensures |RecordsFor(items)| == |items|
    ensures forall i :: 0 <= i < |items| ==> RecordsFor(items)[i] == RecordFor(items[i])
  {
    if items != [] {
      RecordsEach(items[..|items| - 1]);
    }
  }

  class CountSheet {
    const c: Catalogue
    var shelves: map<Material, Shelf>
    var status: CountStatus
    var items: seq<CountItem>
    var applications: nat
    var records: seq<Record>

    function State(): World
      reads this
    {
      World(shelves, status, items, applications, records)
    }

    constructor (c: Catalogue, shelves: map<Material, Shelf>)
      ensures this.c == c && State() == World(shelves, New, [], 0, [])
    {
      this.c, this.shelves, status, items, applications, records := c, shelves, New, [], 0, [];
    }

    method CreateMissingRows(lines: seq<CountLine>)
      modifies this`shelves
      ensures shelves == WithShelves(c, old(shelves), lines)
    {
      for i := 0 to |lines|
        invariant shelves == WithShelves(c, old(shelves), lines[..i])
      {
        assert lines[..i + 1][..i] == lines[..i];
        var m := lines[i].material;
        if m !in shelves {
          shelves := shelves[m := Shelf(NewRow(m), c.base(m))];
        }
      }
      assert lines[..|lines|] == lines;
    }

    method PrepareLine(l: CountLine, shelf: Shelf) returns (item: CountItem)
      ensures item == PrepareItem(c, shelf, l)
    {
      var count := CountEntries(l.entries, c.base(l.material));
      var marks := MarkCounts(l, shelf.row, count);
      var differentialCount := count - shelf.row.stock;
      differentialCount := if differentialCount > 0.0 then differentialCount else -differentialCount;
      var invAvgCost := shelf.row.averageCost;
      var p := c.overridePrice(l.material);
      if p.Some? && p.value > 0.0 {
        invAvgCost := p.value;
      }
      item := CountItem(l.material, l.entries, shelf.uomBase, count, Value(invAvgCost, count),
                        shelf.row.stock, Value(invAvgCost, shelf.row.stock),
                        differentialCount, Value(invAvgCost, differentialCount), marks);
    }

    /** The marks of one line, entry by entry and as a whole. */
    method MarkCounts(l: CountLine, row: StockRow, count: real) returns (marks: Marks)
      requires count == CountIn(c, l.entries, c.base(l.material))
      ensures marks == MarkLine(c, row, l)
    {
      var purchaseCount := 0.0;
      var entries: seq<EntryMark> := [];
      for i := 0 to |l.entries|
        invariant purchaseCount == PurchaseIn(c, l.material, l.entries[..i])
        invariant entries == MarkEntries(c, l.material, row.stock, l.entries[..i])
      {
        assert l.entries[..i + 1][..i] == l.entries[..i];
        var e := l.entries[i];
        var uomBase := c.base(l.material);
        var baseQuantity := Value(e.quantity, if e.uom == uomBase then 1.0 else c.factor(e.uom, uomBase));
        var variationQty := baseQuantity - row.stock;
        var variationStatus := None;
        if baseQuantity == row.stock {
          variationStatus := Some(Match);
        } else if variationQty < row.stock {
          variationStatus := Some(Below);
        } else if variationQty > row.stock {
          variationStatus := Some(Above);
        }
        var purchaseQuantity := Value(e.quantity, BuyFactor(c, l.material, e.uom));
        purchaseCount := purchaseCount + purchaseQuantity;
        entries := entries + [EntryMark(baseQuantity, variationQty, variationStatus, purchaseQuantity,
                                        purchaseQuantity - row.stock)];
      }
      assert l.entries[..|l.entries|] == l.entries;
      var before := BuyFactor(c, l.material, c.base(l.material));
      var variationQty := count - row.stock;
      marks := Marks(entries, variationQty,
                     if variationQty == 0.0 then Match else if variationQty < row.stock then Below else Above,
                     purchaseCount, Value(row.stock, before), purchaseCount - row.stock, Value(row.stockValue, before));
    }

    /** Creates the missing rows, then prepares each line against its row. */
    method PrepareInventoryCountData(lines: seq<CountLine>) returns (prepared: seq<CountItem>)
      modifies this`shelves
      ensures shelves == WithShelves(c, old(shelves), lines)
      ensures prepared == PrepareAll(c, shelves, lines)
    {
      CreateMissingRows(lines);
      prepared := [];
      for j := 0 to |lines|
        invariant shelves == WithShelves(c, old(shelves), lines)
        invariant prepared == PrepareAll(c, shelves, lines[..j])
      {
        assert lines[..j + 1][..j] == lines[..j];
        var item := PrepareLine(lines[j], shelves[lines[j].material]);
        prepared := prepared + [item];
      }
      assert lines[..|lines|] == lines;
    }

    method CountEntries(entries: seq<Entry>, uom: Uom) returns (count: real)
      ensures count == CountIn(c, entries, uom)
    {
      count := 0.0;
      for i := 0 to |entries|
        invariant count == CountIn(c, entries[..i], uom)
      {
        assert entries[..i + 1][..i] == entries[..i];
        var conversionFactor := 1.0;
        if entries[i].uom != uom {
          conversionFactor := c.factor(entries[i].uom, uom);
        }
        count := count + Value(entries[i].quantity, conversionFactor);
      }
      assert entries[..|entries|] == entries;
    }

    method Update(lines: seq<CountLine>) returns (reply: Reply)
      modifies this
      ensures (State(), reply) == Step(c, old(State()), Edit(lines))
    {
      if status.Rejected? || status.Applied? {
        return ChangesNotAllowed;
      }
      if status.Locked? {
        return ItemLocked;
      }
      items := PrepareInventoryCountData(lines);
      return Done;
    }

    method ApplyInventoryCount()
      requires forall i :: 0 <= i < |items| ==> items[i].material in shelves
      modifies this`shelves
      ensures shelves == ApplyAll(c, old(shelves), items)
    {
      for j := 0 to |items|
        invariant shelves.Keys == old(shelves).Keys
        invariant shelves == ApplyAll(c, old(shelves), items[..j])
      {
        assert items[..j + 1][..j] == items[..j];
        var item := items[j];
        var count := CountEntries(item.entries, item.uomBase);
        var inventory := new InventoryDocument(shelves[item.material].row);
        var calculated := inventory.CalculateInventoryItem(Item(count, 0.0, 0.0), 1.0, InventoryCount);
        inventory.SaveInventory(calculated.value, InventoryCount, 0.0);
        shelves := shelves[item.material := shelves[item.material].(row := inventory.Row())];
      }
      assert items[..|items|] == items;
    }

    method RecordGainsAndLosses() returns (news: seq<Record>)
      ensures news == RecordsFor(items)
    {
      news := [];
      for i := 0 to |items|
        invariant news == RecordsFor(items[..i])
      {
        assert items[..i + 1][..i] == items[..i];
        var el := items[i];
        if el.totalCount > el.onHandCount {
          news := news + [Record(el.material, el.totalCount - el.onHandCount, el.countValue - el.onHandCountValue, 1,
                                 0.0, 0.0, 0)];
        } else {
          news := news + [Record(el.material, 0.0, 0.0, 0,
                                 el.onHandCount - el.totalCount, el.onHandCountValue - el.countValue, 1)];
        }
      }
      assert items[..|items|] == items;
    }

    method SetStatus(s: CountStatus) returns (reply: Reply)
      modifies this
      ensures (State(), reply) == Step(c, old(State()), ChangeStatus(s))
    {
      if status.Rejected? || status.Applied? {
        return ChangesNotAllowed;
      }
      if s.Applied? {
        if exists i :: 0 <= i < |items| && items[i].material !in shelves {
          return Failed;
        }
        ApplyInventoryCount();
        var news := RecordGainsAndLosses();
        records := records + news;
        applications := applications + 1;
      }
      status := s;
      return Done;
    }
  }
}
