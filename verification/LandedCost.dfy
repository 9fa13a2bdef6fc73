/** A goods receipt from its request to the stock it raises: `create` prices the lines and totals the
    document, `processInventoryChanges` spreads the additional cost over them and takes them in. */
module LandedCost {
  import opened Rounding
  import opened VoucherLines
  import opened Valuation
  import opened StockBooks
  import opened Taxation

  /** A requested line: quantity and gross unit cost in the line's unit, with the factor to base units. */
  datatype ReceiptLine = ReceiptLine(material: Material, stock: real, cost: real, factor: real)

  /** A line as `create` completes it. */
  datatype PricedLine = PricedLine(material: Material, stock: real, cost: real, factor: real, tax: real, netPrice: real,
                                   stockValue: real)

  datatype Receipt = Receipt(items: seq<PricedLine>, totalCost: real, totalTaxableAmount: real, tax: real,
                             additionalCost: real)

  function PriceLine(l: ReceiptLine, ti: TaxIndication): PricedLine {
    var taxable := if ti.Included? then l.cost / GROSS_FACTOR else l.cost;
    PricedLine(l.material, l.stock, l.cost, l.factor,
               if ti.Included? then taxable * 15.0 / 100.0 else 0.0, taxable, Value(l.stock, l.cost))
  }

  function PriceAll(lines: seq<ReceiptLine>, ti: TaxIndication): (r: seq<PricedLine>)
    ensures |r| == |lines|
  {
    if lines == [] then [] else PriceAll(lines[..|lines| - 1], ti) + [PriceLine(lines[|lines| - 1], ti)]
  }

  function SumValue(items: seq<PricedLine>): real {
    if items == [] then 0.0 else SumValue(items[..|items| - 1]) + items[|items| - 1].stockValue
  }

  lemma {:induction false} SumValueSnoc(items: seq<PricedLine>, l: PricedLine)
    ensures SumValue(items + [l]) == SumValue(items) + l.stockValue
  {
    assert (items + [l])[..|items|] == items;
  }

  lemma {:induction false} PriceAllStep(lines: seq<ReceiptLine>, ti: TaxIndication, n: nat)
    requires n < |lines|
    ensures PriceAll(lines[..n + 1], ti) == PriceAll(lines[..n], ti) + [PriceLine(lines[n], ti)]
  {
    assert lines[..n + 1][..n] == lines[..n];
  }

  function PriceReceipt(lines: seq<ReceiptLine>, ti: TaxIndication, additionalCost: real): Receipt {
    var items := PriceAll(lines, ti);
    var total := SumValue(items) + additionalCost;
    var taxable := if ti.Included? then total / GROSS_FACTOR else total;
    Receipt(items, total, taxable, if ti.Included? then taxable * 15.0 / 100.0 else 0.0, additionalCost)
  }

  /** The loop of `create`, which completes each line and adds up the total. */
  method CreateReceipt(lines: seq<ReceiptLine>, ti: TaxIndication, additionalCost: real) returns (r: Receipt)
    ensures r == PriceReceipt(lines, ti, additionalCost)
  {
    var items: seq<PricedLine> := [];
    var totalCost := 0.0;
    for n := 0 to |lines|
      invariant items == PriceAll(lines[..n], ti)
      invariant totalCost == SumValue(items)
    {
      var i := lines[n];
      var itemTaxableAmount := if ti.Included? then i.cost / GROSS_FACTOR else i.cost;
      var tax := if ti.Included? then itemTaxableAmount * 15.0 / 100.0 else 0.0;
      var stockValue := Value(i.stock, i.cost);
      var priced := PricedLine(i.material, i.stock, i.cost, i.factor, tax, itemTaxableAmount, stockValue);
      assert priced == PriceLine(i, ti);
      SumValueSnoc(items, priced);
      PriceAllStep(lines, ti, n);
      items := items + [priced];
      totalCost := totalCost + stockValue;
    }
    assert lines[..|lines|] == lines;
    totalCost := totalCost + additionalCost;
    var taxable := if ti.Included? then totalCost / GROSS_FACTOR else totalCost;
    r := Receipt(items, totalCost, taxable, if ti.Included? then taxable * 15.0 / 100.0 else 0.0, additionalCost);
  }

  // ----- what a receipt states -----

  /** The requested quantities at their costs. */
  function RequestedValue(lines: seq<ReceiptLine>): real {
    if lines == [] then 0.0
    else RequestedValue(lines[..|lines| - 1]) + Value(lines[|lines| - 1].stock, lines[|lines| - 1].cost)
  }

  lemma {:induction false} PricedAt(lines: seq<ReceiptLine>, ti: TaxIndication, i: nat)
    requires i < |lines|
    ensures PriceAll(lines, ti)[i] == PriceLine(lines[i], ti)
  {
    if i < |lines| - 1 {
      PricedAt(lines[..|lines| - 1], ti, i);
    }
  }

  lemma {:induction false} PricedValue(lines: seq<ReceiptLine>, ti: TaxIndication)
    ensures SumValue(PriceAll(lines, ti)) == RequestedValue(lines)
  {
    if lines != [] {
      PricedValue(lines[..|lines| - 1], ti);
      SumValueSnoc(PriceAll(lines[..|lines| - 1], ti), PriceLine(lines[|lines| - 1], ti));
    }
  }

  /** Prices that include tax fall into net and tax, at 15 %, line by line and in total; other prices are the
      net, and carry no tax. A line is worth its quantity at its cost, tax and all. */
  lemma {:induction false} ReceiptStates(lines: seq<ReceiptLine>, ti: TaxIndication, additionalCost: real)
    ensures var r := PriceReceipt(lines, ti, additionalCost);
      && |r.items| == |lines|
      && r.totalCost == RequestedValue(lines) + additionalCost && r.additionalCost == additionalCost
      && r.totalTaxableAmount + r.tax == r.totalCost
      && 100.0 * r.tax == (if ti.Included? then 15.0 * r.totalTaxableAmount else 0.0)
      && (forall i :: 0 <= i < |lines| ==>
            var l, p := lines[i], r.items[i];
            && p.material == l.material && p.stock == l.stock && p.cost == l.cost && p.factor == l.factor
            && p.stockValue == Value(l.stock, l.cost)
            && p.netPrice + p.tax == l.cost
            && 100.0 * p.tax == (if ti.Included? then 15.0 * p.netPrice else 0.0))
  {
    PricedValue(lines, ti);
    NetAndTax(RequestedValue(lines) + additionalCost);
    forall i | 0 <= i < |lines| ensures PriceAll(lines, ti)[i] == PriceLine(lines[i], ti)
                                ensures PriceLine(lines[i], ti).netPrice + PriceLine(lines[i], ti).tax
                                          == lines[i].cost {
      PricedAt(lines, ti, i);
      NetAndTax(lines[i].cost);
    }
  }

  lemma {:induction false} NetAndTax(gross: real)
    ensures gross / GROSS_FACTOR + gross / GROSS_FACTOR * 15.0 / 100.0 == gross
  {
  }

  // ----- taking the lines in -----

  /** The base over which the additional cost is spread: zero when there is none to spread. */
  function SpreadBase(r: Receipt): real {
    if r.additionalCost > 0.0 then SumValue(r.items) else 0.0
  }

  /** Net price of a line after its share of the additional cost. */
  function LandedPrice(l: PricedLine, base: real, additionalCost: real): real
    requires l.stock != 0.0
  {
    if base > 0.0 then
      var share := Value(Ratio(l.stockValue, base), additionalCost);
      (Ratio(share, l.stock) + Ratio(l.stockValue, l.stock)) / GROSS_FACTOR
    else l.netPrice
  }

  predicate Receivable(r: Receipt) {
    forall i :: 0 <= i < |r.items| ==> r.items[i].stock > 0.0 && r.items[i].factor > 0.0
  }

  /** One line taken in at a net price. */
  function TakeInAt(rows: map<Place, StockRow>, p: Place, l: PricedLine, netPrice: real): map<Place, StockRow>
    requires l.factor > 0.0
  {
    var c := Calculate(At(rows, p), Item(l.stock, l.cost, netPrice), l.factor, GoodsReceipt);
    if c.None? then rows else rows[p := c.value.Saved()]
  }

  /** The rows after the first n lines of a receipt that is not a return. */
  function TakeIn(rows: map<Place, StockRow>, branch: Branch, r: Receipt, n: nat): map<Place, StockRow>
    requires Receivable(r) && n <= |r.items|
  {
    if n == 0 then rows
    else
      var l := r.items[n - 1];
      var netPrice := LandedPrice(l, SpreadBase(r), r.additionalCost);
      TakeInAt(TakeIn(rows, branch, r, n - 1), Place(branch, l.material), l, netPrice)
  }

  /** What line by line is paid into stock. */
  function LandedValue(l: PricedLine, base: real, additionalCost: real): real
    requires l.stock != 0.0
  {
    Value(l.stock, LandedPrice(l, base, additionalCost))
  }

  function LandedSum(r: Receipt, n: nat): real
    requires Receivable(r) && n <= |r.items|
  {
    if n == 0 then 0.0 else LandedSum(r, n - 1) + LandedValue(r.items[n - 1], SpreadBase(r), r.additionalCost)
  }

  /** With additional cost a line lands at its own value plus its share, net of tax. */
  lemma {:induction false} LandedWithShare(l: PricedLine, base: real, additionalCost: real)
    requires l.stock > 0.0 && base > 0.0
    ensures LandedValue(l, base, additionalCost)
              == (l.stockValue + Value(Ratio(l.stockValue, base), additionalCost)) / GROSS_FACTOR
  {
    var share := Value(Ratio(l.stockValue, base), additionalCost);
    RatioLaws(share, l.stock);
    RatioLaws(l.stockValue, l.stock);
    ValueOfSumOver(l.stock, Ratio(share, l.stock), Ratio(l.stockValue, l.stock));
  }

  lemma {:induction false} ValueOfSumOver(q: real, u: real, v: real)
    ensures Value(q, (u + v) / GROSS_FACTOR) == (Value(q, u) + Value(q, v)) / GROSS_FACTOR
  {
    var w := (u + v) / GROSS_FACTOR;
    assert u + v == w * GROSS_FACTOR;
    assert q * (u + v) == q * u + q * v;
    assert q * (w * GROSS_FACTOR) == (q * w) * GROSS_FACTOR;
  }

  /** The rows the first n lines are taken into. */
  function Touched(branch: Branch, r: Receipt, n: nat): set<Place>
    requires n <= |r.items|
  {
    if n == 0 then {} else Touched(branch, r, n - 1) + {Place(branch, r.items[n - 1].material)}
  }

  /** Base units the first n lines bring. */
  function Brought(r: Receipt, n: nat): real
    requires n <= |r.items|
  {
    if n == 0 then 0.0 else Brought(r, n - 1) + Value(r.items[n - 1].stock, r.items[n - 1].factor)
  }

  ghost predicate Counts(branch: Branch, r: Receipt, places: seq<Place>) {
    Distinct(places) && forall i :: 0 <= i < |r.items| ==> Place(branch, r.items[i].material) in places
  }

  /** Worth rises line by line by what is paid, and by what the clamps write up on rows below zero. */
  lemma {:induction false} TakeInRaises(rows: map<Place, StockRow>, branch: Branch, r: Receipt, n: nat,
                                        places: seq<Place>)
    requires Receivable(r) && n <= |r.items| && Counts(branch, r, places)
    ensures TakenIn(rows, TakeIn(rows, branch, r, n), Touched(branch, r, n), places, Brought(r, n), LandedSum(r, n))
  {
    if n == 0 {
      NothingTakenIn(rows, places);
    } else {
      TakeInRaises(rows, branch, r, n - 1, places);
      var before, l := TakeIn(rows, branch, r, n - 1), r.items[n - 1];
      var p, netPrice := Place(branch, l.material), LandedPrice(l, SpreadBase(r), r.additionalCost);
      var item := Item(l.stock, l.cost, netPrice);
      MulPositive(l.stock, l.factor);
      IntakeWorth(At(before, p), item, l.factor, GoodsReceipt);
      OneMoreIntake(rows, before, Touched(branch, r, n - 1), places, Brought(r, n - 1), LandedSum(r, n - 1),
                    p, Calculate(At(before, p), item, l.factor, GoodsReceipt).value.Saved(),
                    Value(l.stock, l.factor), Value(l.stock, netPrice));
    }
  }

  /** Shares of a spread add up in proportion to the value they are spread over. */
  lemma {:induction false} SharesUpTo(r: Receipt, n: nat)
    requires Receivable(r) && n <= |r.items| && SpreadBase(r) > 0.0
    ensures var s := SumValue(r.items[..n]);
            LandedSum(r, n) == (s + Value(Ratio(s, SpreadBase(r)), r.additionalCost)) / GROSS_FACTOR
  {
    if n > 0 {
      SharesUpTo(r, n - 1);
      var l, base := r.items[n - 1], SpreadBase(r);
      assert r.items[..n][..n - 1] == r.items[..n - 1];
      LandedWithShare(l, base, r.additionalCost);
      QuotientOfSum(SumValue(r.items[..n - 1]), l.stockValue, base);
      ValueLaws(Ratio(SumValue(r.items[..n - 1]), base), Ratio(l.stockValue, base), r.additionalCost);
    } else {
      assert r.items[..0] == [];
    }
  }

  lemma {:induction false} SelfQuotient(x: real)
    requires x > 0.0
    ensures Ratio(x, x) == 1.0
  {
  }

  lemma {:induction false} QuotientOfSum(x: real, y: real, d: real)
    requires d > 0.0
    ensures Ratio(x + y, d) == Ratio(x, d) + Ratio(y, d)
  {
  }

  lemma {:induction false} NetOfLine(l: ReceiptLine, ti: TaxIndication, base: real, additionalCost: real)
    requires l.stock != 0.0 && base <= 0.0
    ensures LandedValue(PriceLine(l, ti), base, additionalCost)
         == if ti.Included? then PriceLine(l, ti).stockValue / GROSS_FACTOR else PriceLine(l, ti).stockValue
  {
    ValueOfSumOver(l.stock, l.cost, 0.0);
  }

  /** Without a spread the lines land at their own net price. */
  lemma {:induction false} NetUpTo(r: Receipt, lines: seq<ReceiptLine>, ti: TaxIndication, n: nat)
    requires Receivable(r) && n <= |r.items| == |lines| && SpreadBase(r) <= 0.0
    requires forall i :: 0 <= i < |lines| ==> r.items[i] == PriceLine(lines[i], ti)
    ensures LandedSum(r, n) == if ti.Included? then SumValue(r.items[..n]) / GROSS_FACTOR else SumValue(r.items[..n])
  {
    if n > 0 {
      NetUpTo(r, lines, ti, n - 1);
      NetOfLine(lines[n - 1], ti, SpreadBase(r), r.additionalCost);
      assert r.items[..n][..n - 1] == r.items[..n - 1];
    }
  }

  lemma {:induction false} PriceAllAt(lines: seq<ReceiptLine>, ti: TaxIndication, i: nat)
    requires i < |lines|
    ensures PriceAll(lines, ti)[i] == PriceLine(lines[i], ti)
  {
    if i < |lines| - 1 {
      PriceAllAt(lines[..|lines| - 1], ti, i);
    }
  }

  lemma {:induction false} PricedReceipt(lines: seq<ReceiptLine>, ti: TaxIndication, additionalCost: real)
    requires forall i :: 0 <= i < |lines| ==> lines[i].stock > 0.0 && lines[i].factor > 0.0
    ensures Receivable(PriceReceipt(lines, ti, additionalCost))
    ensures forall i :: 0 <= i < |lines| ==> PriceReceipt(lines, ti, additionalCost).items[i] == PriceLine(lines[i], ti)
  {
    forall i | 0 <= i < |lines| ensures PriceReceipt(lines, ti, additionalCost).items[i] == PriceLine(lines[i], ti) {
      PriceAllAt(lines, ti, i);
    }
  }

  /** With a spread, all value and all additional cost land, net of tax. */
  lemma {:induction false} SpreadLands(r: Receipt)
    requires Receivable(r) && SpreadBase(r) > 0.0
    ensures LandedSum(r, |r.items|) == (SumValue(r.items) + r.additionalCost) / GROSS_FACTOR
  {
    assert r.items[..|r.items|] == r.items;
    SharesUpTo(r, |r.items|);
    SelfQuotient(SumValue(r.items));
    assert Value(1.0, r.additionalCost) == r.additionalCost;
  }

  /** What is paid into stock is the receipt's whole taxable amount exactly when there is no additional
      cost, or it is positive, there is value to spread it over, and the prices include tax. */
  lemma {:induction false} PaidIsTaxable(lines: seq<ReceiptLine>, ti: TaxIndication, additionalCost: real)
    requires forall i :: 0 <= i < |lines| ==> lines[i].stock > 0.0 && lines[i].factor > 0.0
    ensures Receivable(PriceReceipt(lines, ti, additionalCost))
    ensures var r := PriceReceipt(lines, ti, additionalCost);
            LandedSum(r, |r.items|) == r.totalTaxableAmount <==> Absorbable(r, ti)
  {
    var r := PriceReceipt(lines, ti, additionalCost);
    PricedReceipt(lines, ti, additionalCost);
    assert r.items[..|r.items|] == r.items;
    if SpreadBase(r) > 0.0 {
      SpreadLands(r);
    } else {
      NetUpTo(r, lines, ti, |r.items|);
    }
  }

  predicate Absorbable(r: Receipt, ti: TaxIndication) {
    r.additionalCost == 0.0 || (r.additionalCost > 0.0 && SumValue(r.items) > 0.0 && ti.Included?)
  }

  /** Beyond what the clamps write up, the receipt's whole taxable amount reaches stock exactly when it is
      absorbable; the write-up is nothing when no row it touches is below zero. */
  lemma {:induction false} LandedCostAbsorbed(rows: map<Place, StockRow>, branch: Branch, lines: seq<ReceiptLine>,
                                              ti: TaxIndication,
                                              additionalCost: real, places: seq<Place>)
    requires forall i :: 0 <= i < |lines| ==> lines[i].stock > 0.0 && lines[i].factor > 0.0
    requires Counts(branch, PriceReceipt(lines, ti, additionalCost), places)
    ensures Receivable(PriceReceipt(lines, ti, additionalCost))
    ensures var r := PriceReceipt(lines, ti, additionalCost);
            var rise := TotalWorth(TakeIn(rows, branch, r, |r.items|), places) - TotalWorth(rows, places);
            var touched := Touched(branch, r, |r.items|);
      && (rise - WorthWriteUp(rows, places, touched) == r.totalTaxableAmount <==> Absorbable(r, ti))
      && (NoneBelow(rows, places, touched) ==> WorthWriteUp(rows, places, touched) == 0.0)
  {
    var r := PriceReceipt(lines, ti, additionalCost);
    PaidIsTaxable(lines, ti, additionalCost);
    TakeInRaises(rows, branch, r, |r.items|, places);
    WriteUpZero(rows, places, Touched(branch, r, |r.items|));
  }

  // ----- returns -----

  /** On a return every line's quantity is negated, its value is not. */
  function Returned(l: PricedLine): PricedLine {
    l.(stock := -l.stock)
  }

  /** The rows after the first n lines of a return; it stops when a line leaves a row at exactly zero,
      because no average comes out and the row cannot be saved. */
  function TakeBack(rows: map<Place, StockRow>, branch: Branch, r: Receipt, n: nat): (map<Place, StockRow>, bool)
    requires Receivable(r) && n <= |r.items|
  {
    if n == 0 then (rows, true)
    else
      var (before, ok) := TakeBack(rows, branch, r, n - 1);
      var l := Returned(r.items[n - 1]);
      var p := Place(branch, l.material);
      var c := Calculate(At(before, p), Item(l.stock, l.cost, LandedPrice(l, SpreadBase(r), r.additionalCost)),
          l.factor, GoodsReceipt);
      if !ok || c.None? then (before, false) else (before[p := c.value.Saved()], true)
  }

  lemma {:induction false} RatioOfNegated(x: real, q: real)
    requires q != 0.0
    ensures Ratio(x, -q) == -Ratio(x, q)
    ensures Value(-q, x) == -Value(q, x) && Value(-q, -x) == Value(q, x)
  {
    assert (x / q) * q == x;
    assert -(x / q) * -q == x;
    assert -(x / q) == x / -q;
  }

  /** Without a spread a return takes out what the receipt paid in; with one, the negated quantity turns
      the price negative, so the return pays the landed value in a second time. */
  lemma {:induction false} ReturnPays(l: PricedLine, base: real, additionalCost: real)
    requires l.stock > 0.0
    ensures LandedValue(Returned(l), base, additionalCost)
         == if base > 0.0 then LandedValue(l, base, additionalCost) else -LandedValue(l, base, additionalCost)
    ensures LandedValue(Returned(l), base, additionalCost) == -LandedValue(l, base, additionalCost)
       <==> base <= 0.0 || LandedValue(l, base, additionalCost) == 0.0
  {
    if base > 0.0 {
      var share := Value(Ratio(l.stockValue, base), additionalCost);
      RatioOfNegated(share, l.stock);
      RatioOfNegated(l.stockValue, l.stock);
      RatioOfNegated(LandedPrice(l, base, additionalCost), l.stock);
    } else {
      RatioOfNegated(l.netPrice, l.stock);
    }
  }

  /** A returned line changes the worth of its row by what it pays, over what the clamp left. */
  lemma {:induction false} ReturnLineWorth(row: StockRow, l: PricedLine, base: real, additionalCost: real)
    requires l.factor > 0.0 && l.stock > 0.0
    ensures var item := Item(-l.stock, l.cost, LandedPrice(Returned(l), base, additionalCost));
            var c := Calculate(row, item, l.factor, GoodsReceipt);
      && (c.Some? <==> Clamp(row.stock) != Value(l.stock, l.factor))
      && (c.Some? ==> c.value.Saved().Worth()
                      == Value(Clamp(row.stock), row.averageCost) + LandedValue(Returned(l), base, additionalCost))
  {
    var item := Item(-l.stock, l.cost, LandedPrice(Returned(l), base, additionalCost));
    RatioOfNegated(l.factor, l.stock);
    if NewStock(row, item, l.factor, GoodsReceipt) != 0.0 {
      IntakeWorth(row, item, l.factor, GoodsReceipt);
    }
  }

  /** Taking a line in and returning it at the same net price restores stock and average cost exactly when
      there was stock before; otherwise the return fails. */
  lemma {:induction false} ReturnUndoesIff(row: StockRow, l: PricedLine, netPrice: real)
    requires l.factor > 0.0 && l.stock > 0.0
    ensures Calculate(row, Item(l.stock, l.cost, netPrice), l.factor, GoodsReceipt).Some?
    ensures var taken := Calculate(row, Item(l.stock, l.cost, netPrice), l.factor, GoodsReceipt).value.Saved();
            var back := Calculate(taken, Item(-l.stock, l.cost, netPrice), l.factor, GoodsReceipt);
      && (back.Some? <==> row.stock > 0.0)
      && (back.Some? ==> back.value.stock == row.stock && back.value.averageCost == row.averageCost)
  {
    var q, item := Value(l.stock, l.factor), Item(l.stock, l.cost, netPrice);
    MulPositive(l.stock, l.factor);
    RatioOfNegated(l.factor, l.stock);
    RatioOfNegated(netPrice, l.stock);
    IntakeWorth(row, item, l.factor, GoodsReceipt);
    if row.stock > 0.0 {
      RatioLaws(row.averageCost, row.stock);
      ValueLaws(row.stock, 0.0, row.averageCost);
    }
  }

  /** What the first n lines of a return pay in, all told. */
  function ReturnSum(r: Receipt, n: nat): real
    requires Receivable(r) && n <= |r.items|
  {
    if n == 0 then 0.0
    else ReturnSum(r, n - 1) + LandedValue(Returned(r.items[n - 1]), SpreadBase(r), r.additionalCost)
  }

  /** What the clamps write up on the way, line by line. */
  function ReturnWriteUps(rows: map<Place, StockRow>, branch: Branch, r: Receipt, n: nat): real
    requires Receivable(r) && n <= |r.items|
  {
    if n == 0 then 0.0
    else
      var row := At(TakeBack(rows, branch, r, n - 1).0, Place(branch, r.items[n - 1].material));
      ReturnWriteUps(rows, branch, r, n - 1) + Value(WrittenUp(row), row.averageCost)
  }

  lemma {:induction false} ReturnSumIs(r: Receipt, n: nat)
    requires Receivable(r) && n <= |r.items|
    ensures ReturnSum(r, n) == if SpreadBase(r) > 0.0 then LandedSum(r, n) else -LandedSum(r, n)
  {
    if n > 0 {
      ReturnSumIs(r, n - 1);
      ReturnPays(r.items[n - 1], SpreadBase(r), r.additionalCost);
    }
  }

  /** One returned line that can be saved. */
  lemma {:induction false} OneMoreReturn(rows: map<Place, StockRow>, branch: Branch, r: Receipt, n: nat,
                                         places: seq<Place>)
    requires Receivable(r) && 0 < n <= |r.items| && Counts(branch, r, places) && TakeBack(rows, branch, r, n).1
    ensures TakeBack(rows, branch, r, n - 1).1
    ensures var before, l := TakeBack(rows, branch, r, n - 1).0, r.items[n - 1];
            var row := At(before, Place(branch, l.material));
            TotalWorth(TakeBack(rows, branch, r, n).0, places)
            == TotalWorth(before, places) + Value(WrittenUp(row), row.averageCost)
               + LandedValue(Returned(l), SpreadBase(r), r.additionalCost)
  {
    var before, l := TakeBack(rows, branch, r, n - 1).0, r.items[n - 1];
    var p := Place(branch, l.material);
    var row := At(before, p);
    var item := Item(-l.stock, l.cost, LandedPrice(Returned(l), SpreadBase(r), r.additionalCost));
    ReturnLineWorth(row, l, SpreadBase(r), r.additionalCost);
    TotalsUpdate(before, places, p, Calculate(row, item, l.factor, GoodsReceipt).value.Saved());
    ValueLaws(Clamp(row.stock), row.stock, row.averageCost);
  }

  /** A return that goes through changes total worth by the write-ups and by what its lines pay: minus what
      the receipt paid without a spread, plus as much again with one. */
  lemma {:induction false} ReturnChangesWorth(rows: map<Place, StockRow>, branch: Branch, r: Receipt, n: nat,
                                              places: seq<Place>)
    requires Receivable(r) && n <= |r.items| && Counts(branch, r, places) && TakeBack(rows, branch, r, n).1
    ensures TotalWorth(TakeBack(rows, branch, r, n).0, places)
         == TotalWorth(rows, places) + ReturnWriteUps(rows, branch, r, n)
            + (if SpreadBase(r) > 0.0 then LandedSum(r, n) else -LandedSum(r, n))
  {
    ReturnSumIs(r, n);
    if n > 0 {
      OneMoreReturn(rows, branch, r, n, places);
      ReturnChangesWorth(rows, branch, r, n - 1, places);
      ReturnSumIs(r, n - 1);
    }
  }

  predicate DistinctLines(r: Receipt) {
    forall i, j :: 0 <= i < j < |r.items| ==> r.items[i].material != r.items[j].material
  }

  /** No line of the return takes a row to exactly zero. */
  predicate LeavesStock(rows: map<Place, StockRow>, branch: Branch, r: Receipt, n: nat)
    requires n <= |r.items|
  {
    forall i :: 0 <= i < n ==>
      Clamp(At(rows, Place(branch, r.items[i].material)).stock) != Value(r.items[i].stock, r.items[i].factor)
  }

  /** With distinct materials a return goes through exactly when no line of it takes its row, as it stood
      before, to exactly zero, and the write-ups are those of the rows before. */
  lemma {:induction false} DistinctReturn(rows: map<Place, StockRow>, branch: Branch, r: Receipt, n: nat,
                                          places: seq<Place>)
    requires Receivable(r) && n <= |r.items| && Counts(branch, r, places) && DistinctLines(r)
    ensures TakeBack(rows, branch, r, n).1 <==> LeavesStock(rows, branch, r, n)
    ensures forall i :: n <= i < |r.items| ==>
              var p := Place(branch, r.items[i].material);
              At(TakeBack(rows, branch, r, n).0, p) == At(rows, p) && p !in Touched(branch, r, n)
    ensures TakeBack(rows, branch, r, n).1 ==>
              ReturnWriteUps(rows, branch, r, n) == WorthWriteUp(rows, places, Touched(branch, r, n))
  {
    if n == 0 {
      WriteUpZero(rows, places, {});
    } else {
      DistinctReturn(rows, branch, r, n - 1, places);
      var l := r.items[n - 1];
      var p := Place(branch, l.material);
      ReturnLineWorth(At(rows, p), l, SpreadBase(r), r.additionalCost);
      WriteUpAdd(rows, places, Touched(branch, r, n - 1), p);
    }
  }

  // ----- where each line lands -----

  /** The only line of its material lands on its own row: the stock rises by its base units and the value by
      its value and its share of the additional cost, in proportion to value, less the tax in both; without
      additional cost, or value to spread it over, by its quantity at its net price. */
  lemma {:induction false} EachLineLands(rows: map<Place, StockRow>, branch: Branch, r: Receipt, n: nat, i: nat)
    requires Receivable(r) && i < n <= |r.items|
    requires forall j :: 0 <= j < n && j != i ==> r.items[j].material != r.items[i].material
    ensures var l, value := r.items[i], SumValue(r.items);
            var row, after := At(rows, Place(branch, l.material)),
                At(TakeIn(rows, branch, r, n), Place(branch, l.material));
            var had := if row.stock < 0.0 then 0.0 else row.stock;
            var paid := if r.additionalCost > 0.0 && value > 0.0
              then (l.stockValue + Value(Ratio(l.stockValue, value), r.additionalCost)) / 1.15
              else Value(l.stock, l.netPrice);
      && after.stock == had + Value(l.stock, l.factor)
      && after.Worth() == Value(had, row.averageCost) + paid
  {
    if i < n - 1 {
      EachLineLands(rows, branch, r, n - 1, i);
    } else {
      var l, before := r.items[i], TakeIn(rows, branch, r, i);
      NotYetTaken(rows, branch, r, i, l.material);
      MulPositive(l.stock, l.factor);
      var netPrice := LandedPrice(l, SpreadBase(r), r.additionalCost);
      IntakeMeans(At(before, Place(branch, l.material)), Item(l.stock, l.cost, netPrice), l.factor, GoodsReceipt);
      MovementMeans(At(before, Place(branch, l.material)), Item(l.stock, l.cost, netPrice), l.factor, GoodsReceipt);
      if SpreadBase(r) > 0.0 {
        LandedWithShare(l, SpreadBase(r), r.additionalCost);
      }
    }
  }

  lemma {:induction false} NotYetTaken(rows: map<Place, StockRow>, branch: Branch, r: Receipt, n: nat, m: Material)
    requires Receivable(r) && n <= |r.items| && forall j :: 0 <= j < n ==> r.items[j].material != m
    ensures At(TakeIn(rows, branch, r, n), Place(branch, m)) == At(rows, Place(branch, m))
  {
    if n > 0 {
      NotYetTaken(rows, branch, r, n - 1, m);
    }
  }

  /** One line of 1 at 1.00 whose price excludes tax, with 1.00 of additional cost: 2.00 are taxable, but
      2.00 / 1.15 reach stock; and returning the line pays that in a second time. */
  lemma {:induction false} UntaxedSpreadIsDiscounted(lines: seq<ReceiptLine>, additionalCost: real)
    requires |lines| == 1 && lines[0].stock == 1.0 && lines[0].cost == 1.0 && lines[0].factor == 1.0
    requires additionalCost == 1.0
    ensures var r := PriceReceipt(lines, NotIncluded, additionalCost);
      && Receivable(r) && |r.items| == 1
      && r.totalTaxableAmount == 2.0 && LandedSum(r, 1) == 2.0 / GROSS_FACTOR
      && ReturnSum(r, 1) == 2.0 / GROSS_FACTOR
  {
    var r := PriceReceipt(lines, NotIncluded, additionalCost);
    PricedReceipt(lines, NotIncluded, additionalCost);
    OneLineSum(r.items, lines[0]);
    SpreadLands(r);
    ReturnSumIs(r, 1);
  }

  lemma {:induction false} OneLineSum(items: seq<PricedLine>, l: ReceiptLine)
    requires |items| == 1 && items[0] == PriceLine(l, NotIncluded) && l.stock == 1.0 && l.cost == 1.0
    ensures SumValue(items) == 1.0
  {
    SumValueSnoc([], items[0]);
    assert [] + [items[0]] == items;
    assert Value(1.0, 1.0) == 1.0;
  }

  /** Net price at which line i is processed. */
  function PriceTaken(r: Receipt, i: nat, isReturn: bool): real
    requires Receivable(r) && i < |r.items|
  {
    LandedPrice(if isReturn then Returned(r.items[i]) else r.items[i], SpreadBase(r), r.additionalCost)
  }

  /** Quantity and price of a line in base units, as noted on it. */
  datatype Based = Based(baseUomStock: real, baseUomCost: real)

  function InBase(r: Receipt, i: nat, isReturn: bool): Based
    requires Receivable(r) && i < |r.items|
  {
    Based(Value(r.items[i].stock, r.items[i].factor), Ratio(PriceTaken(r, i, isReturn), r.items[i].factor))
  }

  lemma {:induction false} TakeBackStops(rows: map<Place, StockRow>, branch: Branch, r: Receipt, n: nat)
    requires Receivable(r) && n <= |r.items| && !TakeBack(rows, branch, r, n).1
    ensures TakeBack(rows, branch, r, |r.items|) == TakeBack(rows, branch, r, n)
    decreases |r.items| - n
  {
    if n < |r.items| {
      TakeBackStops(rows, branch, r, n + 1);
    }
  }

  class GoodsIn {
    var rows: map<Place, StockRow>

    /** Net price of a line after the spread, as the loop computes it. */
    method SpreadOver(l: PricedLine, totalCost: real, additionalCost: real) returns (netPrice: real)
      requires l.stock != 0.0
      ensures netPrice == LandedPrice(l, totalCost, additionalCost)
      ensures l.stock > 0.0 && totalCost > 0.0 ==>
                Value(l.stock, netPrice)
                    == (l.stockValue + Value(Ratio(l.stockValue, totalCost), additionalCost)) / GROSS_FACTOR
    {
      if totalCost <= 0.0 {
        return l.netPrice;
      }
      var perUnitPrice := Ratio(l.stockValue, l.stock);
      var totalAdditionalPerItem := Value(Ratio(l.stockValue, totalCost), additionalCost);
      var perunitAdditionalCost := Ratio(totalAdditionalPerItem, l.stock);
      if l.stock > 0.0 {
        LandedWithShare(l, totalCost, additionalCost);
      }
      return (perunitAdditionalCost + perUnitPrice) / GROSS_FACTOR;
    }

    /** Takes one line into stock at a net price. */
    method TakeInLine(branch: Branch, l: PricedLine, netPrice: real) returns (ok: bool)
      requires l.factor > 0.0
      modifies this`rows
      ensures var row := At(old(rows), Place(branch, l.material));
              ok <==> Calculate(row, Item(l.stock, l.cost, netPrice), l.factor, GoodsReceipt).Some?
      ensures rows == TakeInAt(old(rows), Place(branch, l.material), l, netPrice)
    {
      var p := Place(branch, l.material);
      var inventoryItem := new InventoryDocument(At(rows, p));
      var calculated := inventoryItem.CalculateInventoryItem(Item(l.stock, l.cost, netPrice), l.factor, GoodsReceipt);
      if calculated.Some? {
        inventoryItem.SaveInventory(calculated.value, GoodsReceipt, 0.0);
        rows := rows[p := inventoryItem.Row()];
      }
      return calculated.Some?;
    }

    /** The loop. Prices of the lines are overwritten as it goes, and the base-unit quantity and price are
        noted; a return stops at the first line that cannot be saved. */
    method ProcessInventoryChanges(branch: Branch, r: Receipt, isReturn: bool, netPrices: array<real>)
        returns (ok: bool, based: seq<Based>)
      requires Receivable(r) && netPrices.Length == |r.items|
      modifies this`rows, netPrices
      ensures !isReturn ==> ok && rows == TakeIn(old(rows), branch, r, |r.items|)
      ensures isReturn ==> (rows, ok) == TakeBack(old(rows), branch, r, |r.items|)
      ensures ok ==> |based| == |r.items|
      ensures ok ==> forall i :: 0 <= i < |r.items| ==>
                netPrices[i] == PriceTaken(r, i, isReturn) && based[i] == InBase(r, i, isReturn)
    {
      var totalCost := 0.0;
      if r.additionalCost > 0.0 {
        totalCost := SumValue(r.items);
      }
      based := [];
      for i := 0 to |r.items|
        invariant !isReturn ==> rows == TakeIn(old(rows), branch, r, i)
        invariant isReturn ==> (rows, true) == TakeBack(old(rows), branch, r, i)
        invariant |based| == i
        invariant forall j :: 0 <= j < i ==>
                    netPrices[j] == PriceTaken(r, j, isReturn) && based[j] == InBase(r, j, isReturn)
      {
        var l := if isReturn then Returned(r.items[i]) else r.items[i];
        netPrices[i] := SpreadOver(l, totalCost, r.additionalCost);
        if !isReturn {
          PositiveSaves(At(rows, Place(branch, l.material)), l, netPrices[i]);
        }
        ok := TakeInLine(branch, l, netPrices[i]);
        if !ok {
          TakeBackStops(old(rows), branch, r, i + 1);
          return false, based;
        }
        based := based + [Based(Value(Abs(l.stock), l.factor), Ratio(netPrices[i], l.factor))];
      }
      return true, based;
    }
  }

  lemma {:induction false} PositiveSaves(row: StockRow, l: PricedLine, netPrice: real)
    requires l.factor > 0.0 && l.stock > 0.0
    ensures Calculate(row, Item(l.stock, l.cost, netPrice), l.factor, GoodsReceipt).Some?
  {
    MulPositive(l.stock, l.factor);
  }
}
