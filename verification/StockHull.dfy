/** Average costs over a whole warehouse: what movements at single places and transfers between them can do
    to the averages of a material. */
module StockHull {
  import opened Rounding
  import opened VoucherLines
  import opened Valuation
  import opened StockBooks
  import opened Transfers

  /** A movement at one place, or one item of a transfer. */
  datatype Event =
    | Local(place: Place, move: Movement)
    | Sends(from: Branch, to: Branch, item: TransferItem)
  {
    function Material(): Valuation.Material {
      if Local? then place.material else item.material
    }
  }

  /** A movement is proper, and finds its row unless it is an intake; receipts of transfers come with the
      transfer. A transfer finds its source and sends a positive quantity. */
  predicate Fair(st: Stock, e: Event) {
    match e
    case Local(p, m) => Proper(m) && !m.action.ReceivedWithTransfer? && (p in st.rows || IsIntake(m.action))
    case Sends(from, to, item) => item.factor > 0.0 && item.quantity > 0.0 && Place(from, item.material) in st.rows
  }

  function After(st: Stock, e: Event): Stock
    requires Fair(st, e)
  {
    match e
    case Local(p, m) => st.(rows := st.rows[p := Moved(At(st.rows, p), m)])
    case Sends(from, to, item) => TransferOne(st, 0, from, to, item).0
  }

  /** Every event of the run is fair when its turn comes. */
  predicate FairRun(st: Stock, events: seq<Event>)
    decreases |events|, 0
  {
    events == [] || (FairRun(st, events[..|events| - 1]) && Fair(Run(st, events[..|events| - 1]), events[|events| - 1]))
  }

  function Run(st: Stock, events: seq<Event>): Stock
    requires FairRun(st, events)
    decreases |events|, 1
  {
    if events == [] then st else After(Run(st, events[..|events| - 1]), events[|events| - 1])
  }

  /** The base-unit price an event brings in from outside, if any: an intake or a priced count, or the
      override price of a transfer. */
  function Outside(e: Event): Option<real>
    requires e.Local? ==> e.move.factor > 0.0
  {
    match e
    case Local(p, m) => if Prices(m) then Some(UnitPrice(m.item, m.factor, m.action)) else None
    case Sends(from, to, item) =>
      if item.overridePrice > 0.0 then Some(Value(Round(item.overridePrice, Mills), item.overrideFactor)) else None
  }

  predicate PriceWithin(e: Event, lo: real, hi: real)
    requires e.Local? ==> e.move.factor > 0.0
  {
    Outside(e).Some? ==> lo <= Outside(e).value <= hi
  }

  /** Every row of the material, in any branch, has its average cost within the bounds. */
  predicate RowsWithin(rows: map<Place, StockRow>, m: Material, lo: real, hi: real) {
    forall p :: p in rows && p.material == m ==> lo <= rows[p].averageCost <= hi
  }

  lemma {:induction false} MovedWithin(rows: map<Place, StockRow>, p: Place, m: Movement, lo: real, hi: real)
    requires Proper(m) && !m.action.ReceivedWithTransfer? && (p in rows || IsIntake(m.action))
    requires p in rows ==> lo <= rows[p].averageCost <= hi
    requires Prices(m) ==> lo <= UnitPrice(m.item, m.factor, m.action) <= hi
    ensures lo <= Moved(At(rows, p), m).averageCost <= hi
  {
    var row := At(rows, p);
    if IsIntake(m.action) {
      if p in rows {
        IntakeAverage(row, m.item, m.factor, m.action, lo, hi);
      } else {
        IntakeIntoNothing(row, m.item, m.factor, m.action);
      }
    }
  }

  /** A transferred item leaves the source's average alone and brings the target's between its own and the
      cost transferred. */
  lemma {:induction false} SentWithin(st: Stock, from: Branch, to: Branch, item: TransferItem, lo: real, hi: real)
    requires item.factor > 0.0 && item.quantity > 0.0 && Place(from, item.material) in st.rows
    requires RowsWithin(st.rows, item.material, lo, hi)
    requires item.overridePrice > 0.0 ==> lo <= Value(Round(item.overridePrice, Mills), item.overrideFactor) <= hi
    ensures RowsWithin(TransferOne(st, 0, from, to, item).0.rows, item.material, lo, hi)
  {
    var sp, tp := Place(from, item.material), Place(to, item.material);
    var source, target := st.rows[sp], At(st.rows, tp);
    var incoming := Item(item.quantity, SourceCost(source, item), 0.0);
    ReceivedWorth(target, source, item);
    if tp in st.rows {
      IntakeAverage(target, incoming, item.factor, ReceivedWithTransfer, lo, hi);
    } else {
      IntakeIntoNothing(target, incoming, item.factor, ReceivedWithTransfer);
    }
  }

  lemma {:induction false} OtherRowsStay(st: Stock, e: Event, p: Place)
    requires Fair(st, e) && p.material != e.Material()
    ensures p in After(st, e).rows <==> p in st.rows
    ensures p in st.rows ==> After(st, e).rows[p] == st.rows[p]
  {
  }

  lemma {:induction false} EventWithin(st: Stock, e: Event, m: Material, lo: real, hi: real)
    requires Fair(st, e) && RowsWithin(st.rows, m, lo, hi) && (e.Material() == m ==> PriceWithin(e, lo, hi))
    ensures RowsWithin(After(st, e).rows, m, lo, hi)
  {
    if e.Material() != m {
      forall p | p in After(st, e).rows && p.material == m ensures lo <= After(st, e).rows[p].averageCost <= hi {
        OtherRowsStay(st, e, p);
      }
    } else if e.Local? {
      MovedWithin(st.rows, e.place, e.move, lo, hi);
    } else {
      SentWithin(st, e.from, e.to, e.item, lo, hi);
    }
  }

  /** The prices the events bring in for the material. */
  predicate PricesWithin(events: seq<Event>, m: Material, lo: real, hi: real) {
    forall i :: 0 <= i < |events| && events[i].Material() == m ==>
      (events[i].Local? ==> events[i].move.factor > 0.0) && PriceWithin(events[i], lo, hi)
  }

  /** Over every run of receipts, transfers, productions, sales, waste and counts over any branches, all
      averages of a material stay within bounds that hold its initial costs and the prices from outside;
      rows created on the way included. */
  lemma {:induction false} WarehouseStaysInHull(st: Stock, events: seq<Event>, m: Material, lo: real, hi: real)
    requires FairRun(st, events) && RowsWithin(st.rows, m, lo, hi) && PricesWithin(events, m, lo, hi)
    ensures RowsWithin(Run(st, events).rows, m, lo, hi)
  {
    if events != [] {
      var rest := events[..|events| - 1];
      assert forall i :: 0 <= i < |rest| ==> rest[i] == events[i];
      WarehouseStaysInHull(st, rest, m, lo, hi);
      EventWithin(Run(st, rest), events[|events| - 1], m, lo, hi);
    }
  }
}
