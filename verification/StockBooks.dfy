/** The inventory collection: one row per branch and material, and totals over a list of rows. */
module StockBooks {
  import opened VoucherLines
  import opened Valuation

  type Branch = nat

  datatype Place = Place(branch: Branch, material: Material)

  /** A history row: which document moved what, restated in base units. */
  datatype HistoryRow = HistoryRow(document: nat, place: Place, action: Action, base: BaseItem)

  datatype Stock = Stock(rows: map<Place, StockRow>, history: seq<HistoryRow>)

  /** Rows that do not exist yet are created with zero stock and zero cost. */
  function At(rows: map<Place, StockRow>, p: Place): StockRow {
    if p in rows then rows[p] else NewRow(p.material)
  }

  predicate Distinct<T(==)>(xs: seq<T>) {
    forall i, j :: 0 <= i < j < |xs| ==> xs[i] != xs[j]
  }

  function TotalStock(rows: map<Place, StockRow>, places: seq<Place>): real {
    if places == [] then 0.0
    else TotalStock(rows, places[..|places| - 1]) + At(rows, places[|places| - 1]).stock
  }

  function TotalWorth(rows: map<Place, StockRow>, places: seq<Place>): real {
    if places == [] then 0.0
    else TotalWorth(rows, places[..|places| - 1]) + At(rows, places[|places| - 1]).Worth()
  }

  /** Replacing one row changes the totals by the difference, if the row is counted at all. */
  lemma {:induction false} TotalsUpdate(rows: map<Place, StockRow>, places: seq<Place>, p: Place, r: StockRow)
    requires Distinct(places)
    ensures TotalStock(rows[p := r], places)
         == TotalStock(rows, places) + (if p in places then r.stock - At(rows, p).stock else 0.0)
    ensures TotalWorth(rows[p := r], places)
         == TotalWorth(rows, places) + (if p in places then r.Worth() - At(rows, p).Worth() else 0.0)
  {
    if places != [] {
      var rest, last := places[..|places| - 1], places[|places| - 1];
      TotalsUpdate(rows, rest, p, r);
      assert places == rest + [last];
      assert last !in rest;
    }
  }

  // ----- write-ups -----

  /** Units the clamp writes up on a row with negative stock. */
  function WrittenUp(r: StockRow): real {
    Clamp(r.stock) - r.stock
  }

  /** What clamping writes up, in units, over the rows that are touched. */
  function StockWriteUp(rows: map<Place, StockRow>, places: seq<Place>, touched: set<Place>): real {
    if places == [] then 0.0
    else
      var p := places[|places| - 1];
      StockWriteUp(rows, places[..|places| - 1], touched) + (if p in touched then WrittenUp(At(rows, p)) else 0.0)
  }

  /** And in worth. */
  function WorthWriteUp(rows: map<Place, StockRow>, places: seq<Place>, touched: set<Place>): real {
    if places == [] then 0.0
    else
      var p := places[|places| - 1];
      WorthWriteUp(rows, places[..|places| - 1], touched)
      + (if p in touched then Value(WrittenUp(At(rows, p)), At(rows, p).averageCost) else 0.0)
  }

  /** No touched row is below zero. */
  predicate NoneBelow(rows: map<Place, StockRow>, places: seq<Place>, touched: set<Place>) {
    forall i :: 0 <= i < |places| && places[i] in touched ==> At(rows, places[i]).stock >= 0.0
  }

  lemma {:induction false} WriteUpZero(rows: map<Place, StockRow>, places: seq<Place>, touched: set<Place>)
    ensures StockWriteUp(rows, places, touched) >= 0.0
    ensures StockWriteUp(rows, places, touched) == 0.0 <==> NoneBelow(rows, places, touched)
    ensures NoneBelow(rows, places, touched) ==> WorthWriteUp(rows, places, touched) == 0.0
  {
    if places != [] {
      var rest, p := places[..|places| - 1], places[|places| - 1];
      WriteUpZero(rows, rest, touched);
      var last := p in touched ==> At(rows, p).stock >= 0.0;
      assert NoneBelow(rows, places, touched) <==> NoneBelow(rows, rest, touched) && last by {
        assert forall i :: 0 <= i < |rest| ==> rest[i] == places[i];
      }
      assert Value(0.0, At(rows, p).averageCost) == 0.0;
    }
  }

  lemma {:induction false} WriteUpAdd(rows: map<Place, StockRow>, places: seq<Place>, touched: set<Place>, p: Place)
    requires Distinct(places)
    ensures StockWriteUp(rows, places, touched + {p})
         == StockWriteUp(rows, places, touched) + (if p in places && p !in touched then WrittenUp(At(rows, p)) else 0.0)
    ensures WorthWriteUp(rows, places, touched + {p})
         == WorthWriteUp(rows, places, touched)
            + (if p in places && p !in touched then Value(WrittenUp(At(rows, p)), At(rows, p).averageCost) else 0.0)
  {
    if places != [] {
      var rest, last := places[..|places| - 1], places[|places| - 1];
      WriteUpAdd(rows, rest, touched, p);
      assert places == rest + [last];
      assert last !in rest;
    }
  }

  /** `after` comes from `rows` by intakes on the touched places that bring in so much stock and pay so much
      worth; the totals grow by that and by the write-ups. */
  ghost predicate TakenIn(rows: map<Place, StockRow>, after: map<Place, StockRow>, touched: set<Place>,
                          places: seq<Place>, stock: real, worth: real) {
    && (forall p :: p in touched ==> At(after, p).stock >= 0.0)
    && (forall p :: p !in touched ==> At(after, p) == At(rows, p))
    && TotalStock(after, places) == TotalStock(rows, places) + StockWriteUp(rows, places, touched) + stock
    && TotalWorth(after, places) == TotalWorth(rows, places) + WorthWriteUp(rows, places, touched) + worth
  }

  lemma {:induction false} NothingTakenIn(rows: map<Place, StockRow>, places: seq<Place>)
    ensures TakenIn(rows, rows, {}, places, 0.0, 0.0)
  {
    WriteUpZero(rows, places, {});
  }

  lemma {:induction false} OneMoreIntake(rows: map<Place, StockRow>, before: map<Place, StockRow>, touched: set<Place>,
                                         places: seq<Place>,
                                         stock: real, worth: real, p: Place, row: StockRow, quantity: real, paid: real)
    requires Distinct(places) && p in places && quantity > 0.0
    requires TakenIn(rows, before, touched, places, stock, worth)
    requires row.stock == Clamp(At(before, p).stock) + quantity
    requires row.Worth() == Value(Clamp(At(before, p).stock), At(before, p).averageCost) + paid
    ensures TakenIn(rows, before[p := row], touched + {p}, places, stock + quantity, worth + paid)
  {
    var was := At(before, p);
    TotalsUpdate(before, places, p, row);
    WriteUpAdd(rows, places, touched, p);
    ValueLaws(Clamp(was.stock), was.stock, was.averageCost);
  }
}
