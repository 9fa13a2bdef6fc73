/** Stock transfers between branches, as a list of items from one branch to another and in the older
    form of one material from one branch to several. */
module Transfers {
  import opened Rounding
  import opened VoucherLines
  import opened Valuation
  import opened StockBooks

  /** A quantity in the item's unit, with the factor from that unit to the base unit. A positive override
      price, per base unit, replaces the source's average cost after conversion by its own factor. */
  datatype TransferItem = TransferItem(material: Material, quantity: real, factor: real, overridePrice: real,
                                       overrideFactor: real)

  /** The cost per base unit at which the target receives the item. */
  function SourceCost(source: StockRow, item: TransferItem): real {
    if item.overridePrice > 0.0 then Value(Round(item.overridePrice, Mills), item.overrideFactor)
    else source.averageCost
  }

  function Receive(target: StockRow, source: StockRow, item: TransferItem): Option<Calculated>
    requires item.factor > 0.0
  {
    Calculate(target, Item(item.quantity, SourceCost(source, item), 0.0), item.factor, ReceivedWithTransfer)
  }

  function Send(source: StockRow, item: TransferItem): Option<Calculated>
    requires item.factor > 0.0
  {
    Calculate(source, Item(item.quantity, source.averageCost, 0.0), item.factor, SentWithTransfer)
  }

  /** One item. It fails when the source has no row, or when the target's average is not a number; a
      missing target row has been created by then. */
  function TransferOne(st: Stock, doc: nat, from: Branch, to: Branch, item: TransferItem): (Stock, bool)
    requires item.factor > 0.0
  {
    var sp, tp := Place(from, item.material), Place(to, item.material);
    var rows := if tp in st.rows then st.rows else st.rows[tp := NewRow(item.material)];
    if sp !in rows then (st.(rows := rows), false)
    else
      var received, sent := Receive(rows[tp], rows[sp], item), Send(rows[sp], item);
      if received.None? || sent.None? then (st.(rows := rows), false)
      else
        (Stock(rows[tp := received.value.Saved()][sp := sent.value.Saved()],
               st.history + [HistoryRow(doc, tp, ReceivedWithTransfer, received.value.base)]
                          + [HistoryRow(doc, sp, SentWithTransfer, sent.value.base)]), true)
  }

  predicate Factors(items: seq<TransferItem>) {
    forall i :: 0 <= i < |items| ==> items[i].factor > 0.0
  }

  /** The list, item by item, up to the first failure. */
  function TransferAll(st: Stock, doc: nat, from: Branch, to: Branch, items: seq<TransferItem>): (Stock, bool)
    requires Factors(items)
  {
    if items == [] then (st, true)
    else
      var (before, ok) := TransferAll(st, doc, from, to, items[..|items| - 1]);
      if ok then TransferOne(before, doc, from, to, items[|items| - 1]) else (before, false)
  }

  // ----- conservation -----

  /** The source row exists for every item, and the quantities are positive. */
  predicate Sendable(st: Stock, from: Branch, items: seq<TransferItem>) {
    && Factors(items)
    && forall i :: 0 <= i < |items| ==> items[i].quantity > 0.0 && Place(from, items[i].material) in st.rows
  }

  /** Base units of a material the list sends. */
  function Sent(items: seq<TransferItem>, m: Material): real {
    if items == [] then 0.0
    else
      var item := items[|items| - 1];
      Sent(items[..|items| - 1], m) + (if item.material == m then Value(item.quantity, item.factor) else 0.0)
  }

  function PairStock(st: Stock, from: Branch, to: Branch, m: Material): real {
    At(st.rows, Place(from, m)).stock + At(st.rows, Place(to, m)).stock
  }

  function PairWorth(st: Stock, from: Branch, to: Branch, m: Material): real {
    At(st.rows, Place(from, m)).Worth() + At(st.rows, Place(to, m)).Worth()
  }

  function StockGain(st: Stock, from: Branch, to: Branch, item: TransferItem): real {
    WrittenUp(At(st.rows, Place(from, item.material))) + WrittenUp(At(st.rows, Place(to, item.material)))
  }

  function WorthGain(st: Stock, from: Branch, to: Branch, item: TransferItem): real {
    var s, t := At(st.rows, Place(from, item.material)), At(st.rows, Place(to, item.material));
    Value(WrittenUp(s), s.averageCost) + Value(WrittenUp(t), t.averageCost)
    + Value(SourceCost(s, item) - s.averageCost, Value(item.quantity, item.factor))
  }

  lemma {:induction false} ReceivedWorth(target: StockRow, source: StockRow, item: TransferItem)
    requires item.factor > 0.0 && item.quantity > 0.0
    ensures Receive(target, source, item).Some?
    ensures var r := Receive(target, source, item).value.Saved();
            r.stock == Clamp(target.stock) + Value(item.quantity, item.factor)
            && r.Worth() == Value(Clamp(target.stock), target.averageCost)
                + Value(SourceCost(source, item), Value(item.quantity, item.factor))
  {
    MulPositive(item.quantity, item.factor);
    var it := Item(item.quantity, SourceCost(source, item), 0.0);
    IntakeWorth(target, it, item.factor, ReceivedWithTransfer);
    PaidIsPriceTimesQuantity(it, item.factor, ReceivedWithTransfer);
    ValueLaws(SourceCost(source, item), 0.0, Value(item.quantity, item.factor));
  }

  lemma {:induction false} SentWorth(source: StockRow, item: TransferItem)
    requires item.factor > 0.0
    ensures Send(source, item).Some?
    ensures var r := Send(source, item).value.Saved();
            r.stock == Clamp(source.stock) - Value(item.quantity, item.factor)
            && r.Worth() == Value(Clamp(source.stock), source.averageCost)
                - Value(source.averageCost, Value(item.quantity, item.factor))
  {
    ValueLaws(Clamp(source.stock), Value(item.quantity, item.factor), source.averageCost);
    ValueLaws(Value(item.quantity, item.factor), 0.0, source.averageCost);
  }

  /** One item moves exactly its quantity; what it adds in all is what the clamps write up and what an
      override price charges above the source's own cost. */
  lemma {:induction false} TransferOneResidual(st: Stock, doc: nat, from: Branch, to: Branch, item: TransferItem,
                                               m: Material)
    requires from != to && item.factor > 0.0 && item.quantity > 0.0 && Place(from, item.material) in st.rows
    ensures var (after, ok) := TransferOne(st, doc, from, to, item);
      && ok
      && st.rows.Keys <= after.rows.Keys
      && PairStock(after, from, to, m)
         == PairStock(st, from, to, m) + (if m == item.material then StockGain(st, from, to, item) else 0.0)
      && PairWorth(after, from, to, m)
         == PairWorth(st, from, to, m) + (if m == item.material then WorthGain(st, from, to, item) else 0.0)
    ensures var after, sp, tp := TransferOne(st, doc, from, to, item).0, Place(from, m), Place(to, m);
      && (m != item.material ==> At(after.rows, sp) == At(st.rows, sp) && At(after.rows, tp) == At(st.rows, tp))
      && (m == item.material ==>
            && At(after.rows, sp).stock == Clamp(At(st.rows, sp).stock) - Value(item.quantity, item.factor)
            && At(after.rows, tp).stock == Clamp(At(st.rows, tp).stock) + Value(item.quantity, item.factor))
  {
    var s, t := At(st.rows, Place(from, item.material)), At(st.rows, Place(to, item.material));
    ReceivedWorth(t, s, item);
    SentWorth(s, item);
    ValueLaws(Clamp(s.stock), s.stock, s.averageCost);
    ValueLaws(Clamp(t.stock), t.stock, t.averageCost);
    ValueLaws(SourceCost(s, item), s.averageCost, Value(item.quantity, item.factor));
  }

  /** What the whole list adds to a material's stock, and to its worth. */
  function StockGains(st: Stock, doc: nat, from: Branch, to: Branch, items: seq<TransferItem>, m: Material): real
    requires Factors(items)
  {
    if items == [] then 0.0
    else
      var rest, item := items[..|items| - 1], items[|items| - 1];
      StockGains(st, doc, from, to, rest, m)
      + (if item.material == m then StockGain(TransferAll(st, doc, from, to, rest).0, from, to, item) else 0.0)
  }

  function WorthGains(st: Stock, doc: nat, from: Branch, to: Branch, items: seq<TransferItem>, m: Material): real
    requires Factors(items)
  {
    if items == [] then 0.0
    else
      var rest, item := items[..|items| - 1], items[|items| - 1];
      WorthGains(st, doc, from, to, rest, m)
      + (if item.material == m then WorthGain(TransferAll(st, doc, from, to, rest).0, from, to, item) else 0.0)
  }

  /** For any list, a material's stock and worth over the two branches change by exactly the gains. */
  lemma {:induction false} TransferResidual(st: Stock, doc: nat, from: Branch, to: Branch, items: seq<TransferItem>,
                                            m: Material)
    requires from != to && Sendable(st, from, items)
    ensures TransferAll(st, doc, from, to, items).1
    ensures st.rows.Keys <= TransferAll(st, doc, from, to, items).0.rows.Keys
    ensures PairStock(TransferAll(st, doc, from, to, items).0, from, to, m)
         == PairStock(st, from, to, m) + StockGains(st, doc, from, to, items, m)
    ensures PairWorth(TransferAll(st, doc, from, to, items).0, from, to, m)
         == PairWorth(st, from, to, m) + WorthGains(st, doc, from, to, items, m)
  {
    if items != [] {
      var rest, item := items[..|items| - 1], items[|items| - 1];
      TransferResidual(st, doc, from, to, rest, m);
      TransferOneResidual(TransferAll(st, doc, from, to, rest).0, doc, from, to, item, m);
    }
  }

  /** Checkable before the transfer: when its turn comes, each item finds neither branch below zero. */
  predicate Covered(st: Stock, from: Branch, to: Branch, items: seq<TransferItem>) {
    forall k {:trigger items[k]} :: 0 <= k < |items| ==>
      && At(st.rows, Place(from, items[k].material)).stock - Sent(items[..k], items[k].material) >= 0.0
      && At(st.rows, Place(to, items[k].material)).stock + Sent(items[..k], items[k].material) >= 0.0
  }

  lemma {:induction false} CoveredPrefix(st: Stock, from: Branch, to: Branch, items: seq<TransferItem>)
    requires items != []
    ensures Covered(st, from, to, items) <==>
            Covered(st, from, to, items[..|items| - 1])
            && At(st.rows, Place(from, items[|items| - 1].material)).stock
                - Sent(items[..|items| - 1], items[|items| - 1].material) >= 0.0
            && At(st.rows, Place(to, items[|items| - 1].material)).stock
                + Sent(items[..|items| - 1], items[|items| - 1].material) >= 0.0
  {
    var n := |items| - 1;
    forall k | 0 <= k < n ensures items[..n][k] == items[k] && items[..n][..k] == items[..k] {
    }
    if Covered(st, from, to, items) {
      assert items[n] == items[n];
    }
  }

  /** The rows of a material hold what they held before, less or plus what was sent. */
  predicate MovedBy(st: Stock, after: Stock, from: Branch, to: Branch, m: Material, sent: real) {
    && At(after.rows, Place(from, m)).stock == At(st.rows, Place(from, m)).stock - sent
    && At(after.rows, Place(to, m)).stock == At(st.rows, Place(to, m)).stock + sent
  }

  /** An item that finds both rows non-negative simply moves. */
  lemma {:induction false} MoveStep(st: Stock, mid: Stock, doc: nat, from: Branch, to: Branch, item: TransferItem,
                                    m: Material, sent: real)
    requires from != to && item.factor > 0.0 && item.quantity > 0.0 && Place(from, item.material) in mid.rows
    requires MovedBy(st, mid, from, to, m, sent)
    requires m == item.material ==>
               At(mid.rows, Place(from, m)).stock >= 0.0 && At(mid.rows, Place(to, m)).stock >= 0.0
    ensures MovedBy(st, TransferOne(mid, doc, from, to, item).0, from, to, m,
                    sent + (if m == item.material then Value(item.quantity, item.factor) else 0.0))
    ensures m == item.material ==> StockGain(mid, from, to, item) == 0.0
  {
    TransferOneResidual(mid, doc, from, to, item, m);
  }

  /** In a covered list every material simply moves: the source loses and the target gains what is sent. */
  lemma {:induction false} CoveredMoves(st: Stock, doc: nat, from: Branch, to: Branch, items: seq<TransferItem>,
                                        m: Material)
    requires from != to && Sendable(st, from, items) && Covered(st, from, to, items)
    ensures MovedBy(st, TransferAll(st, doc, from, to, items).0, from, to, m, Sent(items, m))
    ensures StockGains(st, doc, from, to, items, m) == 0.0
  {
    if items != [] {
      var rest, item := items[..|items| - 1], items[|items| - 1];
      CoveredPrefix(st, from, to, items);
      CoveredMoves(st, doc, from, to, rest, m);
      TransferResidual(st, doc, from, to, rest, m);
      MoveStep(st, TransferAll(st, doc, from, to, rest).0, doc, from, to, item, m, Sent(rest, m));
    }
  }

  lemma {:induction false} GainsNonNegative(st: Stock, doc: nat, from: Branch, to: Branch, items: seq<TransferItem>,
                                            m: Material)
    requires Factors(items)
    ensures StockGains(st, doc, from, to, items, m) >= 0.0
  {
    if items != [] {
      GainsNonNegative(st, doc, from, to, items[..|items| - 1], m);
    }
  }

  /** The list conserves every material's stock over the two branches exactly when it is covered. */
  lemma {:induction false} StockConservedIffCovered(st: Stock, doc: nat, from: Branch, to: Branch,
                                                    items: seq<TransferItem>)
    requires from != to && Sendable(st, from, items)
    ensures (forall m :: PairStock(TransferAll(st, doc, from, to, items).0, from, to, m) == PairStock(st, from, to, m))
       <==> Covered(st, from, to, items)
  {
    var all := TransferAll(st, doc, from, to, items).0;
    forall m ensures PairStock(all, from, to, m)
        == PairStock(st, from, to, m) + StockGains(st, doc, from, to, items, m) {
      TransferResidual(st, doc, from, to, items, m);
    }
    if Covered(st, from, to, items) {
      forall m ensures StockGains(st, doc, from, to, items, m) == 0.0 {
        CoveredMoves(st, doc, from, to, items, m);
      }
    } else {
      var m := UncoveredGains(st, doc, from, to, items);
      assert PairStock(all, from, to, m) != PairStock(st, from, to, m);
    }
  }

  lemma {:induction false} GainsGrow(st: Stock, doc: nat, from: Branch, to: Branch, items: seq<TransferItem>,
                                     m: Material)
    requires Factors(items) && items != []
    ensures StockGains(st, doc, from, to, items, m) >= StockGains(st, doc, from, to, items[..|items| - 1], m) >= 0.0
    ensures m == items[|items| - 1].material ==>
              StockGains(st, doc, from, to, items, m)
              >= StockGain(TransferAll(st, doc, from, to, items[..|items| - 1]).0, from, to, items[|items| - 1])
  {
    var rest, item := items[..|items| - 1], items[|items| - 1];
    var mid := TransferAll(st, doc, from, to, rest).0;
    GainsNonNegative(st, doc, from, to, rest, m);
    GainNonNegative(mid, from, to, item);
  }

  lemma {:induction false} GainNonNegative(st: Stock, from: Branch, to: Branch, item: TransferItem)
    ensures StockGain(st, from, to, item) >= 0.0
  {
  }

  lemma {:induction false} ShortGains(st: Stock, mid: Stock, from: Branch, to: Branch, item: TransferItem, sent: real)
    requires MovedBy(st, mid, from, to, item.material, sent)
    requires At(st.rows, Place(from, item.material)).stock - sent < 0.0
               || At(st.rows, Place(to, item.material)).stock + sent < 0.0
    ensures StockGain(mid, from, to, item) > 0.0
  {
  }

  lemma {:induction false} UncoveredGains(st: Stock, doc: nat, from: Branch, to: Branch, items: seq<TransferItem>)
      returns (m: Material)
    requires from != to && Sendable(st, from, items) && !Covered(st, from, to, items)
    ensures StockGains(st, doc, from, to, items, m) > 0.0
  {
    var rest, item := items[..|items| - 1], items[|items| - 1];
    if !Covered(st, from, to, rest) {
      m := UncoveredGains(st, doc, from, to, rest);
    } else {
      m := item.material;
      assert At(st.rows, Place(from, m)).stock - Sent(rest, m) < 0.0
          || At(st.rows, Place(to, m)).stock + Sent(rest, m) < 0.0 by {
        CoveredPrefix(st, from, to, items);
      }
      CoveredMoves(st, doc, from, to, rest, m);
      ShortGains(st, TransferAll(st, doc, from, to, rest).0, from, to, item, Sent(rest, m));
    }
    GainsGrow(st, doc, from, to, items, m);
  }

  lemma {:induction false} FairItemGainsNothing(st: Stock, from: Branch, to: Branch, item: TransferItem)
    requires item.overridePrice <= 0.0
    requires At(st.rows, Place(from, item.material)).stock >= 0.0 && At(st.rows, Place(to, item.material)).stock >= 0.0
    ensures WorthGain(st, from, to, item) == 0.0
  {
    assert forall x :: Value(0.0, x) == 0.0;
  }

  /** Without override prices a covered list conserves every material's worth as well. */
  lemma {:induction false} WorthConserved(st: Stock, doc: nat, from: Branch, to: Branch, items: seq<TransferItem>,
                                          m: Material)
    requires from != to && Sendable(st, from, items) && Covered(st, from, to, items)
    requires forall i :: 0 <= i < |items| ==> items[i].overridePrice <= 0.0
    ensures WorthGains(st, doc, from, to, items, m) == 0.0
    ensures PairWorth(TransferAll(st, doc, from, to, items).0, from, to, m) == PairWorth(st, from, to, m)
  {
    TransferResidual(st, doc, from, to, items, m);
    if items != [] {
      var rest, item := items[..|items| - 1], items[|items| - 1];
      CoveredPrefix(st, from, to, items);
      WorthConserved(st, doc, from, to, rest, m);
      CoveredMoves(st, doc, from, to, rest, item.material);
      FairItemGainsNothing(TransferAll(st, doc, from, to, rest).0, from, to, item);
    }
  }

  // ----- the guard of the transfer service -----

  /** The source rows the service counts: one per row, however often its material is listed. */
  function Counted(st: Stock, from: Branch, items: seq<TransferItem>): set<Place> {
    set i | 0 <= i < |items| && Place(from, items[i].material) in st.rows :: Place(from, items[i].material)
  }

  predicate DistinctMaterials(items: seq<TransferItem>) {
    forall i, j :: 0 <= i < j < |items| ==> items[i].material != items[j].material
  }

  predicate AllPresent(st: Stock, from: Branch, items: seq<TransferItem>) {
    forall i :: 0 <= i < |items| ==> Place(from, items[i].material) in st.rows
  }

  lemma {:induction false} CountedSnoc(st: Stock, from: Branch, items: seq<TransferItem>)
    requires items != []
    ensures var p := Place(from, items[|items| - 1].material);
            Counted(st, from, items) == Counted(st, from, items[..|items| - 1]) + (if p in st.rows then {p} else {})
  {
    var n := |items| - 1;
    var all, some, p := Counted(st, from, items), Counted(st, from, items[..n]), Place(from, items[n].material);
    forall q | q in all ensures q in some || (q == p && p in st.rows) {
      var i :| 0 <= i < |items| && Place(from, items[i].material) in st.rows && q == Place(from, items[i].material);
      assert i < n ==> items[..n][i] == items[i];
    }
    forall q | q in some ensures q in all {
      var i :| 0 <= i < n && Place(from, items[..n][i].material) in st.rows && q == Place(from, items[..n][i].material);
      assert items[..n][i] == items[i];
    }
  }

  /** A material is already counted exactly when an earlier item lists it and it is stocked. */
  lemma {:induction false} CountedHas(st: Stock, from: Branch, items: seq<TransferItem>, m: Material)
    ensures Place(from, m) in Counted(st, from, items)
       <==> Place(from, m) in st.rows && exists i :: 0 <= i < |items| && items[i].material == m
  {
    if Place(from, m) in st.rows && exists i :: 0 <= i < |items| && items[i].material == m {
      var i :| 0 <= i < |items| && items[i].material == m;
      assert Place(from, items[i].material) in st.rows;
    }
  }

  lemma {:induction false} CountedAtMost(st: Stock, from: Branch, items: seq<TransferItem>)
    ensures |Counted(st, from, items)| <= |items|
    ensures |Counted(st, from, items)| == |items| <==> DistinctMaterials(items) && AllPresent(st, from, items)
  {
    if items != [] {
      var n := |items| - 1;
      var rest, m := items[..n], items[n].material;
      CountedAtMost(st, from, rest);
      CountedSnoc(st, from, items);
      CountedHas(st, from, rest, m);
      assert DistinctMaterials(items) <==> DistinctMaterials(rest) && !exists i ::
          0 <= i < n && rest[i].material == m by {
        assert forall i :: 0 <= i < n ==> rest[i] == items[i];
      }
      assert AllPresent(st, from, items) <==> AllPresent(st, from, rest) && Place(from, m) in st.rows by {
        assert forall i :: 0 <= i < n ==> rest[i] == items[i];
      }
    }
  }

  predicate NoneShort(st: Stock, from: Branch, to: Branch, items: seq<TransferItem>) {
    forall i :: 0 <= i < |items| ==>
      At(st.rows, Place(from, items[i].material)).stock >= 0.0 && At(st.rows, Place(to, items[i].material)).stock >= 0.0
  }

  /** The service accepts a list exactly when its materials are distinct and all stocked at the source;
      and such a list is covered as soon as no row it
      touches is below zero. */
  lemma {:induction false} ServiceGuard(st: Stock, from: Branch, to: Branch, items: seq<TransferItem>)
    ensures |Counted(st, from, items)| == |items| <==> DistinctMaterials(items) && AllPresent(st, from, items)
    ensures (DistinctMaterials(items) && NoneShort(st, from, to, items)) ==> Covered(st, from, to, items)
  {
    CountedAtMost(st, from, items);
    if DistinctMaterials(items) {
      forall k | 0 <= k < |items| ensures Sent(items[..k], items[k].material) == 0.0 {
        SentNone(items[..k], items[k].material);
      }
    }
  }

  lemma {:induction false} SentNone(items: seq<TransferItem>, m: Material)
    requires forall i :: 0 <= i < |items| ==> items[i].material != m
    ensures Sent(items, m) == 0.0
  {
    if items != [] {
      SentNone(items[..|items| - 1], m);
    }
  }

  // ----- at what price an item moves -----

  /** An item leaves the source at an unchanged average cost and enters the target at the override price,
      rounded to thousandths and converted by its own factor, or else at the source's average cost. A target
      row at or below zero takes over exactly that price. */
  lemma {:induction false} TransferPrices(st: Stock, doc: nat, from: Branch, to: Branch, item: TransferItem)
    requires from != to && item.factor > 0.0 && item.quantity > 0.0 && Place(from, item.material) in st.rows
    ensures var (after, ok) := TransferOne(st, doc, from, to, item);
            var sp, tp := Place(from, item.material), Place(to, item.material);
            var source, target := At(st.rows, sp), At(st.rows, tp);
            var sent, received := At(after.rows, sp), At(after.rows, tp);
            var moved := Value(item.quantity, item.factor);
            var price := if item.overridePrice > 0.0 then Value(Round(item.overridePrice, Mills), item.overrideFactor)
              else source.averageCost;
            var had := if target.stock < 0.0 then 0.0 else target.stock;
      && ok
      && sent.stock == (if source.stock < 0.0 then 0.0 else source.stock) - moved
      && sent.averageCost == source.averageCost
      && received.stock == had + moved
      && Value(received.stock, received.averageCost) == Value(had, target.averageCost) + Value(price, moved)
      && (target.stock <= 0.0 ==> received.averageCost == price)
      && (forall p :: p != sp && p != tp ==> At(after.rows, p) == At(st.rows, p))
  {
    var s, t := At(st.rows, Place(from, item.material)), At(st.rows, Place(to, item.material));
    ReceivedWorth(t, s, item);
    SentWorth(s, item);
    if t.stock <= 0.0 {
      IntakeIntoNothing(t, Item(item.quantity, SourceCost(s, item), 0.0), item.factor, ReceivedWithTransfer);
    }
  }

  /** An item the source has no row for fails, after the target's missing row has been created empty, and
      moves nothing; nor does any item behind it. */
  lemma {:induction false} MissingSourceFails(st: Stock, doc: nat, from: Branch, to: Branch, items: seq<TransferItem>)
    requires from != to && Factors(items) && items != [] && Place(from, items[0].material) !in st.rows
    ensures var (after, ok) := TransferAll(st, doc, from, to, items);
            var tp := Place(to, items[0].material);
      && !ok && after.history == st.history
      && after.rows == (if tp in st.rows then st.rows else st.rows[tp := At(after.rows, tp)])
      && At(after.rows, tp) == At(st.rows, tp)
  {
    assert items[..1][..0] == [];
    assert TransferAll(st, doc, from, to, items[..1]) == TransferOne(st, doc, from, to, items[0]);
    FailureStays(st, doc, from, to, items, 1);
  }

  /** In a list of distinct materials every item moves as if it were alone. */
  lemma {:induction false} EachMovesAlone(st: Stock, doc: nat, from: Branch, to: Branch, items: seq<TransferItem>,
                                          i: nat, branch: Branch)
    requires from != to && Sendable(st, from, items) && DistinctMaterials(items) && i < |items|
    ensures var p := Place(branch, items[i].material);
            At(TransferAll(st, doc, from, to, items).0.rows, p)
            == At(TransferOne(st, doc, from, to, items[i]).0.rows, p)
  {
    var n := |items| - 1;
    var mid, p := TransferAll(st, doc, from, to, items[..n]).0, Place(branch, items[i].material);
    assert TransferAll(st, doc, from, to, items).0 == TransferOne(mid, doc, from, to, items[n]).0
        && Place(from, items[n].material) in mid.rows by {
      TransferResidual(st, doc, from, to, items[..n], items[n].material);
    }
    if i < n {
      assert items[..n][i] == items[i];
      EachMovesAlone(st, doc, from, to, items[..n], i, branch);
      assert At(TransferOne(mid, doc, from, to, items[n]).0.rows, p) == At(mid.rows, p) by {
        TransferPrices(mid, doc, from, to, items[n]);
      }
    } else {
      OthersStay(st, doc, from, to, items[..n], Place(from, items[i].material));
      OthersStay(st, doc, from, to, items[..n], Place(to, items[i].material));
      OthersStay(st, doc, from, to, items[..n], p);
      SameRowsMoveAlike(st, mid, doc, from, to, items[n], branch);
    }
  }

  lemma {:induction false} SameRowsMoveAlike(st: Stock, mid: Stock, doc: nat, from: Branch, to: Branch,
                                             item: TransferItem, branch: Branch)
    requires from != to && item.factor > 0.0 && item.quantity > 0.0
    requires Place(from, item.material) in st.rows && Place(from, item.material) in mid.rows
    requires At(st.rows, Place(from, item.material)) == At(mid.rows, Place(from, item.material))
    requires At(st.rows, Place(to, item.material)) == At(mid.rows, Place(to, item.material))
    requires At(st.rows, Place(branch, item.material)) == At(mid.rows, Place(branch, item.material))
    ensures At(TransferOne(st, doc, from, to, item).0.rows, Place(branch, item.material))
         == At(TransferOne(mid, doc, from, to, item).0.rows, Place(branch, item.material))
  {
  }

  /** Rows of other materials and of other branches are left alone. */
  lemma {:induction false} OthersStay(st: Stock, doc: nat, from: Branch, to: Branch, items: seq<TransferItem>, p: Place)
    requires from != to && Sendable(st, from, items)
    requires (p.branch == from || p.branch == to) ==> forall i :: 0 <= i < |items| ==> items[i].material != p.material
    ensures At(TransferAll(st, doc, from, to, items).0.rows, p) == At(st.rows, p)
  {
    if items != [] {
      var rest, item := items[..|items| - 1], items[|items| - 1];
      OthersStay(st, doc, from, to, rest, p);
      TransferResidual(st, doc, from, to, rest, p.material);
      TransferPrices(TransferAll(st, doc, from, to, rest).0, doc, from, to, item);
    }
  }

  // ----- one material to several branches -----

  datatype Target = Target(branch: Branch, quantity: real)

  function Asked(targets: seq<Target>): real {
    if targets == [] then 0.0 else Asked(targets[..|targets| - 1]) + targets[|targets| - 1].quantity
  }

  /** The receiving rows, each taking stock in at the source's average cost; None when an average is not
      a number. */
  function ReceiveAll(rows: map<Place, StockRow>, source: StockRow, m: Material, factor: real,
                      targets: seq<Target>): Option<map<Place, StockRow>>
    requires factor > 0.0
  {
    if targets == [] then Some(rows)
    else
      var before, t := ReceiveAll(rows, source, m, factor, targets[..|targets| - 1]), targets[|targets| - 1];
      if before.None? then None
      else
        var item := Item(t.quantity, source.averageCost, 0.0);
        var c := Calculate(At(before.value, Place(t.branch, m)), item, factor, ReceivedWithTransfer);
        if c.None? then None else Some(before.value[Place(t.branch, m) := c.value.Saved()])
  }

  /** All targets, then the source once with the transfer's own quantity. */
  function TransferToMany(rows: map<Place, StockRow>, from: Branch, m: Material, quantity: real, factor: real,
                          targets: seq<Target>): Option<map<Place, StockRow>>
    requires factor > 0.0
  {
    var source := At(rows, Place(from, m));
    var received := ReceiveAll(rows, source, m, factor, targets);
    if received.None? then None
    else
      var sent := Calculate(source, Item(quantity, source.averageCost, 0.0), factor, SentWithTransfer);
      if sent.None? then None else Some(received.value[Place(from, m) := sent.value.Saved()])
  }

  /** The targets are other branches, distinct from the source, and ask positive quantities. */
  ghost predicate Receivers(from: Branch, m: Material, targets: seq<Target>, places: seq<Place>) {
    && Distinct(places)
    && (forall i :: 0 <= i < |targets| ==>
          targets[i].branch != from && targets[i].quantity > 0.0 && Place(targets[i].branch, m) in places)
  }

  /** The rows the targets take the material into. */
  function Receiving(m: Material, targets: seq<Target>): set<Place> {
    if targets == [] then {} else Receiving(m, targets[..|targets| - 1]) + {Place(targets[|targets| - 1].branch, m)}
  }

  /** The target loop brings in what the targets ask, at the source's average cost, over what the clamps
      write up. */
  lemma {:induction false} ReceiveAllTotals(rows: map<Place, StockRow>, source: StockRow, m: Material, factor: real,
                                            from: Branch, targets: seq<Target>, places: seq<Place>)
    requires factor > 0.0 && Receivers(from, m, targets, places)
    ensures ReceiveAll(rows, source, m, factor, targets).Some?
    ensures Place(from, m) !in Receiving(m, targets)
    ensures TakenIn(rows, ReceiveAll(rows, source, m, factor, targets).value, Receiving(m, targets), places,
                    Value(Asked(targets), factor), Value(source.averageCost, Value(Asked(targets), factor)))
  {
    if targets == [] {
      NothingTakenIn(rows, places);
      assert Value(0.0, factor) == 0.0 && Value(source.averageCost, 0.0) == 0.0;
    } else {
      var rest, t := targets[..|targets| - 1], targets[|targets| - 1];
      ReceiveAllTotals(rows, source, m, factor, from, rest, places);
      var before, p := ReceiveAll(rows, source, m, factor, rest).value, Place(t.branch, m);
      var item, v := TransferItem(m, t.quantity, factor, 0.0, 0.0), Value(t.quantity, factor);
      ReceivedWorth(At(before, p), source, item);
      MulPositive(t.quantity, factor);
      OneMoreIntake(rows, before, Receiving(m, rest), places, Value(Asked(rest), factor),
          Value(source.averageCost, Value(Asked(rest), factor)),
                    p, Receive(At(before, p), source, item).value.Saved(), v, Value(source.averageCost, v));
      ValueLaws(Asked(rest), t.quantity, factor);
      AddToWeight(source.averageCost, Value(Asked(rest), factor), v);
    }
  }

  lemma {:induction false} AddToWeight(c: real, w: real, v: real)
    ensures Value(c, w + v) == Value(c, w) + Value(c, v)
  {
  }

  /** Stock over all rows is off by exactly what the targets ask beyond what is sent and what the clamps
      write up; worth is off by the former at the source's cost and the worth written up. When the targets
      ask what is sent, as the service demands, stock is conserved if and only if no row of the transfer is
      below zero; when none is, if and only if the targets ask what is sent. */
  lemma {:induction false} ManyConservesIffSumsAgree(rows: map<Place, StockRow>, from: Branch, m: Material,
                                                     quantity: real, factor: real,
                                                     targets: seq<Target>, places: seq<Place>)
    requires factor > 0.0 && Receivers(from, m, targets, places) && Place(from, m) in places
    ensures TransferToMany(rows, from, m, quantity, factor, targets).Some?
    ensures var after := TransferToMany(rows, from, m, quantity, factor, targets).value;
            var touched, over := Receiving(m, targets) + {Place(from, m)}, Value(Asked(targets) - quantity, factor);
      && TotalStock(after, places) == TotalStock(rows, places) + StockWriteUp(rows, places, touched) + over
      && TotalWorth(after, places)
         == TotalWorth(rows, places) + WorthWriteUp(rows, places, touched)
             + Value(At(rows, Place(from, m)).averageCost, over)
      && (Asked(targets) == quantity ==>
            (TotalStock(after, places) == TotalStock(rows, places) <==> NoneBelow(rows, places, touched)))
      && (NoneBelow(rows, places, touched) ==>
            (TotalStock(after, places) == TotalStock(rows, places) <==> Asked(targets) == quantity))
  {
    var source, p := At(rows, Place(from, m)), Place(from, m);
    var item := TransferItem(m, quantity, factor, 0.0, 0.0);
    ReceiveAllTotals(rows, source, m, factor, from, targets, places);
    SentWorth(source, item);
    SentTotals(rows, ReceiveAll(rows, source, m, factor, targets).value, Receiving(m, targets), places, p,
        Send(source, item).value.Saved());
    WriteUpZero(rows, places, Receiving(m, targets) + {p});
    ValueLaws(Asked(targets), quantity, factor);
    ValueLaws(Value(Asked(targets), factor), Value(quantity, factor), source.averageCost);
    ValueZero(Asked(targets) - quantity, factor);
  }

  /** Saving the source last changes the totals by its own row's difference. */
  lemma {:induction false} SentTotals(rows: map<Place, StockRow>, received: map<Place, StockRow>, touched: set<Place>,
                                      places: seq<Place>,
                                      p: Place, row: StockRow)
    requires Distinct(places) && p in places && p !in touched && At(received, p) == At(rows, p)
    ensures TotalStock(received[p := row], places) - StockWriteUp(rows, places, touched + {p})
         == TotalStock(received, places) - StockWriteUp(rows, places, touched) + row.stock - Clamp(At(rows, p).stock)
    ensures TotalWorth(received[p := row], places) - WorthWriteUp(rows, places, touched + {p})
         == TotalWorth(received, places) - WorthWriteUp(rows, places, touched)
            + row.Worth() - Value(Clamp(At(rows, p).stock), At(rows, p).averageCost)
  {
    TotalsUpdate(received, places, p, row);
    WriteUpAdd(rows, places, touched, p);
    ValueLaws(Clamp(At(rows, p).stock), At(rows, p).stock, At(rows, p).averageCost);
  }

  /** Targets in different branches each receive what they ask, the source loses the transfer's quantity at an
      unchanged average, and no other row changes. */
  lemma {:induction false} EachTargetReceives(rows: map<Place, StockRow>, from: Branch, m: Material, quantity: real,
                                              factor: real, targets: seq<Target>, i: nat)
    requires factor > 0.0 && i < |targets|
    requires forall j :: 0 <= j < |targets| ==> targets[j].branch != from && targets[j].quantity > 0.0
    requires forall j :: 0 <= j < |targets| && j != i ==> targets[j].branch != targets[i].branch
    requires TransferToMany(rows, from, m, quantity, factor, targets).Some?
    ensures var after, sp, tp := TransferToMany(rows, from, m, quantity, factor, targets).value, Place(from, m),
                Place(targets[i].branch, m);
            var source, target := At(rows, sp), At(rows, tp);
            var had, moved := if target.stock < 0.0 then 0.0 else target.stock, Value(targets[i].quantity, factor);
      && At(after, tp).stock == had + moved
      && At(after, tp).Worth() == Value(had, target.averageCost) + Value(source.averageCost, moved)
      && At(after, sp).stock == (if source.stock < 0.0 then 0.0 else source.stock) - Value(quantity, factor)
      && At(after, sp).averageCost == source.averageCost
      && (forall p :: p != sp && p !in Receiving(m, targets) ==> At(after, p) == At(rows, p))
  {
    var source := At(rows, Place(from, m));
    SentWorth(source, TransferItem(m, quantity, factor, 0.0, 0.0));
    TargetRow(rows, source, m, factor, targets, i);
    ReceivedElsewhere(rows, source, m, factor, targets);
  }

  lemma {:induction false} TargetRow(rows: map<Place, StockRow>, source: StockRow, m: Material, factor: real,
                                     targets: seq<Target>, i: nat)
    requires factor > 0.0 && i < |targets| && targets[i].quantity > 0.0
    requires forall j :: 0 <= j < |targets| && j != i ==> targets[j].branch != targets[i].branch
    requires ReceiveAll(rows, source, m, factor, targets).Some?
    ensures var tp, moved := Place(targets[i].branch, m), Value(targets[i].quantity, factor);
            var after, target := At(ReceiveAll(rows, source, m, factor, targets).value, tp), At(rows, tp);
      && after.stock == Clamp(target.stock) + moved
      && after.Worth() == Value(Clamp(target.stock), target.averageCost) + Value(source.averageCost, moved)
  {
    var n := |targets| - 1;
    var t := targets[n];
    if i < n {
      TargetRow(rows, source, m, factor, targets[..n], i);
    } else {
      var before := ReceiveAll(rows, source, m, factor, targets[..n]).value;
      ReceivedElsewhere(rows, source, m, factor, targets[..n]);
      NotReceiving(m, targets[..n], Place(t.branch, m));
      ReceivedWorth(At(before, Place(t.branch, m)), source, TransferItem(m, t.quantity, factor, 0.0, 0.0));
    }
  }

  lemma {:induction false} NotReceiving(m: Material, targets: seq<Target>, p: Place)
    requires forall j :: 0 <= j < |targets| ==> targets[j].branch != p.branch
    ensures p !in Receiving(m, targets)
  {
    if targets != [] {
      NotReceiving(m, targets[..|targets| - 1], p);
    }
  }

  lemma {:induction false} ReceivedElsewhere(rows: map<Place, StockRow>, source: StockRow, m: Material, factor: real,
                                             targets: seq<Target>)
    requires factor > 0.0 && ReceiveAll(rows, source, m, factor, targets).Some?
    ensures forall p :: p !in Receiving(m, targets) ==>
              At(ReceiveAll(rows, source, m, factor, targets).value, p) == At(rows, p)
  {
    if targets != [] {
      ReceivedElsewhere(rows, source, m, factor, targets[..|targets| - 1]);
    }
  }

  /** The history rows the target loop writes. */
  function ReceiveHistory(rows: map<Place, StockRow>, source: StockRow, doc: nat, m: Material, factor: real,
                          targets: seq<Target>): seq<HistoryRow>
    requires factor > 0.0 && ReceiveAll(rows, source, m, factor, targets).Some?
  {
    if targets == [] then []
    else
      var rest, t := targets[..|targets| - 1], targets[|targets| - 1];
      var row := At(ReceiveAll(rows, source, m, factor, rest).value, Place(t.branch, m));
      var c := Calculate(row, Item(t.quantity, source.averageCost, 0.0), factor, ReceivedWithTransfer);
      ReceiveHistory(rows, source, doc, m, factor, rest)
          + [HistoryRow(doc, Place(t.branch, m), ReceivedWithTransfer, c.value.base)]
  }

  /** Those, and the source's own at the end. */
  function ManyHistory(rows: map<Place, StockRow>, doc: nat, from: Branch, m: Material, quantity: real, factor: real,
                       targets: seq<Target>): seq<HistoryRow>
    requires factor > 0.0 && TransferToMany(rows, from, m, quantity, factor, targets).Some?
  {
    var source := At(rows, Place(from, m));
    ReceiveHistory(rows, source, doc, m, factor, targets)
    + [HistoryRow(doc, Place(from, m), SentWithTransfer,
                  Calculate(source, Item(quantity, source.averageCost, 0.0), factor, SentWithTransfer).value.base)]
  }

  // ----- the collection -----

  class Warehouse {
    var rows: map<Place, StockRow>
    var history: seq<HistoryRow>

    function State(): Stock
      reads this
    {
      Stock(rows, history)
    }

    constructor (st: Stock)
      ensures State() == st
    {
      rows, history := st.rows, st.history;
    }

    /** Loads target and source, calculates and saves the target first, then the source. */
    method TransferItemNew(doc: nat, from: Branch, to: Branch, item: TransferItem) returns (ok: bool)
      requires item.factor > 0.0
      modifies this
      ensures (State(), ok) == TransferOne(old(State()), doc, from, to, item)
    {
      var tp, sp := Place(to, item.material), Place(from, item.material);
      if tp !in rows {
        rows := rows[tp := NewRow(item.material)];
      }
      if sp !in rows {
        return false;
      }
      var target := new InventoryDocument(rows[tp]);
      var source := new InventoryDocument(rows[sp]);
      var sourceAvgCost := source.averageCost;
      if item.overridePrice > 0.0 {
        sourceAvgCost := Value(Round(item.overridePrice, Mills), item.overrideFactor);
      }
      var incoming := Item(item.quantity, sourceAvgCost, 0.0);
      var received := target.CalculateInventoryItem(incoming, item.factor, ReceivedWithTransfer);
      if received.None? {
        return false;
      }
      target.SaveInventory(received.value, ReceivedWithTransfer, 0.0);
      rows := rows[tp := target.Row()];
      history := history + [HistoryRow(doc, tp, ReceivedWithTransfer, received.value.base)];
      var outgoing := Item(item.quantity, source.averageCost, 0.0);
      var sent := source.CalculateInventoryItem(outgoing, item.factor, SentWithTransfer);
      source.SaveInventory(sent.value, SentWithTransfer, 0.0);
      rows := rows[sp := source.Row()];
      history := history + [HistoryRow(doc, sp, SentWithTransfer, sent.value.base)];
      return true;
    }

    method ApplyTransferRequestNew(doc: nat, from: Branch, to: Branch, items: seq<TransferItem>) returns (ok: bool)
      requires Factors(items)
      modifies this
      ensures (State(), ok) == TransferAll(old(State()), doc, from, to, items)
    {
      for i := 0 to |items|
        invariant TransferAll(old(State()), doc, from, to, items[..i]) == (State(), true)
      {
        assert items[..i + 1][..i] == items[..i];
        ok := TransferItemNew(doc, from, to, items[i]);
        if !ok {
          FailureStays(old(State()), doc, from, to, items, i + 1);
          return;
        }
      }
      assert items[..|items|] == items;
      return true;
    }

    method ReceiveTarget(doc: nat, p: Place, quantity: real, cost: real, factor: real) returns (ok: bool)
      requires factor > 0.0
      modifies this
      ensures var c := Calculate(At(old(rows), p), Item(quantity, cost, 0.0), factor, ReceivedWithTransfer);
        && (ok <==> c.Some?)
        && (ok ==> rows == old(rows)[p := c.value.Saved()])
        && (ok ==> history == old(history) + [HistoryRow(doc, p, ReceivedWithTransfer, c.value.base)])
        && (!ok ==> rows == old(rows) && history == old(history))
    {
      var target := new InventoryDocument(At(rows, p));
      var c := target.CalculateInventoryItem(Item(quantity, cost, 0.0), factor, ReceivedWithTransfer);
      if c.None? {
        return false;
      }
      target.SaveInventory(c.value, ReceivedWithTransfer, 0.0);
      rows := rows[p := target.Row()];
      history := history + [HistoryRow(doc, p, ReceivedWithTransfer, c.value.base)];
      return true;
    }

    /** One material to several branches; the source document is loaded before the loop and saved after. */
    method ApplyTransferRequest(doc: nat, from: Branch, m: Material, quantity: real, factor: real,
                                targets: seq<Target>) returns (ok: bool)
      requires factor > 0.0
      modifies this
      ensures ok <==> TransferToMany(old(rows), from, m, quantity, factor, targets).Some?
      ensures ok ==> rows == TransferToMany(old(rows), from, m, quantity, factor, targets).value
      ensures ok ==> history == old(history) + ManyHistory(old(rows), doc, from, m, quantity, factor, targets)
    {
      var source := new InventoryDocument(At(rows, Place(from, m)));
      ghost var was := At(rows, Place(from, m));
      for i := 0 to |targets|
        invariant source.Row() == was && fresh(source)
        invariant ReceiveAll(old(rows), was, m, factor, targets[..i]) == Some(rows)
        invariant history == old(history) + ReceiveHistory(old(rows), was, doc, m, factor, targets[..i])
      {
        assert targets[..i + 1][..i] == targets[..i];
        ok := ReceiveTarget(doc, Place(targets[i].branch, m), targets[i].quantity, source.averageCost, factor);
        if !ok {
          ReceiveFails(old(rows), was, m, factor, targets, i + 1);
          return false;
        }
      }
      assert targets[..|targets|] == targets;
      var sent := source.CalculateInventoryItem(Item(quantity, source.averageCost, 0.0), factor, SentWithTransfer);
      source.SaveInventory(sent.value, SentWithTransfer, 0.0);
      rows := rows[Place(from, m) := source.Row()];
      history := history + [HistoryRow(doc, Place(from, m), SentWithTransfer, sent.value.base)];
      return true;
    }
  }

  lemma {:induction false} ReceiveFails(rows: map<Place, StockRow>, source: StockRow, m: Material, factor: real,
                                        targets: seq<Target>, n: nat)
    requires factor > 0.0 && n <= |targets| && ReceiveAll(rows, source, m, factor, targets[..n]).None?
    ensures ReceiveAll(rows, source, m, factor, targets).None?
  {
    if n == |targets| {
      assert targets[..n] == targets;
    } else {
      var rest := targets[..|targets| - 1];
      assert rest[..n] == targets[..n];
      ReceiveFails(rows, source, m, factor, rest, n);
    }
  }

  lemma {:induction false} FailureStays(st: Stock, doc: nat, from: Branch, to: Branch, items: seq<TransferItem>, n: nat)
    requires Factors(items) && n <= |items| && !TransferAll(st, doc, from, to, items[..n]).1
    ensures TransferAll(st, doc, from, to, items) == TransferAll(st, doc, from, to, items[..n])
  {
    if n == |items| {
      assert items[..n] == items;
    } else {
      var rest := items[..|items| - 1];
      assert rest[..n] == items[..n];
      FailureStays(st, doc, from, to, rest, n);
    }
  }
}
