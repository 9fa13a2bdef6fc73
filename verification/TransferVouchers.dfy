/** The two vouchers of a stock transfer. Their amounts come from the history rows the valuation wrote, or
    from an override price. */
module TransferVouchers {
  import opened Rounding
  import opened VoucherLines
  import opened VoucherPipeline
  import opened Valuation
  import opened StockBooks
  import opened Transfers
  import opened VoucherBuilders

  /** First history row of a document for a place and an action. */
  function Recorded(history: seq<HistoryRow>, doc: nat, place: Place, action: Action): Option<BaseItem> {
    if history == [] then None
    else if history[0].document == doc && history[0].place == place
        && history[0].action == action then Some(history[0].base)
    else Recorded(history[1..], doc, place, action)
  }

  /** Value of one transferred item on one of the two sides; a missing history row values nothing. */
  function ItemValue(history: seq<HistoryRow>, doc: nat, branch: Branch, action: Action, item: TransferItem): real {
    if item.overridePrice > 0.0 then OverrideValue(item)
    else
      var r := Recorded(history, doc, Place(branch, item.material), action);
      if r.Some? then r.value.stockValue else 0.0
  }

  /** The source voucher credits inventory and debits the inter-company account item by item; the target
      voucher does the opposite. */
  function SideLines(history: seq<HistoryRow>, doc: nat, branch: Branch, action: Action, inventory: Side,
                     account: Material -> Account, interCompany: Account, items: seq<TransferItem>): (r: seq<Line>)
    ensures Untaxed(r)
  {
    if items == [] then []
    else
      var item := items[|items| - 1];
      var amount := Round(ItemValue(history, doc, branch, action, item), Mills);
      SideLines(history, doc, branch, action, inventory, account, interCompany, items[..|items| - 1])
      + [Line(account(item.material), inventory, amount, None)] + [Line(interCompany, inventory.Flip(), amount, None)]
  }

  function SourceLines(history: seq<HistoryRow>, doc: nat, from: Branch, account: Material -> Account,
                       interCompany: Account, items: seq<TransferItem>): seq<Line> {
    SideLines(history, doc, from, SentWithTransfer, CR, account, interCompany, items)
  }

  function TargetLines(history: seq<HistoryRow>, doc: nat, to: Branch, account: Material -> Account,
                       interCompany: Account, items: seq<TransferItem>): seq<Line> {
    SideLines(history, doc, to, ReceivedWithTransfer, DR, account, interCompany, items)
  }

  // ----- what the valuation recorded -----

  lemma {:induction false} RecordedConcat(h: seq<HistoryRow>, k: seq<HistoryRow>, doc: nat, place: Place,
                                          action: Action)
    ensures Recorded(h + k, doc, place, action)
              == if Recorded(h, doc, place, action).Some? then Recorded(h, doc, place, action)
              else Recorded(k, doc, place, action)
  {
    if h == [] {
      assert h + k == k;
    } else {
      assert (h + k)[1..] == h[1..] + k;
      RecordedConcat(h[1..], k, doc, place, action);
    }
  }

  lemma {:induction false} RecordedPair(a: HistoryRow, b: HistoryRow, doc: nat, place: Place, action: Action)
    ensures Recorded([a, b], doc, place, action)
         == if a.document == doc && a.place == place && a.action == action then Some(a.base)
            else if b.document == doc && b.place == place && b.action == action then Some(b.base)
            else None
  {
    assert [a, b][1..] == [b];
    assert Recorded([], doc, place, action).None? && [b][1..] == [];
    assert Recorded([b], doc, place, action)
        == if b.document == doc && b.place == place && b.action == action then Some(b.base) else None;
  }

  /** The document is new: nothing is recorded for it yet. */
  ghost predicate Unrecorded(history: seq<HistoryRow>, doc: nat) {
    forall p, a :: Recorded(history, doc, p, a).None?
  }

  /** Base item written for the received side of an item and for the sent side. */
  function ReceivedBase(target: StockRow, source: StockRow, item: TransferItem): BaseItem
    requires item.factor > 0.0 && item.quantity > 0.0
  {
    ReceivedWorth(target, source, item);
    Receive(target, source, item).value.base
  }

  function SentBase(source: StockRow, item: TransferItem): BaseItem
    requires item.factor > 0.0
  {
    Send(source, item).value.base
  }

  lemma {:induction false} OneRecords(st: Stock, doc: nat, from: Branch, to: Branch, item: TransferItem)
    requires from != to && item.factor > 0.0 && item.quantity > 0.0 && Place(from, item.material) in st.rows
    ensures var s, t := At(st.rows, Place(from, item.material)), At(st.rows, Place(to, item.material));
            var after := TransferOne(st, doc, from, to, item).0;
      && after.history
         == st.history + [HistoryRow(doc, Place(to, item.material), ReceivedWithTransfer, ReceivedBase(t, s, item)),
                          HistoryRow(doc, Place(from, item.material), SentWithTransfer, SentBase(s, item))]
      && (forall m :: m != item.material ==>
            At(after.rows, Place(from, m)) == At(st.rows, Place(from, m))
                && At(after.rows, Place(to, m)) == At(st.rows, Place(to, m)))
  {
    var s, t := At(st.rows, Place(from, item.material)), At(st.rows, Place(to, item.material));
    ReceivedWorth(t, s, item);
  }

  /** What can be looked up after one more item: earlier rows first, then the item's own two. */
  lemma {:induction false} LookupAfterOne(st: Stock, doc: nat, from: Branch, to: Branch, item: TransferItem,
                                          m: Material)
    requires from != to && item.factor > 0.0 && item.quantity > 0.0 && Place(from, item.material) in st.rows
    ensures var h, k := st.history, TransferOne(st, doc, from, to, item).0.history;
            var s, t := At(st.rows, Place(from, item.material)), At(st.rows, Place(to, item.material));
      && Recorded(k, doc, Place(from, m), SentWithTransfer)
         == (if Recorded(h, doc, Place(from, m), SentWithTransfer).Some?
             then Recorded(h, doc, Place(from, m), SentWithTransfer)
             else if m == item.material then Some(SentBase(s, item)) else None)
      && Recorded(k, doc, Place(to, m), ReceivedWithTransfer)
         == (if Recorded(h, doc, Place(to, m), ReceivedWithTransfer).Some?
             then Recorded(h, doc, Place(to, m), ReceivedWithTransfer)
             else if m == item.material then Some(ReceivedBase(t, s, item)) else None)
  {
    var s, t := At(st.rows, Place(from, item.material)), At(st.rows, Place(to, item.material));
    var received := HistoryRow(doc, Place(to, item.material), ReceivedWithTransfer, ReceivedBase(t, s, item));
    var sent := HistoryRow(doc, Place(from, item.material), SentWithTransfer, SentBase(s, item));
    OneRecords(st, doc, from, to, item);
    RecordedConcat(st.history, [received, sent], doc, Place(from, m), SentWithTransfer);
    RecordedConcat(st.history, [received, sent], doc, Place(to, m), ReceivedWithTransfer);
    RecordedPair(received, sent, doc, Place(from, m), SentWithTransfer);
    RecordedPair(received, sent, doc, Place(to, m), ReceivedWithTransfer);
  }

  /** Rows of materials the list does not contain are untouched, and nothing is recorded for them. */
  lemma {:induction false} UntouchedMaterial(st: Stock, doc: nat, from: Branch, to: Branch, items: seq<TransferItem>,
                                             m: Material)
    requires from != to && Sendable(st, from, items) && Unrecorded(st.history, doc)
    requires forall i :: 0 <= i < |items| ==> items[i].material != m
    ensures var after := TransferAll(st, doc, from, to, items).0;
      && At(after.rows, Place(from, m)) == At(st.rows, Place(from, m))
          && At(after.rows, Place(to, m)) == At(st.rows, Place(to, m))
      && Recorded(after.history, doc, Place(from, m), SentWithTransfer).None?
      && Recorded(after.history, doc, Place(to, m), ReceivedWithTransfer).None?
  {
    if items != [] {
      var rest, item := items[..|items| - 1], items[|items| - 1];
      UntouchedMaterial(st, doc, from, to, rest, m);
      TransferResidual(st, doc, from, to, rest, m);
      var mid := TransferAll(st, doc, from, to, rest).0;
      OneRecords(mid, doc, from, to, item);
      LookupAfterLast(st, doc, from, to, items, m);
    }
  }

  /** With distinct materials each item finds its own two history rows, computed from the rows as they
      stood before the transfer. */
  lemma {:induction false} RecordsEachItem(st: Stock, doc: nat, from: Branch, to: Branch, items: seq<TransferItem>,
                                           i: nat)
    requires from != to && Sendable(st, from, items) && Unrecorded(st.history, doc)
    requires DistinctMaterials(items) && i < |items|
    ensures var after := TransferAll(st, doc, from, to, items).0;
            var s, t := At(st.rows, Place(from, items[i].material)), At(st.rows, Place(to, items[i].material));
      && Recorded(after.history, doc, Place(from, items[i].material), SentWithTransfer) == Some(SentBase(s, items[i]))
      && Recorded(after.history, doc, Place(to, items[i].material), ReceivedWithTransfer)
          == Some(ReceivedBase(t, s, items[i]))
  {
    var n := |items| - 1;
    LookupAfterLast(st, doc, from, to, items, items[i].material);
    if i < n {
      assert items[..n][i] == items[i];
      RecordsEachItem(st, doc, from, to, items[..n], i);
    } else {
      UntouchedMaterial(st, doc, from, to, items[..n], items[i].material);
    }
  }

  lemma {:induction false} LookupAfterLast(st: Stock, doc: nat, from: Branch, to: Branch, items: seq<TransferItem>,
                                           m: Material)
    requires from != to && Sendable(st, from, items) && items != []
    ensures var mid := TransferAll(st, doc, from, to, items[..|items| - 1]).0;
            var h, k, item := mid.history, TransferAll(st, doc, from, to, items).0.history, items[|items| - 1];
            var s, t := At(mid.rows, Place(from, item.material)), At(mid.rows, Place(to, item.material));
      && item.factor > 0.0 && item.quantity > 0.0
      && Recorded(k, doc, Place(from, m), SentWithTransfer)
         == (if Recorded(h, doc, Place(from, m), SentWithTransfer).Some?
             then Recorded(h, doc, Place(from, m), SentWithTransfer)
             else if m == item.material then Some(SentBase(s, item)) else None)
      && Recorded(k, doc, Place(to, m), ReceivedWithTransfer)
         == (if Recorded(h, doc, Place(to, m), ReceivedWithTransfer).Some?
             then Recorded(h, doc, Place(to, m), ReceivedWithTransfer)
             else if m == item.material then Some(ReceivedBase(t, s, item)) else None)
  {
    var rest, item := items[..|items| - 1], items[|items| - 1];
    TransferResidual(st, doc, from, to, rest, m);
    LookupAfterOne(TransferAll(st, doc, from, to, rest).0, doc, from, to, item, m);
  }

  // ----- when the two sides agree -----

  /** The item is valued alike on both sides: under an override price, or in the base unit from a source
      with a cost, or from a costless source to a costless target. */
  predicate ValuedAlike(source: StockRow, target: StockRow, item: TransferItem) {
    item.overridePrice > 0.0
    || (if source.averageCost != 0.0 then item.factor == 1.0 else target.averageCost == 0.0)
  }

  lemma {:induction false} SentValue(source: StockRow, item: TransferItem)
    requires item.factor > 0.0
    ensures SentBase(source, item).stockValue == Value(item.quantity, source.averageCost)
  {
    Rescale(source.averageCost, item.factor, item.quantity);
    assert forall x :: Value(x, 0.0) == 0.0;
  }

  lemma {:induction false} ReceivedValue(target: StockRow, source: StockRow, item: TransferItem)
    requires item.factor > 0.0 && item.quantity > 0.0 && item.overridePrice <= 0.0
    ensures ReceivedBase(target, source, item).stockValue
         == Value(Value(item.quantity, item.factor),
             if source.averageCost != 0.0 then source.averageCost else target.averageCost)
  {
    ReceivedWorth(target, source, item);
    ValueZero(source.averageCost, item.factor);
    RatioLaws(source.averageCost, item.factor);
  }

  /** The two history rows carry the same value if and only if the item is valued alike. */
  lemma {:induction false} RowsAgreeIff(target: StockRow, source: StockRow, item: TransferItem)
    requires item.factor > 0.0 && item.quantity > 0.0 && item.overridePrice <= 0.0
    ensures SentBase(source, item).stockValue == ReceivedBase(target, source, item).stockValue
       <==> ValuedAlike(source, target, item)
  {
    var q, f, c, d := item.quantity, item.factor, source.averageCost, target.averageCost;
    SentValue(source, item);
    ReceivedValue(target, source, item);
    if c != 0.0 {
      assert Value(Value(q, f), c) - Value(q, c) == Value(Value(q, f) - q, c) by { ValueLaws(Value(q, f), q, c); }
      assert Value(q, f) - q == Value(q, f - 1.0) by { ValueLaws(f, 1.0, q); assert Value(q, 1.0) == q; }
      ProductZero(Value(q, f) - q, c);
      ProductZero(q, f - 1.0);
    } else {
      assert Value(q, 0.0) == 0.0;
      MulPositive(q, f);
      ProductZero(Value(q, f), d);
    }
  }

  lemma {:induction false} ProductZero(x: real, y: real)
    ensures Value(x, y) == 0.0 <==> x == 0.0 || y == 0.0
  {
    if y > 0.0 {
      ValueZero(x, y);
    } else if y < 0.0 {
      ValueZero(x, -y);
      assert x * (-y) == -(x * y);
    }
  }

  // ----- what the two vouchers leave -----

  /** Rounded amounts of the items on one side, as the handler pushes them. */
  function Amounts(h: seq<HistoryRow>, doc: nat, branch: Branch, action: Action,
                   items: seq<TransferItem>): (r: seq<real>)
    ensures |r| == |items|
  {
    if items == [] then []
    else Amounts(h, doc, branch, action, items[..|items| - 1])
         + [Round(ItemValue(h, doc, branch, action, items[|items| - 1]), Mills)]
  }

  /** What the amounts put on an account: once for each item of that inventory account, and off again on
      the inter-company account. */
  function Placed(account: Material -> Account, interCompany: Account, items: seq<TransferItem>, amounts: seq<real>,
                  a: Account): real
    requires |items| == |amounts|
  {
    if items == [] then 0.0
    else
      var n := |items| - 1;
      Placed(account, interCompany, items[..n], amounts[..n], a)
      + (if account(items[n].material) == a then amounts[n] else 0.0) - (if interCompany == a then amounts[n] else 0.0)
  }

  function Total(amounts: seq<real>): real {
    if amounts == [] then 0.0 else Total(amounts[..|amounts| - 1]) + amounts[|amounts| - 1]
  }

  /** What the ledger keeps of the amounts: the positive ones. */
  function Kept(amounts: seq<real>): (r: seq<real>)
    ensures |r| == |amounts|
  {
    if amounts == [] then []
    else Kept(amounts[..|amounts| - 1]) + [if amounts[|amounts| - 1] > 0.0 then amounts[|amounts| - 1] else 0.0]
  }

  function OnSide(s: Side, x: real): real {
    if s == DR then x else -x
  }

  lemma {:induction false} NetOfPair(lines: seq<Line>, x: Account, y: Account, s: Side, amount: real, a: Account)
    ensures Net(lines + [Line(x, s, amount, None)] + [Line(y, s.Flip(), amount, None)], a)
         == Net(lines, a) + OnSide(s, (if x == a then amount else 0.0) - (if y == a then amount else 0.0))
  {
    var l0, l1 := Line(x, s, amount, None), Line(y, s.Flip(), amount, None);
    forall t ensures KeyTotal(lines + [l0] + [l1], Key(a, t))
        == KeyTotal(lines, Key(a, t)) + (if l0.Key() == Key(a, t) then amount else 0.0)
            + (if l1.Key() == Key(a, t) then amount else 0.0) {
      KeyTotalSnoc(lines, l0, Key(a, t));
      KeyTotalSnoc(lines + [l0], l1, Key(a, t));
    }
  }

  lemma {:induction false} SideNet(h: seq<HistoryRow>, doc: nat, branch: Branch, action: Action, s: Side,
                                   account: Material -> Account, interCompany: Account, items: seq<TransferItem>,
                                       a: Account)
    ensures Net(SideLines(h, doc, branch, action, s, account, interCompany, items), a)
         == OnSide(s, Placed(account, interCompany, items, Amounts(h, doc, branch, action, items), a))
  {
    if items != [] {
      var rest, item := items[..|items| - 1], items[|items| - 1];
      var amount := Round(ItemValue(h, doc, branch, action, item), Mills);
      SideNet(h, doc, branch, action, s, account, interCompany, rest, a);
      NetOfPair(SideLines(h, doc, branch, action, s, account, interCompany, rest), account(item.material), interCompany,
          s, amount, a);
      assert Amounts(h, doc, branch, action, items)[..|rest|] == Amounts(h, doc, branch, action, rest);
    }
  }

  /** After any transfer the two vouchers together leave on each account exactly what the received amounts
      place there beyond the sent ones. */
  lemma {:induction false} MirrorResidual(h: seq<HistoryRow>, doc: nat, from: Branch, to: Branch,
                                          account: Material -> Account,
                                          interCompany: Account, items: seq<TransferItem>, a: Account)
    ensures Net(SourceLines(h, doc, from, account, interCompany, items), a)
              + Net(TargetLines(h, doc, to, account, interCompany, items), a)
         == Placed(account, interCompany, items, Amounts(h, doc, to, ReceivedWithTransfer, items), a)
            - Placed(account, interCompany, items, Amounts(h, doc, from, SentWithTransfer, items), a)
  {
    SideNet(h, doc, from, SentWithTransfer, CR, account, interCompany, items, a);
    SideNet(h, doc, to, ReceivedWithTransfer, DR, account, interCompany, items, a);
  }

  // ----- the amounts, before the transfer -----

  function OverrideValue(item: TransferItem): real {
    Value(Value(Round(item.overridePrice, Mills), item.overrideFactor), item.quantity)
  }

  /** The amount an item will have on the source side, from the rows before the transfer. */
  function SentAmount(st: Stock, from: Branch, item: TransferItem): real {
    Round(if item.overridePrice > 0.0 then OverrideValue(item)
          else Value(item.quantity, At(st.rows, Place(from, item.material)).averageCost), Mills)
  }

  /** And on the target side, where the source's cost is carried over unless it is zero. */
  function ReceivedAmount(st: Stock, from: Branch, to: Branch, item: TransferItem): real {
    var s, t := At(st.rows, Place(from, item.material)), At(st.rows, Place(to, item.material));
    var cost := if s.averageCost != 0.0 then s.averageCost else t.averageCost;
    Round(if item.overridePrice > 0.0 then OverrideValue(item)
          else Value(Value(item.quantity, item.factor), cost), Mills)
  }

  function SentAmounts(st: Stock, from: Branch, items: seq<TransferItem>): (r: seq<real>)
    ensures |r| == |items|
    ensures forall i :: 0 <= i < |items| ==> r[i] == SentAmount(st, from, items[i])
  {
    if items == [] then [] else SentAmounts(st, from, items[..|items| - 1]) + [SentAmount(st, from, items[|items| - 1])]
  }

  function ReceivedAmounts(st: Stock, from: Branch, to: Branch, items: seq<TransferItem>): (r: seq<real>)
    ensures |r| == |items|
    ensures forall i :: 0 <= i < |items| ==> r[i] == ReceivedAmount(st, from, to, items[i])
  {
    if items == [] then []
    else ReceivedAmounts(st, from, to, items[..|items| - 1]) + [ReceivedAmount(st, from, to, items[|items| - 1])]
  }

  lemma {:induction false} AmountsAt(h: seq<HistoryRow>, doc: nat, branch: Branch, action: Action,
                                     items: seq<TransferItem>, i: nat)
    requires i < |items|
    ensures Amounts(h, doc, branch, action, items)[i] == Round(ItemValue(h, doc, branch, action, items[i]), Mills)
  {
    if i < |items| - 1 {
      AmountsAt(h, doc, branch, action, items[..|items| - 1], i);
    }
  }

  /** The history rows give each side the amounts foreseen from the rows before the transfer. */
  lemma {:induction false} AmountsForeseen(st: Stock, doc: nat, from: Branch, to: Branch, items: seq<TransferItem>)
    requires from != to && Sendable(st, from, items) && Unrecorded(st.history, doc) && DistinctMaterials(items)
    ensures var h := TransferAll(st, doc, from, to, items).0.history;
      && Amounts(h, doc, from, SentWithTransfer, items) == SentAmounts(st, from, items)
      && Amounts(h, doc, to, ReceivedWithTransfer, items) == ReceivedAmounts(st, from, to, items)
  {
    var h := TransferAll(st, doc, from, to, items).0.history;
    forall i | 0 <= i < |items|
      ensures Amounts(h, doc, from, SentWithTransfer, items)[i] == SentAmount(st, from, items[i])
      ensures Amounts(h, doc, to, ReceivedWithTransfer, items)[i] == ReceivedAmount(st, from, to, items[i])
    {
      var s, t := At(st.rows, Place(from, items[i].material)), At(st.rows, Place(to, items[i].material));
      AmountsAt(h, doc, from, SentWithTransfer, items, i);
      AmountsAt(h, doc, to, ReceivedWithTransfer, items, i);
      RecordsEachItem(st, doc, from, to, items, i);
      if items[i].overridePrice <= 0.0 {
        SentValue(s, items[i]);
        ReceivedValue(t, s, items[i]);
      }
    }
  }

  // ----- what an item's amount is -----

  /** Under an override price both sides carry that price, in thousandths and converted, for the quantity in
      the item's unit; without one the source side carries the quantity at the source's average cost, and the
      target side its base units at that cost, or at the target's own where the source has none. */
  lemma {:induction false} AmountsMean(st: Stock, doc: nat, from: Branch, to: Branch, items: seq<TransferItem>, i: nat)
    requires from != to && Sendable(st, from, items) && Unrecorded(st.history, doc) && DistinctMaterials(items)
    requires i < |items|
    ensures var h, item := TransferAll(st, doc, from, to, items).0.history, items[i];
            var sent := Amounts(h, doc, from, SentWithTransfer, items)[i];
            var received := Amounts(h, doc, to, ReceivedWithTransfer, items)[i];
            var cost := At(st.rows, Place(from, item.material)).averageCost;
            var targetCost := At(st.rows, Place(to, item.material)).averageCost;
      && (item.overridePrice > 0.0 ==>
            sent == received
            == Round(Value(Value(Round(item.overridePrice, Mills), item.overrideFactor), item.quantity), Mills))
      && (item.overridePrice <= 0.0 ==>
            && sent == Round(Value(item.quantity, cost), Mills)
            && received == Round(Value(Value(item.quantity, item.factor), if cost != 0.0 then cost else targetCost),
                                 Mills))
  {
    AmountsForeseen(st, doc, from, to, items);
  }

  /** The item's only inventory account is credited with the amount at the source and debited at the target. */
  lemma {:induction false} ItemOnItsAccount(h: seq<HistoryRow>, doc: nat, from: Branch, to: Branch,
                                            account: Material -> Account, interCompany: Account,
                                            items: seq<TransferItem>, i: nat)
    requires i < |items| && account(items[i].material) != interCompany
    requires forall j :: 0 <= j < |items| && j != i ==> account(items[j].material) != account(items[i].material)
    ensures var a := account(items[i].material);
      && Net(SourceLines(h, doc, from, account, interCompany, items), a)
         == -Amounts(h, doc, from, SentWithTransfer, items)[i]
      && Net(TargetLines(h, doc, to, account, interCompany, items), a)
         == Amounts(h, doc, to, ReceivedWithTransfer, items)[i]
  {
    var a := account(items[i].material);
    SideNet(h, doc, from, SentWithTransfer, CR, account, interCompany, items, a);
    SideNet(h, doc, to, ReceivedWithTransfer, DR, account, interCompany, items, a);
    PlacedAlone(account, interCompany, items, Amounts(h, doc, from, SentWithTransfer, items), i);
    PlacedAlone(account, interCompany, items, Amounts(h, doc, to, ReceivedWithTransfer, items), i);
  }

  lemma {:induction false} PlacedAlone(account: Material -> Account, interCompany: Account, items: seq<TransferItem>,
                                       amounts: seq<real>, i: nat)
    requires |items| == |amounts| && i < |items| && account(items[i].material) != interCompany
    requires forall j :: 0 <= j < |items| && j != i ==> account(items[j].material) != account(items[i].material)
    ensures Placed(account, interCompany, items, amounts, account(items[i].material)) == amounts[i]
  {
    var n := |items| - 1;
    if i < n {
      PlacedAlone(account, interCompany, items[..n], amounts[..n], i);
    } else {
      PlacedNowhere(account, interCompany, items[..n], amounts[..n], account(items[i].material));
    }
  }

  lemma {:induction false} PlacedNowhere(account: Material -> Account, interCompany: Account, items: seq<TransferItem>,
                                         amounts: seq<real>, a: Account)
    requires |items| == |amounts| && a != interCompany
    requires forall j :: 0 <= j < |items| ==> account(items[j].material) != a
    ensures Placed(account, interCompany, items, amounts, a) == 0.0
  {
    if items != [] {
      PlacedNowhere(account, interCompany, items[..|items| - 1], amounts[..|items| - 1], a);
    }
  }

  /** The two lists of lines net to zero together on every account. */
  ghost predicate Cancel(x: seq<Line>, y: seq<Line>) {
    forall a: Account :: Net(x, a) + Net(y, a) == 0.0
  }

  ghost predicate PlacedAlike(account: Material -> Account, interCompany: Account, items: seq<TransferItem>,
                              x: seq<real>, y: seq<real>)
    requires |items| == |x| == |y|
  {
    forall a: Account :: Placed(account, interCompany, items, x, a) == Placed(account, interCompany, items, y, a)
  }

  /** Source and target voucher net to zero together on every account exactly when, account by account, the
      amounts foreseen for the two sides agree; so in particular when every item is valued alike. */
  lemma {:induction false} TransferVouchersMirrorIff(st: Stock, doc: nat, from: Branch, to: Branch,
                                                     items: seq<TransferItem>,
                                                     account: Material -> Account, interCompany: Account)
    requires from != to && Sendable(st, from, items) && Unrecorded(st.history, doc) && DistinctMaterials(items)
    ensures var h := TransferAll(st, doc, from, to, items).0.history;
            Cancel(SourceLines(h, doc, from, account, interCompany, items),
                TargetLines(h, doc, to, account, interCompany, items))
            <==> PlacedAlike(account, interCompany, items, SentAmounts(st, from, items),
                ReceivedAmounts(st, from, to, items))
    ensures AllValuedAlike(st, from, to, items) ==> SentAmounts(st, from, items) == ReceivedAmounts(st, from, to, items)
  {
    var h := TransferAll(st, doc, from, to, items).0.history;
    var source, target := SourceLines(h, doc, from, account, interCompany, items),
        TargetLines(h, doc, to, account, interCompany, items);
    var sent, received := SentAmounts(st, from, items), ReceivedAmounts(st, from, to, items);
    forall a: Account
      ensures Net(source, a) + Net(target, a) == Placed(account, interCompany, items, received, a)
                - Placed(account, interCompany, items, sent, a)
    {
      AmountsForeseen(st, doc, from, to, items);
      MirrorResidual(h, doc, from, to, account, interCompany, items, a);
    }
    if AllValuedAlike(st, from, to, items) {
      AlikeAmounts(st, from, to, items);
    }
  }

  predicate AllValuedAlike(st: Stock, from: Branch, to: Branch, items: seq<TransferItem>) {
    forall i :: 0 <= i < |items| ==>
      ValuedAlike(At(st.rows, Place(from, items[i].material)), At(st.rows, Place(to, items[i].material)), items[i])
  }

  lemma {:induction false} AlikeAmounts(st: Stock, from: Branch, to: Branch, items: seq<TransferItem>)
    requires AllValuedAlike(st, from, to, items) && Sendable(st, from, items)
    ensures SentAmounts(st, from, items) == ReceivedAmounts(st, from, to, items)
  {
    forall i | 0 <= i < |items| ensures SentAmount(st, from, items[i]) == ReceivedAmount(st, from, to, items[i]) {
      var s, t := At(st.rows, Place(from, items[i].material)), At(st.rows, Place(to, items[i].material));
      if items[i].overridePrice <= 0.0 {
        SentValue(s, items[i]);
        ReceivedValue(t, s, items[i]);
        RowsAgreeIff(t, s, items[i]);
      }
    }
  }

  /** In the base unit, one unit of a material without a cost at the source and with one at the target is
      worth nothing on the source voucher and the target's cost on the other. */
  lemma {:induction false} CostlessSourceBreaksMirror(st: Stock, doc: nat, from: Branch, to: Branch, item: TransferItem,
                                                      account: Material -> Account, interCompany: Account)
    requires from != to && Place(from, item.material) in st.rows && Unrecorded(st.history, doc)
    requires item.factor == 1.0 && item.quantity == 1.0 && item.overridePrice <= 0.0
               && account(item.material) != interCompany
    requires At(st.rows, Place(from, item.material)).averageCost == 0.0
    ensures var h := TransferAll(st, doc, from, to, [item]).0.history;
            Net(SourceLines(h, doc, from, account, interCompany, [item]), account(item.material))
            + Net(TargetLines(h, doc, to, account, interCompany, [item]), account(item.material))
            == Round(At(st.rows, Place(to, item.material)).averageCost, Mills)
  {
    var items, h := [item], TransferAll(st, doc, from, to, [item]).0.history;
    AmountsForeseen(st, doc, from, to, items);
    MirrorResidual(h, doc, from, to, account, interCompany, items, account(item.material));
    assert items[..0] == [];
    GridZero(Mills);
    assert SentAmounts(st, from, items) == [0.0];
    assert ReceivedAmounts(st, from, to, items) == [Round(At(st.rows, Place(to, item.material)).averageCost, Mills)];
  }

  // ----- what the ledger makes of the two vouchers -----

  /** Each of the two vouchers balances on its own. */
  lemma {:induction false} SideBalances(h: seq<HistoryRow>, doc: nat, branch: Branch, action: Action, s: Side,
                                        account: Material -> Account, interCompany: Account, items: seq<TransferItem>)
    ensures Imbalance(SideLines(h, doc, branch, action, s, account, interCompany, items)) == 0.0
  {
    if items != [] {
      var rest, item := items[..|items| - 1], items[|items| - 1];
      var amount := Round(ItemValue(h, doc, branch, action, item), Mills);
      var lines := SideLines(h, doc, branch, action, s, account, interCompany, rest);
      SideBalances(h, doc, branch, action, s, account, interCompany, rest);
      ImbalanceSnoc(lines, Line(account(item.material), s, amount, None));
      ImbalanceSnoc(lines + [Line(account(item.material), s, amount, None)],
          Line(interCompany, s.Flip(), amount, None));
    }
  }

  lemma {:induction false} PositivePair(lines: seq<Line>, d: Line, c: Line)
    requires d.amount == c.amount
    ensures Positive(lines + [d] + [c]) == if d.amount > 0.0 then Positive(lines) + [d] + [c] else Positive(lines)
  {
    assert (lines + [d] + [c])[..|lines| + 1] == lines + [d] && (lines + [d])[..|lines|] == lines;
  }

  /** The filter drops the items that are not positive as pairs. */
  function KeptLines(s: Side, account: Material -> Account, interCompany: Account, items: seq<TransferItem>,
                     kept: seq<real>): seq<Line>
    requires |items| == |kept|
  {
    if items == [] then []
    else
      var n := |items| - 1;
      var lines := KeptLines(s, account, interCompany, items[..n], kept[..n]);
      if kept[n] > 0.0 then
        lines + [Line(account(items[n].material), s, kept[n], None)] + [Line(interCompany, s.Flip(), kept[n], None)]
      else lines
  }

  lemma {:induction false} PositiveSide(h: seq<HistoryRow>, doc: nat, branch: Branch, action: Action, s: Side,
                                        account: Material -> Account, interCompany: Account, items: seq<TransferItem>)
    ensures Positive(SideLines(h, doc, branch, action, s, account, interCompany, items))
         == KeptLines(s, account, interCompany, items, Kept(Amounts(h, doc, branch, action, items)))
  {
    if items != [] {
      var rest, item := items[..|items| - 1], items[|items| - 1];
      var amount := Round(ItemValue(h, doc, branch, action, item), Mills);
      var amounts := Amounts(h, doc, branch, action, items);
      PositiveSide(h, doc, branch, action, s, account, interCompany, rest);
      PositivePair(SideLines(h, doc, branch, action, s, account, interCompany, rest),
                   Line(account(item.material), s, amount, None), Line(interCompany, s.Flip(), amount, None));
      assert amounts[..|rest|] == Amounts(h, doc, branch, action, rest);
      assert Kept(amounts)[..|rest|] == Kept(amounts[..|rest|]);
    }
  }

  ghost predicate NothingNegative(kept: seq<real>) {
    forall i :: 0 <= i < |kept| ==> kept[i] >= 0.0
  }

  /** What remains still balances. */
  lemma {:induction false} KeptTotals(s: Side, account: Material -> Account, interCompany: Account,
                                      items: seq<TransferItem>, kept: seq<real>)
    requires |items| == |kept| && NothingNegative(kept)
    ensures var p := KeptLines(s, account, interCompany, items, kept);
            SideTotal(p, DR) == SideTotal(p, CR) == Total(kept) && Untaxed(p)
  {
    if items != [] {
      var n := |items| - 1;
      KeptTotals(s, account, interCompany, items[..n], kept[..n]);
      var lines := KeptLines(s, account, interCompany, items[..n], kept[..n]);
      var d, c := Line(account(items[n].material), s, kept[n], None), Line(interCompany, s.Flip(), kept[n], None);
      if kept[n] > 0.0 {
        forall t ensures SideTotal(lines + [d] + [c], t) == SideTotal(lines, t) + kept[n] {
          SideTotalSnoc(lines, d, t);
          SideTotalSnoc(lines + [d], c, t);
        }
      }
    }
  }

  lemma {:induction false} KeptNet(s: Side, account: Material -> Account, interCompany: Account,
                                   items: seq<TransferItem>, kept: seq<real>, a: Account)
    requires |items| == |kept| && NothingNegative(kept)
    ensures Net(KeptLines(s, account, interCompany, items, kept), a)
              == OnSide(s, Placed(account, interCompany, items, kept, a))
  {
    if items != [] {
      var n := |items| - 1;
      KeptNet(s, account, interCompany, items[..n], kept[..n], a);
      if kept[n] > 0.0 {
        NetOfPair(KeptLines(s, account, interCompany, items[..n], kept[..n]), account(items[n].material), interCompany,
            s, kept[n], a);
      }
    }
  }

  lemma {:induction false} KeptNonNegative(amounts: seq<real>)
    ensures NothingNegative(Kept(amounts))
  {
    if amounts != [] {
      KeptNonNegative(amounts[..|amounts| - 1]);
    }
  }

  /** The ledger refuses one of the vouchers only when what it keeps of the amounts rounds to zero in all,
      and stores it with the nets of those amounts. */
  lemma {:induction false} SidePosted(h: seq<HistoryRow>, doc: nat, branch: Branch, action: Action, s: Side,
                                      account: Material -> Account, interCompany: Account, items: seq<TransferItem>,
                                          tb: TaxBook, a: Account)
    ensures var out, kept := Prepare(SideLines(h, doc, branch, action, s, account, interCompany, items), tb),
              Kept(Amounts(h, doc, branch, action, items));
      && (out.Accepted? <==> Round(Total(kept), Cents) != 0.0)
      && (out.Accepted? ==> Net(out.stored, a) == OnSide(s, Placed(account, interCompany, items, kept, a)))
  {
    var lines := SideLines(h, doc, branch, action, s, account, interCompany, items);
    var kept := Kept(Amounts(h, doc, branch, action, items));
    PositiveSide(h, doc, branch, action, s, account, interCompany, items);
    KeptNonNegative(Amounts(h, doc, branch, action, items));
    KeptTotals(s, account, interCompany, items, kept);
    KeptNet(s, account, interCompany, items, kept, a);
    PositiveId(Positive(lines));
    LedgerKeepsNets(Positive(lines), tb, a);
    assert Prepare(lines, tb) == Prepare(Positive(lines), tb);
  }

  /** Once stored, the two vouchers leave on each account what the received amounts kept place there beyond
      the sent ones; when every item is valued alike they are accepted or refused together and cancel. */
  lemma {:induction false} TransferVouchersPost(st: Stock, doc: nat, from: Branch, to: Branch, items: seq<TransferItem>,
                                                account: Material -> Account, interCompany: Account, tb: TaxBook,
                                                    a: Account)
    requires from != to && Sendable(st, from, items) && Unrecorded(st.history, doc) && DistinctMaterials(items)
    ensures var h := TransferAll(st, doc, from, to, items).0.history;
            var source := Prepare(SourceLines(h, doc, from, account, interCompany, items), tb);
            var target := Prepare(TargetLines(h, doc, to, account, interCompany, items), tb);
            var sent, received := Kept(SentAmounts(st, from, items)), Kept(ReceivedAmounts(st, from, to, items));
      && (source.Accepted? <==> Round(Total(sent), Cents) != 0.0)
      && (target.Accepted? <==> Round(Total(received), Cents) != 0.0)
      && (source.Accepted? && target.Accepted? ==>
            Net(source.stored, a) + Net(target.stored, a)
            == Placed(account, interCompany, items, received, a) - Placed(account, interCompany, items, sent, a))
      && (AllValuedAlike(st, from, to, items) ==>
            (source.Accepted? <==> target.Accepted?)
            && (source.Accepted? ==> Net(source.stored, a) + Net(target.stored, a) == 0.0))
  {
    var h := TransferAll(st, doc, from, to, items).0.history;
    AmountsForeseen(st, doc, from, to, items);
    SidePosted(h, doc, from, SentWithTransfer, CR, account, interCompany, items, tb, a);
    SidePosted(h, doc, to, ReceivedWithTransfer, DR, account, interCompany, items, tb, a);
    if AllValuedAlike(st, from, to, items) {
      AlikeAmounts(st, from, to, items);
    }
  }

  /** The handler's two loops; `values` are written back to the items. */
  method HandleStockTransferNew(h: seq<HistoryRow>, doc: nat, from: Branch, to: Branch, account: Material -> Account,
                                interCompany: Account, items: seq<TransferItem>)
    returns (source: seq<Line>, target: seq<Line>, values: seq<real>)
    ensures source == SourceLines(h, doc, from, account, interCompany, items)
    ensures target == TargetLines(h, doc, to, account, interCompany, items)
    ensures values == Amounts(h, doc, from, SentWithTransfer, items)
  {
    var received;
    source, values := PushLines(h, doc, from, SentWithTransfer, CR, account, interCompany, items);
    target, received := PushLines(h, doc, to, ReceivedWithTransfer, DR, account, interCompany, items);
  }

  method PushLines(h: seq<HistoryRow>, doc: nat, branch: Branch, action: Action, s: Side, account: Material -> Account,
                   interCompany: Account, items: seq<TransferItem>) returns (lines: seq<Line>, values: seq<real>)
    ensures lines == SideLines(h, doc, branch, action, s, account, interCompany, items)
    ensures values == Amounts(h, doc, branch, action, items)
  {
    lines, values := [], [];
    for i := 0 to |items|
      invariant lines == SideLines(h, doc, branch, action, s, account, interCompany, items[..i])
      invariant values == Amounts(h, doc, branch, action, items[..i])
    {
      assert items[..i + 1][..i] == items[..i];
      var item := items[i];
      var r := Recorded(h, doc, Place(branch, item.material), action);
      var amount := if r.Some? then r.value.stockValue else 0.0;
      if item.overridePrice > 0.0 {
        amount := Value(Value(Round(item.overridePrice, Mills), item.overrideFactor), item.quantity);
      }
      lines := lines + [Line(account(item.material), s, Round(amount, Mills), None)];
      lines := lines + [Line(interCompany, s.Flip(), Round(amount, Mills), None)];
      values := values + [Round(amount, Mills)];
    }
    assert items[..|items|] == items;
  }
}
