/** What a goods receipt does to the stock against what its voucher books for it. */
module GoodsReceiptVouchers {
  import opened Rounding
  import opened VoucherLines
  import opened VoucherPipeline
  import opened Valuation
  import opened StockBooks
  import opened LandedCost
  import opened VoucherBuilders

  /** The first n lines as the voucher builder reads them: the net price the stock was taken in at, or given
      back at, and the quantity without its sign. */
  function VoucherItems(r: Receipt, isReturn: bool, inventory: Material -> Account, grir: Material -> Account,
                        n: nat): (items: seq<ReceivedLine>)
    requires Receivable(r) && n <= |r.items|
    ensures |items| == n
    ensures forall i :: 0 <= i < n ==> items[i] == VoucherItem(r, i, isReturn, inventory, grir)
  {
    if n == 0 then []
    else VoucherItems(r, isReturn, inventory, grir, n - 1) + [VoucherItem(r, n - 1, isReturn, inventory, grir)]
  }

  function VoucherItem(r: Receipt, i: nat, isReturn: bool, inventory: Material -> Account,
                       grir: Material -> Account): ReceivedLine
    requires Receivable(r) && i < |r.items|
  {
    var l := r.items[i];
    ReceivedLine(inventory(l.material), grir(l.material), PriceTaken(r, i, isReturn), l.stock)
  }

  /** What the voucher's lines put on the inventory accounts before they are keyed. */
  function Debited(r: Receipt, inventory: Material -> Account, grir: Material -> Account, n: nat): real
    requires Receivable(r) && n <= |r.items|
  {
    SideTotal(ReceiptLines(VoucherItems(r, false, inventory, grir, n), false), DR)
  }

  lemma {:induction false} DebitedNearLanded(r: Receipt, inventory: Material -> Account, grir: Material -> Account,
                                             n: nat)
    requires Receivable(r) && n <= |r.items|
    ensures Abs(Debited(r, inventory, grir, n) - LandedSum(r, n)) <= 0.005 * n as real
  {
    if n > 0 {
      DebitedNearLanded(r, inventory, grir, n - 1);
      var items, i := VoucherItems(r, false, inventory, grir, n), VoucherItem(r, n - 1, false, inventory, grir);
      assert items[..n - 1] == VoucherItems(r, false, inventory, grir, n - 1);
      var before := ReceiptLines(items[..n - 1], false);
      SideTotalSnoc(before, Line(i.inventory, DR, i.Amount(), None), DR);
      SideTotalSnoc(before + [Line(i.inventory, DR, i.Amount(), None)], Line(i.grir, CR, i.Amount(), None), DR);
      RoundNear(Value(i.netPrice, i.stock), Cents);
      ValueLaws(i.netPrice, 0.0, i.stock);
    }
  }

  /** What taking the receipt in adds to total worth, beyond the write-ups. */
  function Rise(rows: map<Place, StockRow>, branch: Branch, r: Receipt, places: seq<Place>): real
    requires Receivable(r)
  {
    TotalWorth(TakeIn(rows, branch, r, |r.items|), places) - TotalWorth(rows, places)
    - WorthWriteUp(rows, places, Touched(branch, r, |r.items|))
  }

  /** Over the whole receipt the voucher debits inventory with what the worth of the stock rises by, beyond
      the write-ups, to half a cent per line. */
  lemma {:induction false} VoucherTracksWorth(rows: map<Place, StockRow>, branch: Branch, r: Receipt,
                                              places: seq<Place>,
                                              inventory: Material -> Account, grir: Material -> Account)
    requires Receivable(r) && Counts(branch, r, places)
    ensures Abs(Debited(r, inventory, grir, |r.items|) - Rise(rows, branch, r, places)) <= 0.005 * |r.items| as real
  {
    TakeInRaises(rows, branch, r, |r.items|, places);
    DebitedNearLanded(r, inventory, grir, |r.items|);
  }

  /** And so does the stored voucher, when inventory and GRIR accounts do not mix and no amount is negative. */
  lemma {:induction false} StoredTracksWorth(rows: map<Place, StockRow>, branch: Branch, r: Receipt, places: seq<Place>,
                                             inventory: Material -> Account, grir: Material -> Account, tb: TaxBook,
                                             items: seq<ReceivedLine>, out: Outcome)
    requires Receivable(r) && Counts(branch, r, places)
    requires items == VoucherItems(r, false, inventory, grir, |r.items|) && Disjoint(items) && NoNegativeReceipt(items)
    requires out == Prepare(Keyed(ReceiptLines(items, false)), tb) && out.Accepted?
    ensures Abs(SideTotal(out.stored, DR) - Rise(rows, branch, r, places)) <= 0.005 * |r.items| as real
  {
    var debited, rise := Debited(r, inventory, grir, |r.items|), Rise(rows, branch, r, places);
    assert Abs(debited - rise) <= 0.005 * |r.items| as real by {
      VoucherTracksWorth(rows, branch, r, places, inventory, grir);
    }
    assert SideTotal(out.stored, DR) == debited by { StoredDebits(items, tb); }
  }

  lemma {:induction false} StoredDebits(items: seq<ReceivedLine>, tb: TaxBook)
    requires Disjoint(items) && NoNegativeReceipt(items)
    ensures var out := Prepare(Keyed(ReceiptLines(items, false)), tb);
            out.Accepted? ==> SideTotal(out.stored, DR) == SideTotal(ReceiptLines(items, false), DR)
  {
    var lines := ReceiptLines(items, false);
    assert Keyed(lines) == Regroup(lines) by {
      DisjointIsOneSided(items, false);
      OneSidedIsRegroup(lines);
    }
    assert NoneNegative(Regroup(lines)) by {
      ReceiptLinesBalance(items, false);
      RegroupKeepsSigns(lines);
    }
    RegroupConserves(lines, Key(0, DR), DR);
    PositiveTotals(Regroup(lines), Key(0, DR), DR);
    ReceiptVoucherAccepted(items, false, tb);
  }

  lemma {:induction false} ShareNotNegative(l: PricedLine, base: real, additionalCost: real)
    requires base > 0.0 && l.stock > 0.0 && l.stockValue >= 0.0 && additionalCost >= 0.0
    ensures LandedValue(l, base, additionalCost) >= 0.0
  {
    LandedWithShare(l, base, additionalCost);
    RatioLaws(l.stockValue, base);
    ValueLaws(base, 0.0, Ratio(l.stockValue, base));
    assert Value(0.0, base) == 0.0;
    Quotient(0.0, l.stockValue, base, Ratio(l.stockValue, base));
    MulMono(0.0, Ratio(l.stockValue, base), additionalCost);
  }

  lemma {:induction false} ReturnAmountNotPositive(r: Receipt, i: nat, inventory: Material -> Account,
                                                   grir: Material -> Account)
    requires Receivable(r) && i < |r.items| && SpreadBase(r) > 0.0 && r.items[i].stockValue >= 0.0
    ensures VoucherItem(r, i, true, inventory, grir).Amount() <= 0.0
  {
    var l, price := r.items[i], PriceTaken(r, i, true);
    ShareNotNegative(l, SpreadBase(r), r.additionalCost);
    ReturnPays(l, SpreadBase(r), r.additionalCost);
    RatioOfNegated(price, l.stock);
    ValueLaws(price, 0.0, l.stock);
    assert Value(price, l.stock) == -LandedValue(l, SpreadBase(r), r.additionalCost);
    GridZero(Cents);
    RoundMonotone(Value(price, l.stock), 0.0, Cents);
  }

  /** A return with additional cost spread over it is never posted: all its amounts are negative or zero. */
  lemma {:induction false} ReturnWithCostNeverPosts(r: Receipt, inventory: Material -> Account,
                                                    grir: Material -> Account, tb: TaxBook)
    requires Receivable(r) && SpreadBase(r) > 0.0
    requires forall i :: 0 <= i < |r.items| ==> r.items[i].stockValue >= 0.0
    ensures Prepare(Keyed(ReceiptLines(VoucherItems(r, true, inventory, grir, |r.items|), true)), tb)
              == Refused(ZeroTotal)
  {
    var items := VoucherItems(r, true, inventory, grir, |r.items|);
    forall i | 0 <= i < |items| ensures items[i].Amount() <= 0.0 {
      ReturnAmountNotPositive(r, i, inventory, grir);
    }
    NothingPositiveIsRefused(items, true, tb);
  }
}
