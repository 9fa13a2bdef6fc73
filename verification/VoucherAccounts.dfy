/** What the vouchers of the builders put on each account. */
module VoucherAccounts {
  import opened Rounding
  import opened VoucherLines
  import opened VoucherPipeline
  import opened Valuation
  import opened VoucherBuilders

  lemma {:induction false} TwoMore(lines: seq<Line>, x: Line, y: Line, k: LineKey)
    ensures KeyTotal(lines + [x] + [y], k)
         == KeyTotal(lines, k) + (if x.Key() == k then x.amount else 0.0) + (if y.Key() == k then y.amount else 0.0)
  {
    KeyTotalSnoc(lines, x, k);
    KeyTotalSnoc(lines + [x], y, k);
  }

  // ----- pairs -----

  /** The postings that name an account on one side, each rounded to thousandths. */
  function PostedTo(ps: seq<Posting>, a: Account, s: Side): real {
    if ps == [] then 0.0
    else
      var p := ps[|ps| - 1];
      var named := match s case DR => p.debit case CR => p.credit;
      PostedTo(ps[..|ps| - 1], a, s) + (if named == a then Round(p.amount, Mills) else 0.0)
  }

  /** A paired voucher debits every account with the postings that name it as debit, and credits it with
      those that name it as credit. */
  lemma {:induction false} PairPosts(ps: seq<Posting>, a: Account, s: Side)
    ensures KeyTotal(PairVoucher(ps), Key(a, s)) == PostedTo(ps, a, s)
  {
    RegroupConserves(PairLines(ps), Key(a, s), s);
    PairLinesPost(ps, a, s);
  }

  lemma {:induction false} PairLinesPost(ps: seq<Posting>, a: Account, s: Side)
    ensures KeyTotal(PairLines(ps), Key(a, s)) == PostedTo(ps, a, s)
  {
    if ps != [] {
      var rest, p := ps[..|ps| - 1], ps[|ps| - 1];
      var d, c := Line(p.debit, DR, Round(p.amount, Mills), None), Line(p.credit, CR, Round(p.amount, Mills), None);
      PairLinesPost(rest, a, s);
      TwoMore(PairLines(rest), d, c, Key(a, s));
    }
  }

  // ----- goods receipt -----

  /** The value received on an inventory account, line by line in cents. */
  function ReceivedOn(items: seq<ReceivedLine>, a: Account): real {
    if items == [] then 0.0
    else
      var i := items[|items| - 1];
      ReceivedOn(items[..|items| - 1], a)
      + (if i.inventory == a then Round(Value(i.netPrice, i.stock), Cents) else 0.0)
  }

  /** And what is owed on a goods-received-invoice-received account for it. */
  function OwedOn(items: seq<ReceivedLine>, a: Account): real {
    if items == [] then 0.0
    else
      var i := items[|items| - 1];
      OwedOn(items[..|items| - 1], a) + (if i.grir == a then Round(Value(i.netPrice, i.stock), Cents) else 0.0)
  }

  lemma {:induction false} ReceiptLinesPost(items: seq<ReceivedLine>, isReturn: bool, a: Account)
    ensures KeyTotal(ReceiptLines(items, isReturn), Key(a, if isReturn then CR else DR)) == ReceivedOn(items, a)
    ensures KeyTotal(ReceiptLines(items, isReturn), Key(a, if isReturn then DR else CR)) == OwedOn(items, a)
  {
    if items != [] {
      var rest, i := items[..|items| - 1], items[|items| - 1];
      var goods, owed := if isReturn then CR else DR, if isReturn then DR else CR;
      var d, c := Line(i.inventory, goods, i.Amount(), None), Line(i.grir, owed, i.Amount(), None);
      ReceiptLinesPost(rest, isReturn, a);
      TwoMore(ReceiptLines(rest, isReturn), d, c, Key(a, goods));
      TwoMore(ReceiptLines(rest, isReturn), d, c, Key(a, owed));
    }
  }

  /** When inventory and GRIR accounts do not mix, the voucher of a receipt debits the inventory accounts
      and credits the GRIR accounts with what was received; that of a return does the opposite. */
  lemma {:induction false} ReceiptPosts(items: seq<ReceivedLine>, isReturn: bool, a: Account)
    requires Disjoint(items)
    ensures var v := Keyed(ReceiptLines(items, isReturn));
      && KeyTotal(v, Key(a, if isReturn then CR else DR)) == ReceivedOn(items, a)
      && KeyTotal(v, Key(a, if isReturn then DR else CR)) == OwedOn(items, a)
  {
    var lines := ReceiptLines(items, isReturn);
    DisjointIsOneSided(items, isReturn);
    OneSidedIsRegroup(lines);
    ReceiptLinesPost(items, isReturn, a);
    RegroupConserves(lines, Key(a, DR), DR);
    RegroupConserves(lines, Key(a, CR), CR);
  }

  lemma {:induction false} AddKeyedAmount(g: seq<Line>, l: Line, a: Account)
    ensures var h := AddKeyed(g, l.account, l.side, l.amount);
            EntryAmount(h, a) == EntryAmount(g, a) + if l.account == a then l.amount else 0.0
  {
    var j, h := FindAccount(g, l.account), AddKeyed(g, l.account, l.side, l.amount);
    AddKeyedFinds(g, l, a);
    if j < |g| {
      assert forall k :: 0 <= k < |g| ==> h[k].amount == g[k].amount + (if k == j then l.amount else 0.0);
    } else {
      assert h == g + [Line(l.account, l.side, l.amount, None)];
    }
  }

  /** The amount of an account's entry, 0 when it has none. */
  function EntryAmount(g: seq<Line>, a: Account): real {
    var i := FindAccount(g, a);
    if i < |g| then g[i].amount else 0.0
  }

  /** Whatever the accounts, the one entry of an account carries all that came to it on either side. */
  lemma {:induction false} EntryHoldsAll(lines: seq<Line>, a: Account)
    ensures EntryAmount(Keyed(lines), a) == KeyTotal(lines, Key(a, DR)) + KeyTotal(lines, Key(a, CR))
  {
    if lines != [] {
      var rest, l := lines[..|lines| - 1], lines[|lines| - 1];
      EntryHoldsAll(rest, a);
      AddKeyedAmount(Keyed(rest), l, a);
      assert Keyed(lines) == AddKeyed(Keyed(rest), l.account, l.side, l.amount);
      assert l.Key() == Key(l.account, l.side) && (l.side == DR || l.side == CR);
      assert rest + [l] == lines;
      KeyTotalSnoc(rest, l, Key(a, DR));
      KeyTotalSnoc(rest, l, Key(a, CR));
    }
  }

  // ----- inventory count -----

  /** What an item was found to be worth beyond what was on hand. */
  function Revalued(i: CountedItem): real {
    i.countValue - i.onHandCountValue
  }

  /** The builder's signed difference is that, as long as the two values differ by a cent and the material has
      an account, and within a cent of it as long as it has an account. */
  lemma {:induction false} DifferenceMeans(i: CountedItem)
    requires i.differentialCountValue == Abs(Revalued(i))
    ensures i.account.None? ==> SignedDifference(i) == 0.0
    ensures i.account.Some? && Round(i.countValue, Cents) != Round(i.onHandCountValue, Cents) ==>
              SignedDifference(i) == Revalued(i)
    ensures i.account.Some? ==> Abs(SignedDifference(i) - Revalued(i)) <= 0.01
  {
    if i.countValue <= i.onHandCountValue {
      RoundMonotone(i.countValue, i.onHandCountValue, Cents);
    } else {
      RoundMonotone(i.onHandCountValue, i.countValue, Cents);
    }
    if Round(i.countValue, Cents) == Round(i.onHandCountValue, Cents) {
      RoundsAlike(i.countValue, i.onHandCountValue);
    }
  }

  /** The signed differences of the items of an inventory account, each rounded to thousandths. */
  function DifferencesOn(items: seq<CountedItem>, a: Account): real {
    if items == [] then 0.0
    else
      var i := items[|items| - 1];
      DifferencesOn(items[..|items| - 1], a) + (if i.account == Some(a) then Round(SignedDifference(i), Mills) else 0.0)
  }

  lemma {:induction false} CountEntriesPost(items: seq<CountedItem>, a: Account)
    ensures KeyTotal(CountEntries(items), Key(a, DR)) == DifferencesOn(items, a)
  {
    if items != [] {
      var rest, i := items[..|items| - 1], items[|items| - 1];
      CountEntriesPost(rest, a);
      if Differs(i) {
        KeyTotalSnoc(CountEntries(rest), Line(i.account.value, DR, Round(SignedDifference(i), Mills), None),
            Key(a, DR));
      } else {
        GridZero(Mills);
        assert CountEntries(rest) + [] == CountEntries(rest);
      }
    }
  }

  lemma {:induction false} NetSnoc(lines: seq<Line>, l: Line, a: Account)
    ensures Net(lines + [l], a)
         == Net(lines, a) + if l.account != a then 0.0 else if l.side == DR then l.amount else -l.amount
  {
    KeyTotalSnoc(lines, l, Key(a, DR));
    KeyTotalSnoc(lines, l, Key(a, CR));
  }

  lemma {:induction false} SignedLinesNet(g: seq<Line>, a: Account)
    requires forall j :: 0 <= j < |g| ==> g[j].side == DR
    ensures Net(SignedLines(g), a) == KeyTotal(g, Key(a, DR))
  {
    if g != [] {
      var rest, l := g[..|g| - 1], g[|g| - 1];
      SignedLinesNet(rest, a);
      NetSnoc(SignedLines(rest), SignedLine(l.account, l.amount, DR), a);
    }
  }

  lemma {:induction false} InventoryPart(items: seq<CountedItem>, a: Account)
    ensures Net(SignedLines(Regroup(CountEntries(items))), a) == DifferencesOn(items, a)
  {
    var e := CountEntries(items);
    CountEntriesPost(items, a);
    RegroupConserves(e, Key(a, DR), DR);
    RegroupOneSide(e);
    SignedLinesNet(Regroup(e), a);
  }

  lemma {:induction false} ClosingLine(lines: seq<Line>, account: Account, amount: real, a: Account)
    ensures Net(lines + [SignedLine(account, amount, CR)], a) == Net(lines, a) - if account == a then amount else 0.0
  {
    NetSnoc(lines, SignedLine(account, amount, CR), a);
  }

  /** The voucher of a count debits each inventory account with what its items were found to be worth beyond
      what was on hand; against it stand, on the gain-and-loss account, the items that are not consumption
      and, on the consumption account where one is mapped, those that are. */
  lemma {:induction false} CountVoucherNets(items: seq<CountedItem>, gainAndLoss: Account, consumption: Option<Account>,
                                            a: Account)
    ensures Net(CountVoucher(items, gainAndLoss, consumption), a)
         == DifferencesOn(items, a)
            - (if a == gainAndLoss then TotalDifference(items, false) else 0.0)
            - (if consumption == Some(a) then TotalDifference(items, true) else 0.0)
  {
    var total, consumed := TotalDifference(items, false), TotalDifference(items, true);
    var g := SignedLines(Regroup(CountEntries(items)));
    var closed := g + [SignedLine(gainAndLoss, total, CR)];
    assert Net(closed, a) == DifferencesOn(items, a) - (if a == gainAndLoss then total else 0.0) by {
      InventoryPart(items, a);
      ClosingLine(g, gainAndLoss, total, a);
    }
    if consumed != 0.0 && consumption.Some? {
      ClosingLine(closed, consumption.value, consumed, a);
    } else {
      assert closed + [] == closed;
    }
  }

  /** One item found to be worth x more than what was on hand, in whole cents: its inventory account gains x,
      the gain-and-loss account, or for consumption the consumption account, carries it, and the other of
      the two nothing. */
  lemma {:induction false} OneItemCounted(i: CountedItem, inventory: Account, gainAndLoss: Account,
                                          consumption: Account)
    requires i.account == Some(inventory) && i.differentialCountValue == Abs(Revalued(i))
    requires OnGrid(i.countValue, Cents) && OnGrid(i.onHandCountValue, Cents)
    requires inventory != gainAndLoss && inventory != consumption && gainAndLoss != consumption
    ensures var v, x := CountVoucher([i], gainAndLoss, Some(consumption)), i.countValue - i.onHandCountValue;
      && Net(v, inventory) == x
      && Net(v, gainAndLoss) == (if i.isConsumption then 0.0 else -x)
      && Net(v, consumption) == (if i.isConsumption then -x else 0.0)
  {
    var items := [i];
    assert items[..0] == [];
    DifferenceMeans(i);
    RoundFixed(i.countValue, Cents);
    RoundFixed(i.onHandCountValue, Cents);
    GridAdd(i.countValue, i.onHandCountValue, Cents);
    CentsAreMills(Revalued(i));
    RoundFixed(Revalued(i), Mills);
    assert SignedDifference(i) == Revalued(i);
    CountVoucherNets(items, gainAndLoss, Some(consumption), inventory);
    CountVoucherNets(items, gainAndLoss, Some(consumption), gainAndLoss);
    CountVoucherNets(items, gainAndLoss, Some(consumption), consumption);
  }
}
