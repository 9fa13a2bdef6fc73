/** The handlers that turn a business document into voucher lines for the ledger. */
module VoucherBuilders {
  import opened Rounding
  import opened VoucherLines
  import opened VoucherPipeline
  import opened Valuation

  lemma {:induction false} ImbalanceSnoc(g: seq<Line>, l: Line)
    ensures Imbalance(g + [l]) == Imbalance(g) + (if l.side == DR then l.amount else -l.amount)
  {
    SideTotalSnoc(g, l, DR);
    SideTotalSnoc(g, l, CR);
  }

  /** What the ledger makes of untaxed lines without negative amounts: refused only when the total rounds
      to zero, every net kept. */
  lemma {:induction false} LedgerKeepsNets(lines: seq<Line>, tb: TaxBook, a: Account)
    requires NoneNegative(lines) && Untaxed(lines) && Imbalance(lines) == 0.0
    ensures Prepare(lines, tb).Accepted? <==> Round(SideTotal(lines, DR), Cents) != 0.0
    ensures Prepare(lines, tb).Accepted? ==> Net(Prepare(lines, tb).stored, a) == Net(lines, a)
  {
    BalancedAccepted(lines, tb);
    forall s ensures KeyTotal(Regroup(Positive(lines)), Key(a, s)) == KeyTotal(lines, Key(a, s)) {
      PositiveTotals(lines, Key(a, s), s);
      RegroupConserves(Positive(lines), Key(a, s), s);
    }
  }

  // ----- pairs grouped by account and side: recipe goods issue, asset depreciation -----

  /** A debit account, a credit account and an amount. */
  datatype Posting = Posting(debit: Account, credit: Account, amount: real)

  function PairLines(ps: seq<Posting>): (r: seq<Line>)
    ensures Untaxed(r)
  {
    if ps == [] then []
    else
      var p := ps[|ps| - 1];
      PairLines(ps[..|ps| - 1])
      + [Line(p.debit, DR, Round(p.amount, Mills), None)] + [Line(p.credit, CR, Round(p.amount, Mills), None)]
  }

  function PairVoucher(ps: seq<Posting>): seq<Line> {
    Regroup(PairLines(ps))
  }

  predicate NoNegativePosting(ps: seq<Posting>) {
    forall i :: 0 <= i < |ps| ==> ps[i].amount >= 0.0
  }

  lemma {:induction false} PairLinesBalance(ps: seq<Posting>)
    ensures Imbalance(PairLines(ps)) == 0.0
    ensures NoNegativePosting(ps) ==> NoneNegative(PairLines(ps))
  {
    if ps != [] {
      var rest, p := ps[..|ps| - 1], ps[|ps| - 1];
      PairLinesBalance(rest);
      var d, c := Line(p.debit, DR, Round(p.amount, Mills), None), Line(p.credit, CR, Round(p.amount, Mills), None);
      ImbalanceSnoc(PairLines(rest), d);
      ImbalanceSnoc(PairLines(rest) + [d], c);
      if NoNegativePosting(ps) {
        GridZero(Mills);
        RoundMonotone(0.0, p.amount, Mills);
      }
    }
  }

  lemma {:induction false} RegroupKeepsSigns(lines: seq<Line>)
    requires NoneNegative(lines)
    ensures NoneNegative(Regroup(lines))
  {
    if lines != [] {
      RegroupKeepsSigns(lines[..|lines| - 1]);
    }
  }

  lemma {:induction false} RegroupUntaxed(lines: seq<Line>)
    requires Untaxed(lines)
    ensures Untaxed(Regroup(lines))
  {
    if lines != [] {
      RegroupUntaxed(lines[..|lines| - 1]);
    }
  }

  lemma {:induction false} PositiveDistinct(lines: seq<Line>)
    requires DistinctKeys(lines)
    ensures DistinctKeys(Positive(lines))
    ensures forall i :: 0 <= i < |Positive(lines)| ==> Positive(lines)[i] in lines
  {
    if lines != [] {
      var rest, l := lines[..|lines| - 1], lines[|lines| - 1];
      PositiveDistinct(rest);
      forall i | 0 <= i < |Positive(rest)| ensures Positive(rest)[i].Key() != l.Key() {
        var j :| 0 <= j < |rest| && rest[j] == Positive(rest)[i];
        assert lines[j].Key() != l.Key();
      }
    }
  }

  /** Grouped lines of a balanced list without negative amounts: the ledger's own grouping leaves them as
      they are, and refuses them only when the total rounds to zero. */
  lemma {:induction false} GroupedAccepted(lines: seq<Line>, tb: TaxBook)
    requires NoneNegative(lines) && Untaxed(lines) && Imbalance(lines) == 0.0
    ensures Prepare(Regroup(lines), tb).Accepted? <==> Round(SideTotal(lines, DR), Cents) != 0.0
    ensures Prepare(Regroup(lines), tb).Accepted? ==> Prepare(Regroup(lines), tb).stored == Positive(Regroup(lines))
  {
    var g := Regroup(lines);
    RegroupConserves(lines, Key(0, DR), DR);
    RegroupConserves(lines, Key(0, DR), CR);
    RegroupKeepsSigns(lines);
    RegroupUntaxed(lines);
    BalancedAccepted(g, tb);
    RegroupHasDistinctKeys(lines);
    PositiveDistinct(g);
    RegroupDistinct(Positive(g));
  }

  /** The lines the ledger's filter drops. */
  function NotPositive(lines: seq<Line>): seq<Line> {
    if lines == [] then []
    else NotPositive(lines[..|lines| - 1]) + (if lines[|lines| - 1].amount > 0.0 then [] else [lines[|lines| - 1]])
  }

  lemma {:induction false} DroppedTotals(lines: seq<Line>, s: Side)
    ensures SideTotal(Positive(lines), s) == SideTotal(lines, s) - SideTotal(NotPositive(lines), s)
  {
    if lines != [] {
      var rest, l := lines[..|lines| - 1], lines[|lines| - 1];
      DroppedTotals(rest, s);
      if l.amount > 0.0 {
        SideTotalSnoc(Positive(rest), l, s);
        assert NotPositive(rest) + [] == NotPositive(rest);
      } else {
        SideTotalSnoc(NotPositive(rest), l, s);
        assert Positive(rest) + [] == Positive(rest);
      }
    }
  }

  /** Dropping lines that are zero anyway changes no total. */
  lemma {:induction false} NothingDropped(lines: seq<Line>, s: Side)
    requires NoneNegative(lines)
    ensures SideTotal(NotPositive(lines), s) == 0.0
  {
    PositiveTotals(lines, Key(0, s), s);
    DroppedTotals(lines, s);
  }

  /** Untaxed lines, one to a key: the ledger compares the roundings of what its filter leaves, and stores
      that. */
  lemma {:induction false} EntriesAccepted(v: seq<Line>, tb: TaxBook)
    requires Untaxed(v) && DistinctKeys(v)
    ensures Prepare(v, tb).Accepted?
       <==> Round(SideTotal(Positive(v), DR), Cents) == Round(SideTotal(Positive(v), CR), Cents) != 0.0
    ensures Prepare(v, tb).Accepted? ==> Prepare(v, tb).stored == Positive(v)
  {
    PositiveUntaxed(v);
    assert LookupsOk(Positive(v), tb);
    PositiveDistinct(v);
    RegroupDistinct(Positive(v));
    SplitNothing(Positive(v), tb);
  }

  /** Paired builders balance exactly for every list. What the ledger's filter leaves is out of balance by
      the groups it drops, those that are not positive; it accepts the rest exactly when the two totals
      still round alike and not to zero, and stores it as it is. Without negative amounts nothing is
      dropped, and it refuses only when the total rounds to zero. */
  lemma {:induction false} PairVoucherAccepted(ps: seq<Posting>, tb: TaxBook)
    ensures Imbalance(PairVoucher(ps)) == 0.0
    ensures var v, total := PairVoucher(ps), SideTotal(PairLines(ps), DR);
            var debit, credit := total - SideTotal(NotPositive(v), DR), total - SideTotal(NotPositive(v), CR);
      && Imbalance(Positive(v)) == -Imbalance(NotPositive(v))
      && (Prepare(v, tb).Accepted? <==> Round(debit, Cents) == Round(credit, Cents) != 0.0)
      && (Prepare(v, tb).Accepted? ==> Prepare(v, tb).stored == Positive(v))
      && (NoNegativePosting(ps) ==> (Prepare(v, tb).Accepted? <==> Round(total, Cents) != 0.0))
  {
    var v := PairVoucher(ps);
    PairLinesBalance(ps);
    forall s ensures SideTotal(v, s) == SideTotal(PairLines(ps), s)
             ensures SideTotal(Positive(v), s) == SideTotal(v, s) - SideTotal(NotPositive(v), s) {
      RegroupConserves(PairLines(ps), Key(0, s), s);
      DroppedTotals(v, s);
    }
    RegroupUntaxed(PairLines(ps));
    RegroupHasDistinctKeys(PairLines(ps));
    EntriesAccepted(v, tb);
    if NoNegativePosting(ps) {
      RegroupKeepsSigns(PairLines(ps));
      NothingDropped(v, DR);
      NothingDropped(v, CR);
    }
  }

  /** Of two postings on different debit accounts against one credit account, x and -y in whole cents with
      0 < y < x, such as 5 and -2, the ledger drops the second debit and refuses the rest. */
  lemma {:induction false} NegativePostingIsRefused(ps: seq<Posting>, x: real, y: real, tb: TaxBook)
    requires |ps| == 2 && ps[0].debit != ps[1].debit && ps[0].credit == ps[1].credit
    requires ps[0].amount == x && ps[1].amount == -y && 0.0 < y < x && OnGrid(x, Cents) && OnGrid(y, Cents)
    ensures Imbalance(PairVoucher(ps)) == 0.0 && Prepare(PairVoucher(ps), tb).Refused?
  {
    var d0, c0 := Line(ps[0].debit, DR, x, None), Line(ps[0].credit, CR, x, None);
    var d1, c1 := Line(ps[1].debit, DR, -y, None), Line(ps[1].credit, CR, -y, None);
    assert PairLines(ps) == [d0] + [c0] + [d1] + [c1] by {
      GridAdd(x, y, Cents);
      CentsAreMills(x);
      CentsAreMills(-y);
      RoundFixed(x, Mills);
      RoundFixed(-y, Mills);
      PairLinesOfTwo(ps);
    }
    var v := [d0] + [c0.(amount := x - y)] + [d1];
    assert PairVoucher(ps) == v by { TwoPairs(d0, c0, d1, c1); }
    assert Imbalance(v) == 0.0 by { PairVoucherAccepted(ps, tb); }
    assert Prepare(v, tb).Refused? by {
      GridAdd(x, y, Cents);
      ThreeEntriesRefused(d0, c0.(amount := x - y), d1, tb);
    }
  }

  lemma {:induction false} PairLinesOfTwo(ps: seq<Posting>)
    requires |ps| == 2
    ensures PairLines(ps) == [Line(ps[0].debit, DR, Round(ps[0].amount, Mills), None)]
                             + [Line(ps[0].credit, CR, Round(ps[0].amount, Mills), None)]
                             + [Line(ps[1].debit, DR, Round(ps[1].amount, Mills), None)]
                             + [Line(ps[1].credit, CR, Round(ps[1].amount, Mills), None)]
  {
    assert ps[..1][..0] == [];
    assert PairLines(ps[..1]) == [Line(ps[0].debit, DR, Round(ps[0].amount, Mills), None)]
                                 + [Line(ps[0].credit, CR, Round(ps[0].amount, Mills), None)];
  }

  /** Two debits against the same credit account: the credits are merged, by either kind of key. */
  lemma {:induction false} TwoPairs(d0: Line, c0: Line, d1: Line, c1: Line)
    requires d0.side == d1.side == DR && c0.side == c1.side == CR && d0.account != d1.account
               && c0.account == c1.account
    requires d0.tax.None? && c0.tax.None? && d1.tax.None? && c1.tax.None?
    ensures Regroup([d0] + [c0] + [d1] + [c1]) == [d0] + [c0.(amount := c0.amount + c1.amount)] + [d1]
    ensures c0.account != d0.account && c0.account != d1.account ==>
              Keyed([d0] + [c0] + [d1] + [c1]) == Regroup([d0] + [c0] + [d1] + [c1])
  {
    var g, all := [d0] + [c0] + [d1], [d0] + [c0] + [d1] + [c1];
    RegroupDistinct(g);
    RegroupStep(g, c1);
    assert g[0] == d0 && g[1] == c0 && g[2] == d1 && Find(g, c1.Key()) == 1;
    if c0.account != d0.account && c0.account != d1.account {
      forall a ensures !HasKey(all, Key(a, DR)) || !HasKey(all, Key(a, CR)) {
        assert forall i :: 0 <= i < 4 ==> all[i] == d0 || all[i] == c0 || all[i] == d1 || all[i] == c1;
      }
      OneSidedIsRegroup(all);
    }
  }

  lemma {:induction false} RegroupStep(lines: seq<Line>, l: Line)
    ensures Regroup(lines + [l]) == AddToGroup(Regroup(lines), l)
  {
    assert (lines + [l])[..|lines|] == lines;
  }

  /** A debit, a smaller credit and a negative debit for the difference balance and are refused. */
  lemma {:induction false} ThreeEntriesRefused(d: Line, c: Line, n: Line, tb: TaxBook)
    requires d.side == n.side == DR && c.side == CR && n.amount == c.amount - d.amount < 0.0 < c.amount
    requires OnGrid(d.amount, Cents) && OnGrid(c.amount, Cents)
    requires d.tax.None? && c.tax.None? && n.tax.None? && d.account != n.account
    ensures Prepare([d] + [c] + [n], tb).Refused?
  {
    var v := [d] + [c] + [n];
    PositiveStep([], d);
    PositiveStep([d], c);
    PositiveStep([d] + [c], n);
    assert [] + [d] == [d];
    SideTotalSnoc([], d, DR);
    SideTotalSnoc([d], c, DR);
    SideTotalSnoc([], d, CR);
    SideTotalSnoc([d], c, CR);
    RoundFixed(d.amount, Cents);
    RoundFixed(c.amount, Cents);
    EntriesAccepted(v, tb);
  }

  lemma {:induction false} PositiveStep(lines: seq<Line>, l: Line)
    ensures Positive(lines + [l]) == if l.amount > 0.0 then Positive(lines) + [l] else Positive(lines)
  {
    assert (lines + [l])[..|lines|] == lines;
  }

  /** The builder's loop: two lines per document line, then the `reduce` by account and side. */
  method BuildPairs(ps: seq<Posting>) returns (items: seq<Line>)
    ensures items == PairVoucher(ps)
  {
    var tempItem: seq<Line> := [];
    for i := 0 to |ps|
      invariant tempItem == PairLines(ps[..i])
    {
      assert ps[..i + 1][..i] == ps[..i];
      tempItem := tempItem + [Line(ps[i].debit, DR, Round(ps[i].amount, Mills), None)];
      tempItem := tempItem + [Line(ps[i].credit, CR, Round(ps[i].amount, Mills), None)];
    }
    assert ps[..|ps|] == ps;
    items := MergeLines(tempItem);
  }

  // ----- entries keyed by account alone: goods receipt -----

  /** A received line with its material's inventory and goods-received-invoice-received accounts. */
  datatype ReceivedLine = ReceivedLine(inventory: Account, grir: Account, netPrice: real, stock: real) {
    function Amount(): real {
      Round(Value(netPrice, stock), Cents)
    }
  }

  function FindAccount(g: seq<Line>, a: Account): (i: nat)
    ensures i <= |g|
    ensures i < |g| ==> g[i].account == a
    ensures forall j :: 0 <= j < i ==> g[j].account != a
  {
    if g == [] then 0 else if g[0].account == a then 0 else 1 + FindAccount(g[1..], a)
  }

  /** The entry of an account takes the side it was opened with and keeps it. */
  function AddKeyed(g: seq<Line>, a: Account, s: Side, amount: real): seq<Line> {
    var i := FindAccount(g, a);
    if i < |g| then g[i := g[i].(amount := g[i].amount + amount)] else g + [Line(a, s, amount, None)]
  }

  function Keyed(lines: seq<Line>): seq<Line> {
    if lines == [] then []
    else
      var l := lines[|lines| - 1];
      AddKeyed(Keyed(lines[..|lines| - 1]), l.account, l.side, l.amount)
  }

  /** The amounts as they are added: each line's inventory account on the goods side, its GRIR account
      opposite. */
  function ReceiptLines(items: seq<ReceivedLine>, isReturn: bool): (r: seq<Line>)
    ensures Untaxed(r)
  {
    if items == [] then []
    else
      var i := items[|items| - 1];
      ReceiptLines(items[..|items| - 1], isReturn)
      + [Line(i.inventory, if isReturn then CR else DR, i.Amount(), None)]
          + [Line(i.grir, if isReturn then DR else CR, i.Amount(), None)]
  }

  /** No inventory account of the receipt is also one of its GRIR accounts. */
  predicate Disjoint(items: seq<ReceivedLine>) {
    forall i, j :: 0 <= i < |items| && 0 <= j < |items| ==> items[i].inventory != items[j].grir
  }

  /** Every account is used on one side only. */
  ghost predicate OneSided(lines: seq<Line>) {
    forall a :: !HasKey(lines, Key(a, DR)) || !HasKey(lines, Key(a, CR))
  }

  predicate OneEntryEach(g: seq<Line>) {
    forall i, j :: 0 <= i < j < |g| ==> g[i].account != g[j].account
  }

  lemma {:induction false} KeyedOneEntryEach(lines: seq<Line>)
    ensures OneEntryEach(Keyed(lines))
  {
    if lines != [] {
      KeyedOneEntryEach(lines[..|lines| - 1]);
    }
  }

  lemma {:induction false} FindsAgree(g: seq<Line>, l: Line)
    requires forall j :: 0 <= j < |g| && g[j].account == l.account ==> g[j].side == l.side
    ensures FindAccount(g, l.account) == Find(g, l.Key())
  {
  }

  lemma {:induction false} OneSidedGroups(lines: seq<Line>, l: Line)
    requires OneSided(lines + [l])
    ensures OneSided(lines)
    ensures forall j :: 0 <= j < |Regroup(lines)| && Regroup(lines)[j].account == l.account
              ==> Regroup(lines)[j].side == l.side
  {
    var all := lines + [l];
    forall k | HasKey(lines, k) ensures HasKey(all, k) {
      var p :| 0 <= p < |lines| && lines[p].Key() == k;
      assert all[p].Key() == k;
    }
    assert all[|lines|].Key() == l.Key();
    forall j | 0 <= j < |Regroup(lines)| && Regroup(lines)[j].account == l.account
      ensures Regroup(lines)[j].side == l.side
    {
      RegroupKeys(lines, Regroup(lines)[j].Key());
      assert HasKey(all, Regroup(lines)[j].Key()) && HasKey(all, l.Key());
    }
  }

  lemma {:induction false} OneSidedIsRegroup(lines: seq<Line>)
    requires Untaxed(lines) && OneSided(lines)
    ensures Keyed(lines) == Regroup(lines)
  {
    if lines != [] {
      var rest, l := lines[..|lines| - 1], lines[|lines| - 1];
      assert rest + [l] == lines;
      OneSidedGroups(rest, l);
      OneSidedIsRegroup(rest);
      FindsAgree(Regroup(rest), l);
    }
  }

  lemma {:induction false} BothSidesTwoEntries(g: seq<Line>, a: Account)
    requires HasKey(g, Key(a, DR)) && HasKey(g, Key(a, CR))
    ensures !OneEntryEach(g)
  {
    var i :| 0 <= i < |g| && g[i].Key() == Key(a, DR);
    var j :| 0 <= j < |g| && g[j].Key() == Key(a, CR);
    var low, high := if i < j then i else j, if i < j then j else i;
    assert g[low].account == g[high].account;
  }

  /** Keying by account alone groups like keying by account and side exactly when every account is used
      on one side only. */
  lemma {:induction false} KeyedIsRegroup(lines: seq<Line>)
    requires Untaxed(lines)
    ensures Keyed(lines) == Regroup(lines) <==> OneSided(lines)
  {
    if OneSided(lines) {
      OneSidedIsRegroup(lines);
    } else {
      var a :| HasKey(lines, Key(a, DR)) && HasKey(lines, Key(a, CR));
      RegroupKeys(lines, Key(a, DR));
      RegroupKeys(lines, Key(a, CR));
      BothSidesTwoEntries(Regroup(lines), a);
      KeyedOneEntryEach(lines);
    }
  }

  lemma {:induction false} ReceiptLinesAt(items: seq<ReceivedLine>, isReturn: bool, p: nat)
    requires p < |ReceiptLines(items, isReturn)|
    ensures |ReceiptLines(items, isReturn)| == 2 * |items|
    ensures var l, i := ReceiptLines(items, isReturn)[p], items[p / 2];
            l == if p % 2 == 0 then Line(i.inventory, if isReturn then CR else DR, i.Amount(), None)
                 else Line(i.grir, if isReturn then DR else CR, i.Amount(), None)
  {
    var rest := items[..|items| - 1];
    if rest != [] {
      ReceiptLinesAt(rest, isReturn, if p < |ReceiptLines(rest, isReturn)| then p else 0);
    }
  }

  lemma {:induction false} DisjointIsOneSided(items: seq<ReceivedLine>, isReturn: bool)
    requires Disjoint(items)
    ensures OneSided(ReceiptLines(items, isReturn))
  {
    var lines := ReceiptLines(items, isReturn);
    forall a | HasKey(lines, Key(a, DR)) && HasKey(lines, Key(a, CR)) ensures false {
      var p :| 0 <= p < |lines| && lines[p].Key() == Key(a, DR);
      var q :| 0 <= q < |lines| && lines[q].Key() == Key(a, CR);
      ReceiptLinesAt(items, isReturn, p);
      ReceiptLinesAt(items, isReturn, q);
    }
  }

  lemma {:induction false} ReceiptLinesBalance(items: seq<ReceivedLine>, isReturn: bool)
    ensures Imbalance(ReceiptLines(items, isReturn)) == 0.0
    ensures NoNegativeReceipt(items) ==> NoneNegative(ReceiptLines(items, isReturn))
  {
    if items != [] {
      var rest, i := items[..|items| - 1], items[|items| - 1];
      ReceiptLinesBalance(rest, isReturn);
      var l0 := Line(i.inventory, if isReturn then CR else DR, i.Amount(), None);
      ImbalanceSnoc(ReceiptLines(rest, isReturn), l0);
      ImbalanceSnoc(ReceiptLines(rest, isReturn) + [l0], Line(i.grir, if isReturn then DR else CR, i.Amount(), None));
    }
  }

  predicate NoNegativeReceipt(items: seq<ReceivedLine>) {
    forall i :: 0 <= i < |items| ==> items[i].Amount() >= 0.0
  }

  /** The side an account was first used on. */
  function OpenedOn(lines: seq<Line>, a: Account): Option<Side> {
    if lines == [] then None
    else if OpenedOn(lines[..|lines| - 1], a).Some? then OpenedOn(lines[..|lines| - 1], a)
    else if lines[|lines| - 1].account == a then Some(lines[|lines| - 1].side)
    else None
  }

  /** Amounts that come to an account on the side opposite to the one it was first used on, debits of the
      entry they stray to less credits. */
  function Strayed(lines: seq<Line>): real {
    if lines == [] then 0.0
    else
      var rest, l := lines[..|lines| - 1], lines[|lines| - 1];
      Strayed(rest)
      + (if OpenedOn(rest, l.account) != Some(l.side.Flip()) then 0.0 else if l.side == CR then l.amount else -l.amount)
  }

  /** An account has an entry exactly when a line used it, on the side of the first such line. */
  lemma {:induction false} KeyedOpens(lines: seq<Line>, a: Account)
    ensures var g, i := Keyed(lines), FindAccount(Keyed(lines), a);
            OpenedOn(lines, a) == if i < |g| then Some(g[i].side) else None
  {
    if lines != [] {
      var rest, l := lines[..|lines| - 1], lines[|lines| - 1];
      KeyedOpens(rest, a);
      KeyedOpens(rest, l.account);
      AddKeyedFinds(Keyed(rest), l, a);
    }
  }

  lemma {:induction false} AddKeyedFinds(g: seq<Line>, l: Line, a: Account)
    ensures var h := AddKeyed(g, l.account, l.side, l.amount);
            var i, j := FindAccount(g, a), FindAccount(h, a);
      && (i < |g| ==> j == i && h[j].side == g[i].side)
      && (i == |g| ==> if a == l.account then j == i < |h| && h[j].side == l.side else j == |h|)
  {
    var h := AddKeyed(g, l.account, l.side, l.amount);
    assert forall k :: 0 <= k < |g| ==> h[k].account == g[k].account && h[k].side == g[k].side;
    if FindAccount(g, l.account) == |g| {
      assert h[|g|].account == l.account && h[|g|].side == l.side;
    }
  }

  lemma {:induction false} ImbalanceUpdate(g: seq<Line>, i: nat, x: real)
    requires i < |g|
    ensures Imbalance(g[i := g[i].(amount := g[i].amount + x)]) == Imbalance(g) + (if g[i].side == DR then x else -x)
  {
    SideTotalUpdate(g, i, x, DR);
    SideTotalUpdate(g, i, x, CR);
  }

  /** The keyed entries are off the lines' own balance by exactly twice what strayed. */
  lemma {:induction false} KeyedImbalance(lines: seq<Line>)
    requires Untaxed(lines)
    ensures Imbalance(Keyed(lines)) == Imbalance(lines) + 2.0 * Strayed(lines)
  {
    if lines != [] {
      var rest, l := lines[..|lines| - 1], lines[|lines| - 1];
      var g := Keyed(rest);
      var i := FindAccount(g, l.account);
      KeyedImbalance(rest);
      KeyedOpens(rest, l.account);
      ImbalanceSnoc(rest, l);
      assert rest + [l] == lines;
      if i < |g| {
        ImbalanceUpdate(g, i, l.amount);
      } else {
        ImbalanceSnoc(g, l);
        assert AddKeyed(g, l.account, l.side, l.amount) == g + [l];
      }
    }
  }

  ghost predicate CentEntries(lines: seq<Line>) {
    forall i :: 0 <= i < |lines| ==> OnGrid(lines[i].amount, Cents)
  }

  lemma {:induction false} CentTotals(lines: seq<Line>, s: Side)
    requires CentEntries(lines)
    ensures OnGrid(SideTotal(lines, s), Cents)
  {
    GridZero(Cents);
    if lines != [] {
      CentTotals(lines[..|lines| - 1], s);
      GridAdd(SideTotal(lines[..|lines| - 1], s), lines[|lines| - 1].amount, Cents);
    }
  }

  lemma {:induction false} KeyedEntries(lines: seq<Line>)
    requires CentEntries(lines)
    ensures CentEntries(Keyed(lines)) && Untaxed(Keyed(lines))
    ensures NoneNegative(lines) ==> NoneNegative(Keyed(lines))
    ensures DistinctKeys(Keyed(lines))
  {
    if lines != [] {
      var rest, l := lines[..|lines| - 1], lines[|lines| - 1];
      var g := Keyed(rest);
      var i := FindAccount(g, l.account);
      KeyedEntries(rest);
      if i < |g| {
        GridAdd(g[i].amount, l.amount, Cents);
      }
    }
    KeyedOneEntryEach(lines);
  }

  lemma {:induction false} ReceiptCents(items: seq<ReceivedLine>, isReturn: bool)
    ensures CentEntries(ReceiptLines(items, isReturn))
  {
    if items != [] {
      var i := items[|items| - 1];
      ReceiptCents(items[..|items| - 1], isReturn);
      RoundNear(Value(i.netPrice, i.stock), Cents);
    }
  }

  /** A goods-receipt or return voucher balances exactly when what strays between the sides of shared
      accounts cancels out. The ledger accepts it, whatever the signs, exactly when what strays makes up
      for the imbalance of the entries its filter drops and what is left is not zero; it then stores the
      rest as it is. Without negative amounts nothing is dropped. */
  lemma {:induction false} ReceiptVoucherAccepted(items: seq<ReceivedLine>, isReturn: bool, tb: TaxBook)
    ensures var lines := ReceiptLines(items, isReturn);
            var v := Keyed(lines);
      && Imbalance(v) == 2.0 * Strayed(lines)
      && Imbalance(Positive(v)) == 2.0 * Strayed(lines) - Imbalance(NotPositive(v))
      && (Prepare(v, tb).Accepted?
          <==> 2.0 * Strayed(lines) == Imbalance(NotPositive(v)) && SideTotal(Positive(v), DR) != 0.0)
      && (Prepare(v, tb).Accepted? ==> Prepare(v, tb).stored == Positive(v))
      && (NoNegativeReceipt(items) ==>
            (Prepare(v, tb).Accepted? <==> Strayed(lines) == 0.0 && SideTotal(v, DR) != 0.0))
  {
    var lines := ReceiptLines(items, isReturn);
    var v := Keyed(lines);
    ReceiptLinesBalance(items, isReturn);
    KeyedImbalance(lines);
    ReceiptCents(items, isReturn);
    KeyedEntries(lines);
    CentVoucherAccepted(v, tb);
    DroppedTotals(v, DR);
    DroppedTotals(v, CR);
    if NoNegativeReceipt(items) {
      NothingDropped(v, DR);
      NothingDropped(v, CR);
    }
  }

  /** Entries in whole cents, one to a key: the ledger accepts them exactly when the positive ones balance
      and do not sum to zero. */
  lemma {:induction false} CentVoucherAccepted(v: seq<Line>, tb: TaxBook)
    requires CentEntries(v) && Untaxed(v) && DistinctKeys(v)
    ensures Prepare(v, tb).Accepted? <==> Imbalance(Positive(v)) == 0.0 && SideTotal(Positive(v), DR) != 0.0
    ensures Prepare(v, tb).Accepted? ==> Prepare(v, tb).stored == Positive(v)
  {
    PositiveCents(v);
    forall s ensures Round(SideTotal(Positive(v), s), Cents) == SideTotal(Positive(v), s) {
      CentTotals(Positive(v), s);
      RoundFixed(SideTotal(Positive(v), s), Cents);
    }
    EntriesAccepted(v, tb);
  }

  lemma {:induction false} PositiveCents(lines: seq<Line>)
    requires CentEntries(lines)
    ensures CentEntries(Positive(lines))
  {
    if lines != [] {
      PositiveCents(lines[..|lines| - 1]);
    }
  }

  /** When no amount is positive nothing is left to post. */
  lemma {:induction false} NothingPositiveIsRefused(items: seq<ReceivedLine>, isReturn: bool, tb: TaxBook)
    requires forall i :: 0 <= i < |items| ==> items[i].Amount() <= 0.0
    ensures Positive(Keyed(ReceiptLines(items, isReturn))) == []
    ensures Prepare(Keyed(ReceiptLines(items, isReturn)), tb) == Refused(ZeroTotal)
  {
    ReceiptBelowZero(items, isReturn);
    KeyedBelowZero(ReceiptLines(items, isReturn));
    NonePositive(Keyed(ReceiptLines(items, isReturn)));
    GridZero(Cents);
  }

  predicate AllBelow(lines: seq<Line>) {
    forall i :: 0 <= i < |lines| ==> lines[i].amount <= 0.0
  }

  lemma {:induction false} ReceiptBelowZero(items: seq<ReceivedLine>, isReturn: bool)
    requires forall i :: 0 <= i < |items| ==> items[i].Amount() <= 0.0
    ensures AllBelow(ReceiptLines(items, isReturn))
  {
    if items != [] {
      ReceiptBelowZero(items[..|items| - 1], isReturn);
    }
  }

  lemma {:induction false} KeyedBelowZero(lines: seq<Line>)
    requires AllBelow(lines)
    ensures AllBelow(Keyed(lines))
  {
    if lines != [] {
      KeyedBelowZero(lines[..|lines| - 1]);
    }
  }

  lemma {:induction false} NonePositive(lines: seq<Line>)
    requires AllBelow(lines)
    ensures Positive(lines) == []
  {
    if lines != [] {
      NonePositive(lines[..|lines| - 1]);
    }
  }

  /** Of x and -y received on two inventory accounts against one GRIR account, in whole cents with
      0 < y < x, such as 5 and -2, nothing strays, and the ledger refuses the voucher. */
  lemma {:induction false} NegativeReceiptIsRefused(items: seq<ReceivedLine>, x: real, y: real, tb: TaxBook)
    requires |items| == 2 && items[0].inventory != items[1].inventory && items[0].grir == items[1].grir
               && Disjoint(items)
    requires items[0].Amount() == x && items[1].Amount() == -y && 0.0 < y < x
    ensures Strayed(ReceiptLines(items, false)) == 0.0
    ensures Prepare(Keyed(ReceiptLines(items, false)), tb).Refused?
  {
    ReceiptGrid(items[0]);
    ReceiptGrid(items[1]);
    GridAdd(x, -y, Cents);
    DisjointNothingStrays(items, false);
    var d0, c0 := Line(items[0].inventory, DR, x, None), Line(items[0].grir, CR, x, None);
    var d1, c1 := Line(items[1].inventory, DR, -y, None), Line(items[1].grir, CR, -y, None);
    assert items[..1][..0] == [];
    assert ReceiptLines(items[..1], false) == [d0] + [c0];
    assert ReceiptLines(items, false) == [d0] + [c0] + [d1] + [c1];
    TwoPairs(d0, c0, d1, c1);
    ThreeEntriesRefused(d0, c0.(amount := x - y), d1, tb);
  }

  lemma {:induction false} ReceiptGrid(i: ReceivedLine)
    ensures OnGrid(i.Amount(), Cents)
  {
    RoundNear(Value(i.netPrice, i.stock), Cents);
  }

  /** Nothing strays when no account is used on both sides, as when inventory and GRIR accounts do not mix. */
  lemma {:induction false} OneSidedNothingStrays(lines: seq<Line>)
    requires OneSided(lines)
    ensures Strayed(lines) == 0.0
  {
    if lines != [] {
      var rest, l := lines[..|lines| - 1], lines[|lines| - 1];
      assert rest + [l] == lines;
      OneSidedGroups(rest, l);
      OneSidedNothingStrays(rest);
      OpenedHasKey(rest, l.account);
      assert lines[|rest|].Key() == l.Key();
      if OpenedOn(rest, l.account) == Some(l.side.Flip()) {
        var p :| 0 <= p < |rest| && rest[p].Key() == Key(l.account, l.side.Flip());
        assert lines[p] == rest[p];
        assert HasKey(lines, Key(l.account, l.side)) && HasKey(lines, Key(l.account, l.side.Flip()));
      }
    }
  }

  lemma {:induction false} OpenedHasKey(lines: seq<Line>, a: Account)
    ensures OpenedOn(lines, a).Some? ==> HasKey(lines, Key(a, OpenedOn(lines, a).value))
  {
    if lines != [] {
      var rest := lines[..|lines| - 1];
      OpenedHasKey(rest, a);
      if OpenedOn(rest, a).Some? {
        var p :| 0 <= p < |rest| && rest[p].Key() == Key(a, OpenedOn(rest, a).value);
        assert lines[p] == rest[p];
      } else if lines[|lines| - 1].account == a {
        assert lines[|lines| - 1].Key() == Key(a, lines[|lines| - 1].side);
      }
    }
  }

  lemma {:induction false} DisjointNothingStrays(items: seq<ReceivedLine>, isReturn: bool)
    requires Disjoint(items)
    ensures Strayed(ReceiptLines(items, isReturn)) == 0.0
  {
    DisjointIsOneSided(items, isReturn);
    OneSidedNothingStrays(ReceiptLines(items, isReturn));
  }

  /** When an inventory account doubles as a GRIR account the voucher need not balance: its entry keeps
      the side it was opened with. */
  lemma {:induction false} MixedAccountsUnbalance(items: seq<ReceivedLine>)
    requires items == [ReceivedLine(1, 2, 5.0, 1.0), ReceivedLine(2, 3, 5.0, 1.0)]
    ensures Imbalance(Keyed(ReceiptLines(items, false))) == -10.0
  {
    assert 5.0 == FromSteps(500, Cents);
    RoundFixed(5.0, Cents);
    assert items[..1] == [items[0]] && items[..1][..0] == [];
    var a, b, c, d := Line(1, DR, 5.0, None), Line(2, CR, 5.0, None), Line(2, DR, 5.0, None), Line(3, CR, 5.0, None);
    assert ReceiptLines(items[..1], false) == [a, b];
    var lines := ReceiptLines(items, false);
    assert lines == [a, b, c, d];
    assert lines[..3] == [a, b, c] && lines[..3][..2] == [a, b] && lines[..3][..2][..1] == [a];
    assert Keyed([a]) == [a] by { assert [a][..0] == []; }
    assert Keyed([a, b]) == [a, b] by { assert [a, b][..1] == [a]; }
    var b2 := Line(2, CR, 10.0, None);
    assert Keyed([a, b, c]) == [a, b2] by { assert [a, b, c][..2] == [a, b]; }
    assert Keyed(lines) == [a, b2] + [d] by { assert lines[..3] == [a, b, c]; }
    ImbalanceSnoc([], a);
    ImbalanceSnoc([a], b2);
    ImbalanceSnoc([a, b2], d);
    assert [] + [a] == [a] && [a] + [b2] == [a, b2];
  }

  /** The dictionary loop. */
  method BuildReceipt(items: seq<ReceivedLine>, isReturn: bool) returns (lines: seq<Line>)
    ensures lines == Keyed(ReceiptLines(items, isReturn))
  {
    lines := [];
    for n := 0 to |items|
      invariant lines == Keyed(ReceiptLines(items[..n], isReturn))
    {
      assert items[..n + 1][..n] == items[..n];
      var i := items[n];
      ghost var before := ReceiptLines(items[..n], isReturn);
      ghost var half := before + [Line(i.inventory, if isReturn then CR else DR, i.Amount(), None)];
      assert half[..|before|] == before;
      lines := AddKeyed(lines, i.inventory, if isReturn then CR else DR, Round(Value(i.netPrice, i.stock), Cents));
      ghost var whole := half + [Line(i.grir, if isReturn then DR else CR, i.Amount(), None)];
      assert whole[..|half|] == half;
      lines := AddKeyed(lines, i.grir, if isReturn then DR else CR, Round(Value(i.netPrice, i.stock), Cents));
    }
    assert items[..|items|] == items;
  }

  // ----- inventory count -----

  /** A counted item with the inventory account of its material, if mapped. */
  datatype CountedItem = CountedItem(account: Option<Account>, countValue: real, onHandCountValue: real,
                                     differentialCountValue: real, isConsumption: bool)

  /** The difference with its sign: gains positive, losses negative, none when the two values round alike
      or the material has no account. */
  function SignedDifference(i: CountedItem): real {
    if i.account.None? then 0.0
    else if Round(i.countValue, Cents) > Round(i.onHandCountValue, Cents) then i.differentialCountValue
    else if Round(i.countValue, Cents) < Round(i.onHandCountValue, Cents) then -i.differentialCountValue
    else 0.0
  }

  predicate Differs(i: CountedItem) {
    i.account.Some? && Round(i.countValue, Cents) != Round(i.onHandCountValue, Cents)
  }

  /** The signed inventory amounts, all under one side so that grouping adds them by account. */
  function CountEntries(items: seq<CountedItem>): (r: seq<Line>)
    ensures forall j :: 0 <= j < |r| ==> r[j].side == DR && r[j].tax.None?
  {
    if items == [] then []
    else
      var i := items[|items| - 1];
      CountEntries(items[..|items| - 1])
      + (if Differs(i) then [Line(i.account.value, DR, Round(SignedDifference(i), Mills), None)] else [])
  }

  function TotalDifference(items: seq<CountedItem>, consumption: bool): real {
    if items == [] then 0.0
    else
      var i := items[|items| - 1];
      TotalDifference(items[..|items| - 1], consumption)
          + (if i.isConsumption == consumption then SignedDifference(i) else 0.0)
  }

  /** A signed amount as a line: positive on one side, otherwise its absolute value on the other. */
  function SignedLine(a: Account, amount: real, positive: Side): Line {
    Line(a, if amount > 0.0 then positive else positive.Flip(), Abs(amount), None)
  }

  function SignedLines(g: seq<Line>): (r: seq<Line>)
    ensures |r| == |g|
    ensures Untaxed(r) && NoneNegative(r)
  {
    if g == [] then [] else SignedLines(g[..|g| - 1]) + [SignedLine(g[|g| - 1].account, g[|g| - 1].amount, DR)]
  }

  function CountVoucher(items: seq<CountedItem>, gainAndLoss: Account, consumption: Option<Account>): (r: seq<Line>)
    ensures Untaxed(r) && NoneNegative(r)
  {
    var total, consumed := TotalDifference(items, false), TotalDifference(items, true);
    SignedLines(Regroup(CountEntries(items)))
    + [SignedLine(gainAndLoss, total, CR)]
    + (if consumed != 0.0 && consumption.Some? then [SignedLine(consumption.value, consumed, CR)] else [])
  }

  lemma {:induction false} SignedLinesImbalance(g: seq<Line>)
    requires forall j :: 0 <= j < |g| ==> g[j].side == DR
    ensures Imbalance(SignedLines(g)) == SideTotal(g, DR)
  {
    if g != [] {
      var rest, l := g[..|g| - 1], g[|g| - 1];
      SignedLinesImbalance(rest);
      ImbalanceSnoc(SignedLines(rest), SignedLine(l.account, l.amount, DR));
    }
  }

  /** What rounding the inventory amounts adds. */
  function RoundingDrift(items: seq<CountedItem>): real {
    if items == [] then 0.0
    else
      var d := SignedDifference(items[|items| - 1]);
      RoundingDrift(items[..|items| - 1]) + (Round(d, Mills) - d)
  }

  lemma {:induction false} CountEntriesTotal(items: seq<CountedItem>)
    ensures SideTotal(CountEntries(items), DR)
              == TotalDifference(items, false) + TotalDifference(items, true) + RoundingDrift(items)
  {
    if items != [] {
      var rest, i := items[..|items| - 1], items[|items| - 1];
      CountEntriesTotal(rest);
      if Differs(i) {
        SideTotalSnoc(CountEntries(rest), Line(i.account.value, DR, Round(SignedDifference(i), Mills), None), DR);
      } else {
        GridZero(Mills);
        assert CountEntries(rest) + [] == CountEntries(rest);
      }
    }
  }

  lemma {:induction false} RegroupOneSide(lines: seq<Line>)
    requires forall j :: 0 <= j < |lines| ==> lines[j].side == DR
    ensures forall j :: 0 <= j < |Regroup(lines)| ==> Regroup(lines)[j].side == DR
  {
    if lines != [] {
      RegroupOneSide(lines[..|lines| - 1]);
    }
  }

  /** For any items the voucher is off by exactly the rounding drift, plus the consumption total when no
      account takes it. */
  lemma {:induction false} CountVoucherImbalance(items: seq<CountedItem>, gainAndLoss: Account,
                                                 consumption: Option<Account>)
    ensures Imbalance(CountVoucher(items, gainAndLoss, consumption))
         == RoundingDrift(items) + (if consumption.None? then TotalDifference(items, true) else 0.0)
  {
    var e := CountEntries(items);
    var total, consumed := TotalDifference(items, false), TotalDifference(items, true);
    CountEntriesTotal(items);
    RegroupConserves(e, Key(0, DR), DR);
    RegroupOneSide(e);
    SignedLinesImbalance(Regroup(e));
    var g := SignedLines(Regroup(e));
    ImbalanceSnoc(g, SignedLine(gainAndLoss, total, CR));
    if consumed != 0.0 && consumption.Some? {
      ImbalanceSnoc(g + [SignedLine(gainAndLoss, total, CR)], SignedLine(consumption.value, consumed, CR));
    } else {
      assert g + [SignedLine(gainAndLoss, total, CR)] + [] == g + [SignedLine(gainAndLoss, total, CR)];
    }
  }

  predicate OnMills(items: seq<CountedItem>) {
    forall i :: 0 <= i < |items| ==> Round(items[i].differentialCountValue, Mills) == items[i].differentialCountValue
  }

  lemma {:induction false} DriftBounded(items: seq<CountedItem>)
    ensures Abs(RoundingDrift(items)) <= 0.0005 * |items| as real
    ensures OnMills(items) ==> RoundingDrift(items) == 0.0
  {
    if items != [] {
      var rest, i := items[..|items| - 1], items[|items| - 1];
      DriftBounded(rest);
      RoundNear(SignedDifference(i), Mills);
      if OnMills(items) {
        assert OnMills(rest) by { assert forall j :: 0 <= j < |rest| ==> rest[j] == items[j]; }
        RoundOdd(i.differentialCountValue, Mills);
        GridZero(Mills);
      }
    }
  }

  /** With the consumption account mapped where needed the count voucher is within half a thousandth per
      item of balance. On the three-decimal grid it balances exactly if and only if the account is mapped
      where needed, and then the ledger refuses it only when its total rounds to zero. */
  lemma {:induction false} CountVoucherBalances(items: seq<CountedItem>, gainAndLoss: Account,
                                                consumption: Option<Account>, tb: TaxBook)
    ensures var v := CountVoucher(items, gainAndLoss, consumption);
            var mapped := consumption.Some? || TotalDifference(items, true) == 0.0;
      && (mapped ==> Abs(Imbalance(v)) <= 0.0005 * |items| as real)
      && (OnMills(items) ==> (Imbalance(v) == 0.0 <==> mapped))
      && (OnMills(items) && mapped ==> (Prepare(v, tb).Accepted? <==> Round(SideTotal(v, DR), Cents) != 0.0))
  {
    CountVoucherImbalance(items, gainAndLoss, consumption);
    DriftBounded(items);
    if OnMills(items) && (consumption.Some? || TotalDifference(items, true) == 0.0) {
      BalancedAccepted(CountVoucher(items, gainAndLoss, consumption), tb);
    }
  }

  /** The loop over the groups: the sign of an amount becomes the side of its line. */
  method ListGroups(result: seq<Line>) returns (items: seq<Line>)
    ensures items == SignedLines(result)
  {
    items := [];
    for j := 0 to |result|
      invariant items == SignedLines(result[..j])
    {
      assert result[..j + 1][..j] == result[..j];
      var el := result[j];
      items := items + [Line(el.account, if el.amount > 0.0 then DR else CR, Abs(el.amount), None)];
    }
    assert result[..|result|] == result;
  }

  /** The handler: collect signed amounts and totals, group by account, then add the two closing lines. */
  method HandleInventoryCount(counted: seq<CountedItem>, gainAndLoss: Account, consumption: Option<Account>)
      returns (items: seq<Line>)
    ensures items == CountVoucher(counted, gainAndLoss, consumption)
  {
    var glAccVal: seq<Line> := [];
    var totalAmount, totalConsumptionAmount := 0.0, 0.0;
    for n := 0 to |counted|
      invariant glAccVal == CountEntries(counted[..n])
      invariant totalAmount == TotalDifference(counted[..n], false)
      invariant totalConsumptionAmount == TotalDifference(counted[..n], true)
    {
      assert counted[..n + 1][..n] == counted[..n];
      var i := counted[n];
      if i.account.Some? {
        if Round(i.countValue, Cents) > Round(i.onHandCountValue, Cents) {
          glAccVal := glAccVal + [Line(i.account.value, DR, Round(i.differentialCountValue, Mills), None)];
          if i.isConsumption {
            totalConsumptionAmount := totalConsumptionAmount + i.differentialCountValue;
          } else {
            totalAmount := totalAmount + i.differentialCountValue;
          }
        } else if Round(i.countValue, Cents) < Round(i.onHandCountValue, Cents) {
          glAccVal := glAccVal + [Line(i.account.value, DR, Round(-i.differentialCountValue, Mills), None)];
          if i.isConsumption {
            totalConsumptionAmount := totalConsumptionAmount - i.differentialCountValue;
          } else {
            totalAmount := totalAmount - i.differentialCountValue;
          }
        }
      }
    }
    assert counted[..|counted|] == counted;
    var result := MergeLines(glAccVal);
    items := ListGroups(result);
    items := items + [Line(gainAndLoss, if totalAmount > 0.0 then CR else DR, Abs(totalAmount), None)];
    if totalConsumptionAmount != 0.0 && consumption.Some? {
      items := items + [Line(consumption.value, if totalConsumptionAmount > 0.0 then CR else DR,
                             Abs(totalConsumptionAmount), None)];
    }
  }
}
