/** Recording an expense: the lines are normalised to net, tax and gross, and the voucher built from them
    goes to the ledger. */
module Expenses {
  import opened Rounding
  import opened VoucherLines
  import opened VoucherPipeline
  import opened VoucherBuilders
  import opened Taxation

  /** A requested line; the tax may be absent. */
  datatype ExpenseLine = ExpenseLine(purpose: Account, gross: real, tax: Option<real>, indication: TaxIndication)

  datatype RecordedLine = RecordedLine(purpose: Account, net: real, tax: real, gross: real)

  /** One line normalised. A line whose price does not include tax keeps the tax it came with; when it
      came with none the sum of taxes is not a number and the expense cannot be stored. */
  function Normalise(l: ExpenseLine): Option<RecordedLine> {
    match l.indication
    case Included =>
      var net := Round(l.gross / GROSS_FACTOR, Cents);
      Some(RecordedLine(l.purpose, net, Round(l.gross - net, Cents), Round(l.gross, Cents)))
    case NotRelavant => Some(RecordedLine(l.purpose, Round(l.gross, Cents), 0.0, Round(l.gross, Cents)))
    case NotIncluded =>
      if l.tax.None? then None
      else Some(RecordedLine(l.purpose, Round(l.gross, Cents), l.tax.value, Round(l.gross + l.tax.value, Cents)))
  }

  predicate Storable(lines: seq<ExpenseLine>) {
    forall i :: 0 <= i < |lines| ==> Normalise(lines[i]).Some?
  }

  function NormaliseAll(lines: seq<ExpenseLine>): (r: seq<RecordedLine>)
    requires Storable(lines)
    ensures |r| == |lines|
    ensures forall i :: 0 <= i < |lines| ==> Some(r[i]) == Normalise(lines[i])
  {
    if lines == [] then [] else NormaliseAll(lines[..|lines| - 1]) + [Normalise(lines[|lines| - 1]).value]
  }

  datatype Part = Net | Tax | Gross

  function PartOf(i: RecordedLine, part: Part): real {
    match part
    case Net => i.net
    case Tax => i.tax
    case Gross => i.gross
  }

  /** A total of the expense. */
  function Sum(items: seq<RecordedLine>, part: Part): real {
    if items == [] then 0.0 else Sum(items[..|items| - 1], part) + PartOf(items[|items| - 1], part)
  }

  // ----- net plus tax is gross -----

  /** Rounding what is left after a nearest-cent net gives exactly the rounded gross less that net, for
      either sign. */
  lemma {:induction false} RemainderRounds(gross: real, net: real)
    requires net == Round(gross / GROSS_FACTOR, Cents)
    ensures net + Round(gross - net, Cents) == Round(gross, Cents)
  {
    if gross < 0.0 {
      RoundOdd(gross / GROSS_FACTOR, Cents);
      assert -(gross / GROSS_FACTOR) == -gross / GROSS_FACTOR;
      RemainderOfPositive(-gross, -net);
      RoundOdd(gross - net, Cents);
      RoundOdd(gross, Cents);
    } else {
      RemainderOfPositive(gross, net);
    }
  }

  lemma {:induction false} RemainderOfPositive(gross: real, net: real)
    requires gross >= 0.0 && net == Round(gross / GROSS_FACTOR, Cents)
    ensures net + Round(gross - net, Cents) == Round(gross, Cents)
    ensures net >= 0.0 && Round(gross - net, Cents) >= 0.0
  {
    GridZero(Cents);
    RoundNear(gross / GROSS_FACTOR, Cents);
    RoundMonotone(0.0, gross / GROSS_FACTOR, Cents);
    GridAdd(net, net, Cents);
    if gross - net >= 0.0 {
      RoundShift(gross, -net, Cents);
      RoundMonotone(0.0, gross - net, Cents);
    } else {
      assert Abs(0.0 - (gross - net)) < HalfStep(Cents);
      RoundUnique(gross - net, 0.0, Cents);
      RoundUnique(gross, net, Cents);
    }
  }

  predicate KeepsCents(gross: real, tax: real) {
    Abs(Round(gross, Cents) - gross) < HalfStep(Cents) || (gross < 0.0 <==> gross + tax < 0.0)
  }

  /** After normalisation net and tax add up to the gross amount: always when tax is included or not
      relevant; for a line without tax in its price exactly when the tax is on the two-decimal grid and
      the price is not half-way between two cents or keeps its sign under the tax, as all prices and taxes
      do that are not negative. */
  lemma {:induction false} NetPlusTaxIsGross(l: ExpenseLine)
    requires Normalise(l).Some?
    ensures var r := Normalise(l).value;
      && (!l.indication.NotIncluded? ==> r.net + r.tax == r.gross)
      && (l.indication.NotIncluded? ==>
            (r.net + r.tax == r.gross <==> OnGrid(l.tax.value, Cents) && KeepsCents(l.gross, l.tax.value)))
      && OnGrid(r.net, Cents) && OnGrid(r.gross, Cents)
  {
    var r := Normalise(l).value;
    RoundNear(l.gross / GROSS_FACTOR, Cents);
    RoundNear(l.gross, Cents);
    match l.indication
    case Included => RemainderRounds(l.gross, r.net);
    case NotRelavant =>
    case NotIncluded =>
      var t := l.tax.value;
      RoundNear(l.gross + t, Cents);
      if OnGrid(t, Cents) {
        RoundShiftIff(l.gross, t, Cents);
      }
      if r.net + r.tax == r.gross {
        GridAdd(r.gross, r.net, Cents);
      }
  }

  /** The totals inherit it. */
  lemma {:induction false} TotalsAddUp(items: seq<RecordedLine>)
    requires forall i :: 0 <= i < |items| ==> items[i].net + items[i].tax == items[i].gross
    ensures Sum(items, Net) + Sum(items, Tax) == Sum(items, Gross)
  {
    if items != [] {
      TotalsAddUp(items[..|items| - 1]);
    }
  }

  // ----- the voucher -----

  /** Per line a debit of the net and, when positive, of the tax; then one credit of the gross total. */
  function DebitLines(items: seq<RecordedLine>, inputTax: Account): (r: seq<Line>)
    ensures Untaxed(r)
  {
    if items == [] then []
    else
      var i := items[|items| - 1];
      DebitLines(items[..|items| - 1], inputTax)
      + [Line(i.purpose, DR, Round(i.net, Mills), None)]
      + (if i.tax > 0.0 then [Line(inputTax, DR, Round(i.tax, Mills), None)] else [])
  }

  function ExpenseVoucher(items: seq<RecordedLine>, inputTax: Account, payment: Account): (r: seq<Line>)
    ensures Untaxed(r)
  {
    DebitLines(items, inputTax) + [Line(payment, CR, Round(Sum(items, Gross), Mills), None)]
  }

  predicate NoneBelowZero(lines: seq<ExpenseLine>) {
    forall i :: 0 <= i < |lines| ==> lines[i].gross >= 0.0 && (lines[i].tax.Some? ==> lines[i].tax.value >= 0.0)
  }

  /** What the tax lines are off the recorded gross amounts: nothing except for taxes off the grid. */
  function Drift(items: seq<RecordedLine>): real {
    if items == [] then 0.0
    else
      var i := items[|items| - 1];
      Drift(items[..|items| - 1]) + (i.net + Round(i.tax, Mills) - i.gross)
  }

  predicate Tidy(items: seq<RecordedLine>) {
    forall i :: 0 <= i < |items| ==> items[i].net >= 0.0 && items[i].tax >= 0.0 && items[i].gross >= 0.0
  }

  ghost predicate OnCents(items: seq<RecordedLine>) {
    forall i :: 0 <= i < |items| ==> OnGrid(items[i].net, Cents) && OnGrid(items[i].gross, Cents)
  }

  lemma {:induction false} NormaliseOnCents(lines: seq<ExpenseLine>)
    requires Storable(lines)
    ensures OnCents(NormaliseAll(lines))
  {
    forall i | 0 <= i < |lines|
      ensures OnGrid(NormaliseAll(lines)[i].net, Cents) && OnGrid(NormaliseAll(lines)[i].gross, Cents)
    {
      NetPlusTaxIsGross(lines[i]);
    }
  }

  lemma {:induction false} NormaliseTidy(lines: seq<ExpenseLine>)
    requires Storable(lines) && NoneBelowZero(lines)
    ensures Tidy(NormaliseAll(lines))
  {
    forall i | 0 <= i < |lines|
      ensures var r := NormaliseAll(lines)[i]; r.net >= 0.0 && r.tax >= 0.0 && r.gross >= 0.0
    {
      var l := lines[i];
      GridZero(Cents);
      RoundMonotone(0.0, l.gross, Cents);
      if l.indication.Included? {
        RemainderOfPositive(l.gross, Round(l.gross / GROSS_FACTOR, Cents));
      } else if l.indication.NotIncluded? {
        RoundMonotone(0.0, l.gross + l.tax.value, Cents);
      }
    }
  }

  // ----- what the ledger keeps of the voucher -----

  function Pos(x: real): real {
    if x > 0.0 then x else 0.0
  }

  /** What the debits the ledger keeps, the positive ones, are off the recorded gross amounts. */
  function KeptDrift(items: seq<RecordedLine>): real {
    if items == [] then 0.0
    else
      var i := items[|items| - 1];
      KeptDrift(items[..|items| - 1]) + (Pos(i.net) + Pos(Round(i.tax, Mills)) - i.gross)
  }

  lemma {:induction false} TidyKeepsAll(items: seq<RecordedLine>)
    requires Tidy(items)
    ensures KeptDrift(items) == Drift(items)
  {
    if items != [] {
      TidyKeepsAll(items[..|items| - 1]);
      GridZero(Mills);
      RoundMonotone(0.0, items[|items| - 1].tax, Mills);
    }
  }

  lemma {:induction false} PositiveSnoc(lines: seq<Line>, l: Line, s: Side)
    ensures SideTotal(Positive(lines + [l]), s)
         == SideTotal(Positive(lines), s) + (if l.side == s then Pos(l.amount) else 0.0)
  {
    assert (lines + [l])[..|lines|] == lines;
    if l.amount > 0.0 {
      SideTotalSnoc(Positive(lines), l, s);
    } else {
      assert Positive(lines) + [] == Positive(lines);
    }
  }

  lemma {:induction false} GrossOnCents(items: seq<RecordedLine>)
    requires OnCents(items)
    ensures OnGrid(Sum(items, Gross), Cents)
  {
    GridZero(Cents);
    if items != [] {
      var rest := items[..|items| - 1];
      assert forall j :: 0 <= j < |rest| ==> rest[j] == items[j];
      GrossOnCents(rest);
      GridAdd(Sum(rest, Gross), items[|items| - 1].gross, Cents);
    }
  }

  /** The ledger keeps of the debits the gross total and the drift, for lines of any sign. */
  lemma {:induction false} KeptDebits(items: seq<RecordedLine>, inputTax: Account)
    requires OnCents(items)
    ensures SideTotal(Positive(DebitLines(items, inputTax)), DR) == Sum(items, Gross) + KeptDrift(items) >= 0.0
    ensures SideTotal(Positive(DebitLines(items, inputTax)), CR) == 0.0
  {
    if items != [] {
      var rest, i := items[..|items| - 1], items[|items| - 1];
      assert forall j :: 0 <= j < |rest| ==> rest[j] == items[j];
      KeptDebits(rest, inputTax);
      CentsAreMills(i.net);
      RoundFixed(i.net, Mills);
      var lines, net := DebitLines(rest, inputTax), Line(i.purpose, DR, Round(i.net, Mills), None);
      PositiveSnoc(lines, net, DR);
      PositiveSnoc(lines, net, CR);
      if i.tax > 0.0 {
        var tax := Line(inputTax, DR, Round(i.tax, Mills), None);
        PositiveSnoc(lines + [net], tax, DR);
        PositiveSnoc(lines + [net], tax, CR);
      } else {
        assert lines + [net] + [] == lines + [net];
        GridZero(Mills);
        RoundMonotone(i.tax, 0.0, Mills);
      }
    }
  }

  /** Round(g + d) stays at the grid amount g exactly while d is within half a cent, ties counted up. */
  lemma {:induction false} RoundAbsorbs(g: real, d: real)
    requires OnGrid(g, Cents) && g > 0.0 && g + d >= 0.0
    ensures Round(g + d, Cents) == g <==> -0.005 <= d < 0.005
  {
    var n :| g == FromSteps(n, Cents);
    StepsNear(g + d, Cents);
    if -0.005 <= d < 0.005 {
      StepsIs(g + d, n, Cents);
    }
  }

  lemma {:induction false} VoucherTotals(items: seq<RecordedLine>, inputTax: Account, payment: Account)
    requires OnCents(items)
    ensures var v, gross := Positive(ExpenseVoucher(items, inputTax, payment)), Sum(items, Gross);
      && SideTotal(v, DR) == gross + KeptDrift(items) >= 0.0 && SideTotal(v, CR) == Pos(gross)
      && OnGrid(gross, Cents)
  {
    var gross := Sum(items, Gross);
    GrossOnCents(items);
    KeptDebits(items, inputTax);
    CentsAreMills(gross);
    RoundFixed(gross, Mills);
    var credit := Line(payment, CR, Round(gross, Mills), None);
    PositiveSnoc(DebitLines(items, inputTax), credit, DR);
    PositiveSnoc(DebitLines(items, inputTax), credit, CR);
  }

  lemma {:induction false} UntaxedAccepted(v: seq<Line>, tb: TaxBook)
    requires Untaxed(v)
    ensures var debit, credit := Round(SideTotal(Positive(v), DR), Cents), Round(SideTotal(Positive(v), CR), Cents);
            Prepare(v, tb).Accepted? <==> debit == credit != 0.0
  {
    PositiveUntaxed(v);
  }

  /** Of every expense that can be stored the ledger accepts the voucher exactly when the gross total is
      positive and what the kept debits are off it stays within half a cent. Without negative amounts that
      is the rounding of the separate taxes alone. */
  lemma {:induction false} ExpensePostsIff(lines: seq<ExpenseLine>, inputTax: Account, payment: Account, tb: TaxBook)
    requires Storable(lines)
    ensures var items := NormaliseAll(lines);
            Prepare(ExpenseVoucher(items, inputTax, payment), tb).Accepted?
            <==> Sum(items, Gross) > 0.0 && -0.005 <= KeptDrift(items) < 0.005
    ensures NoneBelowZero(lines) ==> KeptDrift(NormaliseAll(lines)) == Drift(NormaliseAll(lines))
  {
    NormaliseOnCents(lines);
    RecordedPostsIff(NormaliseAll(lines), inputTax, payment, tb);
    if NoneBelowZero(lines) {
      NormaliseTidy(lines);
      TidyKeepsAll(NormaliseAll(lines));
    }
  }

  lemma {:induction false} RecordedPostsIff(items: seq<RecordedLine>, inputTax: Account, payment: Account, tb: TaxBook)
    requires OnCents(items)
    ensures Prepare(ExpenseVoucher(items, inputTax, payment), tb).Accepted?
       <==> Sum(items, Gross) > 0.0 && -0.005 <= KeptDrift(items) < 0.005
  {
    VoucherTotals(items, inputTax, payment);
    UntaxedAccepted(ExpenseVoucher(items, inputTax, payment), tb);
    TotalsAgreeIff(Sum(items, Gross), KeptDrift(items));
  }

  lemma {:induction false} TotalsAgreeIff(gross: real, drift: real)
    requires OnGrid(gross, Cents) && gross + drift >= 0.0
    ensures Round(gross + drift, Cents) == Round(Pos(gross), Cents) != 0.0
       <==> gross > 0.0 && -0.005 <= drift < 0.005
  {
    GridZero(Cents);
    RoundFixed(gross, Cents);
    if gross > 0.0 {
      RoundAbsorbs(gross, drift);
    }
  }

  lemma {:induction false} KeptDriftSnoc(items: seq<RecordedLine>, i: RecordedLine)
    ensures KeptDrift(items + [i]) == KeptDrift(items) + (Pos(i.net) + Pos(Round(i.tax, Mills)) - i.gross)
    ensures Sum(items + [i], Gross) == Sum(items, Gross) + i.gross
  {
    assert (items + [i])[..|items|] == items;
  }

  /** Of 2.00 and -1.00, neither with tax, the gross total is 1.00 and the ledger refuses
      the voucher: its filter drops the negative debit. */
  lemma {:induction false} NegativeLineIsRefused(lines: seq<ExpenseLine>, purpose: Account, tb: TaxBook)
    requires lines == [ExpenseLine(purpose, 2.0, None, NotRelavant), ExpenseLine(purpose, -1.0, None, NotRelavant)]
    ensures Storable(lines) && Sum(NormaliseAll(lines), Gross) == 1.0
    ensures Prepare(ExpenseVoucher(NormaliseAll(lines), 2, 3), tb).Refused?
  {
    assert 2.0 == FromSteps(200, Cents) && -1.0 == FromSteps(-100, Cents);
    RoundFixed(2.0, Cents);
    RoundFixed(-1.0, Cents);
    GridZero(Mills);
    var a, b := RecordedLine(purpose, 2.0, 0.0, 2.0), RecordedLine(purpose, -1.0, 0.0, -1.0);
    var items := NormaliseAll(lines);
    assert items == [] + [a] + [b];
    KeptDriftSnoc([], a);
    KeptDriftSnoc([] + [a], b);
    ExpensePostsIff(lines, 2, 3, tb);
  }

  lemma {:induction false} DriftZero(items: seq<RecordedLine>)
    requires forall i :: 0 <= i < |items| ==>
               items[i].net + items[i].tax == items[i].gross && OnGrid(items[i].tax, Cents)
    ensures Drift(items) == 0.0
  {
    if items != [] {
      DriftZero(items[..|items| - 1]);
      CentsAreMills(items[|items| - 1].tax);
      RoundFixed(items[|items| - 1].tax, Mills);
    }
  }

  /** So every expense of non-negative lines whose given taxes are in whole cents, with a positive gross
      total, posts. */
  lemma {:induction false} TidyExpensePosts(lines: seq<ExpenseLine>, inputTax: Account, payment: Account, tb: TaxBook)
    requires Storable(lines) && NoneBelowZero(lines) && Sum(NormaliseAll(lines), Gross) > 0.0
    requires forall i :: 0 <= i < |lines| && lines[i].indication.NotIncluded? ==> OnGrid(lines[i].tax.value, Cents)
    ensures Prepare(ExpenseVoucher(NormaliseAll(lines), inputTax, payment), tb).Accepted?
    ensures var items := NormaliseAll(lines); Sum(items, Net) + Sum(items, Tax) == Sum(items, Gross)
  {
    var items := NormaliseAll(lines);
    forall i | 0 <= i < |lines| ensures items[i].net + items[i].tax == items[i].gross && OnGrid(items[i].tax, Cents) {
      NetPlusTaxIsGross(lines[i]);
      GridZero(Cents);
      RoundNear(lines[i].gross - items[i].net, Cents);
      assert KeepsCents(lines[i].gross, if lines[i].tax.Some? then lines[i].tax.value else 0.0);
    }
    TotalsAddUp(items);
    DriftZero(items);
    ExpensePostsIff(lines, inputTax, payment, tb);
  }

  /** Three lines of 1.00 whose separate tax is 0.004 are recorded but refused by the ledger. */
  lemma {:induction false} OffGridTaxIsRefused(lines: seq<ExpenseLine>, tb: TaxBook)
    requires lines == [ExpenseLine(1, 1.0, Some(0.004), NotIncluded), ExpenseLine(1, 1.0, Some(0.004), NotIncluded),
                       ExpenseLine(1, 1.0, Some(0.004), NotIncluded)]
    ensures Storable(lines) && NoneBelowZero(lines)
    ensures Prepare(ExpenseVoucher(NormaliseAll(lines), 2, 3), tb).Refused?
  {
    var l := ExpenseLine(1, 1.0, Some(0.004), NotIncluded);
    var r := RecordedLine(1, 1.0, 0.004, 1.0);
    assert 1.0 == FromSteps(100, Cents);
    RoundFixed(1.0, Cents);
    RoundUnique(1.004, 1.0, Cents);
    assert 0.004 == FromSteps(4, Mills);
    RoundFixed(0.004, Mills);
    assert forall i :: 0 <= i < 3 ==> lines[i] == l;
    var items := NormaliseAll(lines);
    assert items == [r, r, r];
    assert items[..2] == [r, r] && items[..2][..1] == [r] && items[..2][..1][..0] == [];
    assert Drift(items[..2][..1]) == 0.004;
    assert Drift(items[..2]) == 0.008;
    assert Drift(items) == 0.012;
    ExpensePostsIff(lines, 2, 3, tb);
  }

  // ----- what is recorded, and on which account it is booked -----

  /** A recorded line keeps its purpose and, to the cent, its price. A price that includes tax falls into a net
      that comes within half a cent to the price when 15 % are added, and the rest as tax; one that tax does
      not apply to is all net; one that excludes it is the net, with the tax it came with on top. Only a line of
      the last kind that came without a tax cannot be recorded. */
  lemma {:induction false} RecordedMeans(l: ExpenseLine)
    ensures Normalise(l).None? <==> l.indication.NotIncluded? && l.tax.None?
    ensures Normalise(l).Some? ==>
              var r := Normalise(l).value;
              && r.purpose == l.purpose
              && (l.indication.Included? ==>
                    && Abs(l.gross / 1.15 - r.net) <= 0.005 && r.gross == Round(l.gross, Cents)
                    && r.tax == r.gross - r.net)
              && (l.indication.NotRelavant? ==> r.net == r.gross == Round(l.gross, Cents) && r.tax == 0.0)
              && (l.indication.NotIncluded? ==>
                    && r.net == Round(l.gross, Cents) && r.gross == Round(l.gross + l.tax.value, Cents)
                    && r.tax == l.tax.value)
  {
    if l.indication.Included? {
      RoundNear(l.gross / 1.15, Cents);
      RemainderRounds(l.gross, Round(l.gross / 1.15, Cents));
    }
  }

  /** The net amounts recorded for a purpose. */
  function NetFor(items: seq<RecordedLine>, a: Account): real {
    if items == [] then 0.0
    else NetFor(items[..|items| - 1], a) + (if items[|items| - 1].purpose == a then items[|items| - 1].net else 0.0)
  }

  /** The positive taxes recorded, each rounded to thousandths. */
  function InputTax(items: seq<RecordedLine>): real {
    if items == [] then 0.0
    else
      var tax := items[|items| - 1].tax;
      InputTax(items[..|items| - 1]) + (if tax > 0.0 then Round(tax, Mills) else 0.0)
  }

  /** The voucher debits every purpose with its net amounts and the input-tax account with the taxes, and
      credits the payment account with the gross total and no other. */
  lemma {:induction false} ExpenseAccounts(items: seq<RecordedLine>, inputTax: Account, payment: Account, a: Account)
    requires OnCents(items)
    ensures var v := ExpenseVoucher(items, inputTax, payment);
      && KeyTotal(v, Key(a, DR)) == NetFor(items, a) + (if a == inputTax then InputTax(items) else 0.0)
      && KeyTotal(v, Key(a, CR)) == (if a == payment then Sum(items, Gross) else 0.0)
  {
    var debits, credit := DebitLines(items, inputTax), Line(payment, CR, Round(Sum(items, Gross), Mills), None);
    GrossOnCents(items);
    CentsAreMills(Sum(items, Gross));
    RoundFixed(Sum(items, Gross), Mills);
    DebitAccounts(items, inputTax, a);
    KeyTotalSnoc(debits, credit, Key(a, DR));
    KeyTotalSnoc(debits, credit, Key(a, CR));
  }

  lemma {:induction false} DebitAccounts(items: seq<RecordedLine>, inputTax: Account, a: Account)
    requires OnCents(items)
    ensures KeyTotal(DebitLines(items, inputTax), Key(a, DR))
         == NetFor(items, a) + (if a == inputTax then InputTax(items) else 0.0)
    ensures KeyTotal(DebitLines(items, inputTax), Key(a, CR)) == 0.0
  {
    if items != [] {
      var rest, i := items[..|items| - 1], items[|items| - 1];
      assert forall j :: 0 <= j < |rest| ==> rest[j] == items[j];
      DebitAccounts(rest, inputTax, a);
      CentsAreMills(i.net);
      RoundFixed(i.net, Mills);
      var lines, net := DebitLines(rest, inputTax), Line(i.purpose, DR, i.net, None);
      KeyTotalSnoc(lines, net, Key(a, DR));
      KeyTotalSnoc(lines, net, Key(a, CR));
      if i.tax > 0.0 {
        var tax := Line(inputTax, DR, Round(i.tax, Mills), None);
        KeyTotalSnoc(lines + [net], tax, Key(a, DR));
        KeyTotalSnoc(lines + [net], tax, Key(a, CR));
      } else {
        assert lines + [net] + [] == lines + [net];
      }
    }
  }

  /** Each total of an expense adds up one column of its lines. */
  lemma {:induction false} TotalsGrow(items: seq<RecordedLine>, i: RecordedLine)
    ensures Sum([], Net) == Sum([], Tax) == Sum([], Gross) == 0.0
    ensures Sum(items + [i], Net) == Sum(items, Net) + i.net
    ensures Sum(items + [i], Tax) == Sum(items, Tax) + i.tax
    ensures Sum(items + [i], Gross) == Sum(items, Gross) + i.gross
  {
    assert (items + [i])[..|items|] == items;
  }

  /** One line at 15 % included, 115.00 for a purpose: 100.00 on the purpose, 15.00 on the input tax, paid
      with 115.00. */
  lemma {:induction false} IncludedTaxIsSplit(l: ExpenseLine, inputTax: Account, payment: Account)
    requires l.gross == 115.0 && l.indication == Included
    requires l.purpose != inputTax && l.purpose != payment && inputTax != payment
    ensures Storable([l])
    ensures var v := ExpenseVoucher(NormaliseAll([l]), inputTax, payment);
      && KeyTotal(v, Key(l.purpose, DR)) == 100.0
      && KeyTotal(v, Key(inputTax, DR)) == 15.0
      && KeyTotal(v, Key(payment, CR)) == 115.0
  {
    var items := NormaliseAll([l]);
    RecordedMeans(l);
    assert 115.0 == FromSteps(11500, Cents) && 100.0 == FromSteps(10000, Cents) && 15.0 == FromSteps(1500, Cents);
    RoundFixed(115.0, Cents);
    RoundFixed(100.0, Cents);
    CentsAreMills(15.0);
    RoundFixed(15.0, Mills);
    assert 115.0 / 1.15 == 100.0;
    var i := items[0];
    assert i.net == 100.0 && i.tax == 15.0 && i.gross == 115.0 && i.purpose == l.purpose;
    assert items[..0] == [];
    NormaliseOnCents([l]);
    ExpenseAccounts(items, inputTax, payment, l.purpose);
    ExpenseAccounts(items, inputTax, payment, inputTax);
    ExpenseAccounts(items, inputTax, payment, payment);
  }

  /** Rewrites net, tax and gross of every line in place, then folds the totals; fails when a tax sum is
      not a number. */
  method Create(lines: seq<ExpenseLine>)
      returns (items: array<RecordedLine>, totalNet: real, totalTax: real, totalGross: real, ok: bool)
    ensures ok <==> Storable(lines)
    ensures ok ==> fresh(items) && items[..] == NormaliseAll(lines)
    ensures ok ==> totalNet == Sum(items[..], Net) && totalTax == Sum(items[..], Tax)
    ensures ok ==> totalGross == Sum(items[..], Gross)
  {
    items := new RecordedLine[|lines|](i requires 0 <= i < |lines| =>
      RecordedLine(lines[i].purpose, 0.0, lines[i].tax.GetOr(0.0), lines[i].gross));
    ok := true;
    for i := 0 to |lines|
      invariant ok <==> Storable(lines[..i])
      invariant forall j :: i <= j < |lines| ==>
                  items[j] == RecordedLine(lines[j].purpose, 0.0, lines[j].tax.GetOr(0.0), lines[j].gross)
      invariant ok ==> items[..i] == NormaliseAll(lines[..i])
    {
      assert lines[..i + 1][..i] == lines[..i];
      assert Storable(lines[..i + 1]) <==> Storable(lines[..i]) && Normalise(lines[i]).Some? by {
        assert forall j :: 0 <= j < i ==> lines[..i + 1][j] == lines[..i][j];
        assert lines[..i + 1][i] == lines[i];
      }
      var it := items[i];
      match lines[i].indication {
        case Included =>
          it := it.(net := Round(it.gross / GROSS_FACTOR, Cents));
          it := it.(tax := Round(it.gross - it.net, Cents));
        case NotRelavant =>
          it := it.(net := Round(it.gross, Cents), tax := 0.0);
        case NotIncluded =>
          if lines[i].tax.None? { ok := false; }
          it := it.(net := Round(it.gross, Cents));
          it := it.(gross := it.gross + it.tax);
      }
      items[i] := it.(gross := Round(it.gross, Cents));
      assert items[..i + 1] == items[..i] + [items[i]];
    }
    assert lines[..|lines|] == lines && items[..|lines|] == items[..];
    totalTax := Sum(items[..], Tax);
    totalGross := Sum(items[..], Gross);
    totalNet := Sum(items[..], Net);
  }

  method HandleExpense(items: seq<RecordedLine>, inputTax: Account, payment: Account) returns (lines: seq<Line>)
    ensures lines == ExpenseVoucher(items, inputTax, payment)
  {
    lines := [];
    var grossAmount := 0.0;
    for n := 0 to |items|
      invariant lines == DebitLines(items[..n], inputTax)
      invariant grossAmount == Sum(items[..n], Gross)
    {
      assert items[..n + 1][..n] == items[..n];
      var i := items[n];
      lines := lines + [Line(i.purpose, DR, Round(i.net, Mills), None)];
      if i.tax > 0.0 {
        lines := lines + [Line(inputTax, DR, Round(i.tax, Mills), None)];
      }
      grossAmount := grossAmount + i.gross;
    }
    assert items[..|items|] == items;
    lines := lines + [Line(payment, CR, Round(grossAmount, Mills), None)];
  }
}
