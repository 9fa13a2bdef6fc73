/** The trial balance: per account, an opening balance from the earlier periods of the year and the
    movement of the reported periods. A start or end of 0 stands for an absent query parameter. */
module TrialBalance {
  import opened Ranges
  import opened Rounding
  import opened VoucherLines
  import opened VoucherPipeline
  import opened GeneralLedger

  datatype Entry = Entry(account: Account, prevBalance: real, credit: real, debit: real, accumulated: real)

  function Before(vouchers: seq<Voucher>, year: int, period: int): seq<Voucher> {
    Between(vouchers, year, None, Some(period - 1))
  }

  predicate InRange(v: Voucher, year: int, from: Option<int>, to: Option<int>) {
    v.year == year && Within(v.period, from, to)
  }

  /** The `$match` stage. */
  function Between(vouchers: seq<Voucher>, year: int, from: Option<int>, to: Option<int>): seq<Voucher> {
    if vouchers == [] then []
    else
      var v := vouchers[|vouchers| - 1];
      if InRange(v, year, from, to) then Between(vouchers[..|vouchers| - 1], year, from, to) + [v]
      else Between(vouchers[..|vouchers| - 1], year, from, to)
  }

  /** Debit minus credit booked to an account. */
  function Balance(vouchers: seq<Voucher>, a: Account): real {
    Booked(vouchers, Key(a, DR)) - Booked(vouchers, Key(a, CR))
  }

  function EntryFor(vouchers: seq<Voucher>, year: int, start: nat, end: nat, a: Account): Entry {
    var prev := if start > 0 then Balance(Before(vouchers, year, start), a) else 0.0;
    var moved := if start > 0 && end > 0 then Between(vouchers, year, Some(start), Some(end))
        else Between(vouchers, year, None, None);
    var credit, debit := Booked(moved, Key(a, CR)), Booked(moved, Key(a, DR));
    Entry(a, prev, credit, debit, if a in AccountsUsed(moved) then prev + debit - credit else prev)
  }

  /** The report: one entry for every account of the chart, in chart order. The three `aggregate` calls
      group the vouchers' lines by account; an account without a group reports zeros. */
  method Report(vouchers: seq<Voucher>, year: int, start: nat, end: nat, chart: seq<Account>)
      returns (entries: seq<Entry>)
    ensures |entries| == |chart|
    ensures forall i :: 0 <= i < |chart| ==> entries[i] == EntryFor(vouchers, year, start, end, chart[i])
  {
    var opening := if start > 0 then Before(vouchers, year, start) else [];
    var moved := if start > 0 && end > 0 then Between(vouchers, year, Some(start), Some(end))
        else Between(vouchers, year, None, None);
    var moving := AccountsUsed(moved);
    entries := [];
    for i := 0 to |chart|
      invariant |entries| == i
      invariant forall j :: 0 <= j < i ==> entries[j] == EntryFor(vouchers, year, start, end, chart[j])
    {
      var a := chart[i];
      var tempPrevBalance := 0.0;
      if start > 0 && a in AccountsUsed(opening) {
        tempPrevBalance := Booked(opening, Key(a, DR)) - Booked(opening, Key(a, CR));
      }
      BookedOrZero(opening, a);
      var credit := if a in moving then Booked(moved, Key(a, CR)) else 0.0;
      var debit := if a in moving then Booked(moved, Key(a, DR)) else 0.0;
      BookedOrZero(moved, a);
      entries := entries + [Entry(a, tempPrevBalance, credit, debit,
                                  if a in moving then tempPrevBalance + debit - credit else tempPrevBalance)];
    }
  }

  lemma {:induction false} BookedOrZero(vouchers: seq<Voucher>, a: Account)
    ensures a !in AccountsUsed(vouchers) ==> Booked(vouchers, Key(a, DR)) == 0.0 && Booked(vouchers, Key(a, CR)) == 0.0
  {
    if a !in AccountsUsed(vouchers) {
      BookedUnused(vouchers, Key(a, DR));
      BookedUnused(vouchers, Key(a, CR));
    }
  }

  function PeriodOf(): Voucher -> int {
    (v: Voucher) => v.period
  }

  /** What a voucher of the year books to a key. */
  function BookedIn(year: int, k: LineKey): Voucher -> real {
    (v: Voucher) => if v.year == year then KeyTotal(v.lines, k) else 0.0
  }

  lemma {:induction false} RangeTotalIsBooked(vouchers: seq<Voucher>, year: int, from: Option<int>, to: Option<int>,
                                              k: LineKey)
    ensures RangeSum(vouchers, PeriodOf(), BookedIn(year, k), from, to) == Booked(Between(vouchers, year, from, to), k)
  {
    if vouchers != [] {
      RangeTotalIsBooked(vouchers[..|vouchers| - 1], year, from, to, k);
      BookedSnoc(Between(vouchers[..|vouchers| - 1], year, from, to), vouchers[|vouchers| - 1], k);
    }
  }

  /** Two adjoining period ranges add up to the whole. */
  lemma {:induction false} BetweenSplits(vouchers: seq<Voucher>, year: int, from: Option<int>, mid: int,
                                         to: Option<int>, k: LineKey)
    requires (from.Some? ==> from.value <= mid + 1) && (to.Some? ==> mid <= to.value)
    ensures Booked(Between(vouchers, year, from, to), k)
         == Booked(Between(vouchers, year, from, Some(mid)), k) + Booked(Between(vouchers, year, Some(mid + 1), to), k)
  {
    RangesAdjoin(vouchers, PeriodOf(), BookedIn(year, k), from, mid, to);
    RangeTotalIsBooked(vouchers, year, from, to, k);
    RangeTotalIsBooked(vouchers, year, from, Some(mid), k);
    RangeTotalIsBooked(vouchers, year, Some(mid + 1), to, k);
  }

  /** Trial balances telescope: with both bounds given and the range not starting beyond its end + 1,
      `accumulated` is the balance of everything up to the end, whatever the start; it is the opening
      balance of a report starting right after. */
  lemma {:induction false} AccumulatedTelescopes(vouchers: seq<Voucher>, year: int, start: nat, end: nat, end': nat,
                                                 a: Account)
    requires 0 < start <= end + 1 && 0 < end
    ensures EntryFor(vouchers, year, start, end, a).accumulated == Balance(Between(vouchers, year, None, Some(end)), a)
    ensures EntryFor(vouchers, year, start, end, a).accumulated
              == EntryFor(vouchers, year, end + 1, end', a).prevBalance
  {
    BookedOrZero(Between(vouchers, year, Some(start), Some(end)), a);
    forall s {
      BetweenSplits(vouchers, year, None, start - 1, Some(end), Key(a, s));
    }
    assert Before(vouchers, year, end + 1) == Between(vouchers, year, None, Some(end));
    assert Balance(Between(vouchers, year, None, Some(end)), a)
        == Balance(Before(vouchers, year, start), a) + Balance(Between(vouchers, year, Some(start), Some(end)), a);
  }

  /** Without an end the movement is the whole year, so a start counts the earlier periods twice; the
      year-to-date balance comes out exactly when those earlier periods balance to zero. */
  lemma {:induction false} OpenEndedCountsOpeningTwice(vouchers: seq<Voucher>, year: int, start: nat, a: Account)
    requires 0 < start
    ensures EntryFor(vouchers, year, start, 0, a).accumulated
         == Balance(Between(vouchers, year, None, None), a) + Balance(Before(vouchers, year, start), a)
    ensures EntryFor(vouchers, year, start, 0, a).accumulated == EntryFor(vouchers, year, 0, 0, a).accumulated
       <==> Balance(Before(vouchers, year, start), a) == 0.0
  {
    BookedOrZero(Between(vouchers, year, None, None), a);
  }

  lemma {:induction false} OneVoucher(v: Voucher, from: Option<int>, to: Option<int>, a: Account)
    requires Within(v.period, from, to)
    ensures Balance(Between([v], v.year, from, to), a) == Net(v.lines, a)
  {
    assert [v][..0] == [];
    assert Between([v], v.year, from, to) == [] + [v];
    BookedSnoc([], v, Key(a, DR));
    BookedSnoc([], v, Key(a, CR));
  }

  lemma {:induction false} PairNet(d: Line, c: Line)
    requires d.side == DR && d.account != c.account
    ensures Net([d] + [c], d.account) == d.amount
  {
    forall s ensures KeyTotal([d] + [c], Key(d.account, s)) == if s == DR then d.amount else 0.0 {
      KeyTotalSnoc([], d, Key(d.account, s));
      KeyTotalSnoc([d], c, Key(d.account, s));
      assert [] + [d] == [d];
    }
  }

  /** One voucher of x in period 1, reported from period 2 with no end: x is opening balance and movement. */
  lemma {:induction false} OpenEndedExample(v: Voucher, x: real)
    requires v.period == 1 && v.lines == [Line(1, DR, x, None)] + [Line(2, CR, x, None)]
    ensures EntryFor([v], v.year, 2, 0, 1).accumulated == 2.0 * x
    ensures EntryFor([v], v.year, 0, 0, 1).accumulated == x
  {
    PairNet(v.lines[0], v.lines[1]);
    OneVoucher(v, None, None, 1);
    OneVoucher(v, None, Some(1), 1);
    OpenEndedCountsOpeningTwice([v], v.year, 2, 1);
    BookedOrZero(Between([v], v.year, None, None), 1);
  }

  // ----- what one voucher changes -----

  lemma {:induction false} BetweenSnoc(vouchers: seq<Voucher>, v: Voucher, year: int, from: Option<int>,
                                       to: Option<int>, k: LineKey)
    ensures Booked(Between(vouchers + [v], year, from, to), k)
         == Booked(Between(vouchers, year, from, to), k)
            + if v.year == year && (from.Some? ==> from.value <= v.period) && (to.Some? ==> v.period <= to.value)
              then KeyTotal(v.lines, k) else 0.0
  {
    assert (vouchers + [v])[..|vouchers|] == vouchers;
    BookedSnoc(Between(vouchers, year, from, to), v, k);
  }

  lemma {:induction false} BetweenMarked(vouchers: seq<Voucher>, i: nat, year: int, from: Option<int>, to: Option<int>,
                                         k: LineKey)
    requires i < |vouchers|
    ensures Booked(Between(vouchers[i := vouchers[i].(isReversed := true)], year, from, to), k)
         == Booked(Between(vouchers, year, from, to), k)
  {
    var n := |vouchers| - 1;
    var v, marked := vouchers[n], vouchers[i := vouchers[i].(isReversed := true)];
    assert vouchers[..n] + [v] == vouchers && marked[..n] + [marked[n]] == marked;
    BetweenSnoc(vouchers[..n], v, year, from, to, k);
    BetweenSnoc(marked[..n], marked[n], year, from, to, k);
    if i < n {
      assert marked[..n] == vouchers[..n][i := vouchers[..n][i].(isReversed := true)];
      BetweenMarked(vouchers[..n], i, year, from, to, k);
    } else {
      assert marked[..n] == vouchers[..n];
    }
  }

  lemma {:induction false} EntryColumns(vouchers: seq<Voucher>, year: int, start: nat, end: nat, a: Account)
    ensures var e := EntryFor(vouchers, year, start, end, a);
            var (from, to) := if start > 0 && end > 0 then (Some(start), Some(end)) else (None, None);
      && e.account == a
      && e.debit == Booked(Between(vouchers, year, from, to), Key(a, DR))
      && e.credit == Booked(Between(vouchers, year, from, to), Key(a, CR))
      && e.prevBalance == (if start > 0 then Booked(Between(vouchers, year, None, Some(start - 1)), Key(a, DR))
                             - Booked(Between(vouchers, year, None, Some(start - 1)), Key(a, CR)) else 0.0)
      && e.accumulated == e.prevBalance + e.debit - e.credit
  {
    BookedOrZero(Between(vouchers, year, Some(start), Some(end)), a);
    BookedOrZero(Between(vouchers, year, None, None), a);
  }

  /** The entry of an account with no voucher is empty; a further voucher of the year counts in its debit or
      credit column when its period is reported, in its opening balance when its period comes before. With
      one of the bounds absent every period of the year is reported; without a start there is no opening
      balance. */
  lemma {:induction false} VoucherIsReported(vouchers: seq<Voucher>, v: Voucher, year: int, start: nat, end: nat,
                                             a: Account)
    ensures var none := EntryFor([], year, start, end, a);
            none.prevBalance == none.debit == none.credit == none.accumulated == 0.0
    ensures var e, e' := EntryFor(vouchers, year, start, end, a), EntryFor(vouchers + [v], year, start, end, a);
            var reported := v.year == year && (start == 0 || end == 0 || start <= v.period <= end);
      && e'.account == a
      && e'.debit == e.debit + (if reported then KeyTotal(v.lines, Key(a, DR)) else 0.0)
      && e'.credit == e.credit + (if reported then KeyTotal(v.lines, Key(a, CR)) else 0.0)
      && e'.prevBalance == e.prevBalance + (if v.year == year && 0 < start && v.period < start
                                            then KeyTotal(v.lines, Key(a, DR)) - KeyTotal(v.lines, Key(a, CR))
                                            else 0.0)
      && e'.accumulated == e'.prevBalance + e'.debit - e'.credit
  {
    var (from, to) := if start > 0 && end > 0 then (Some(start), Some(end)) else (None, None);
    EntryColumns(vouchers, year, start, end, a);
    EntryColumns(vouchers + [v], year, start, end, a);
    BetweenSnoc(vouchers, v, year, from, to, Key(a, DR));
    BetweenSnoc(vouchers, v, year, from, to, Key(a, CR));
    BetweenSnoc(vouchers, v, year, None, Some(start - 1), Key(a, DR));
    BetweenSnoc(vouchers, v, year, None, Some(start - 1), Key(a, CR));
  }

  /** Marking a voucher as reversed changes no trial balance. */
  lemma {:induction false} MarkIsNotReported(vouchers: seq<Voucher>, i: nat, year: int, start: nat, end: nat,
                                             a: Account)
    requires i < |vouchers|
    ensures EntryFor(vouchers[i := vouchers[i].(isReversed := true)], year, start, end, a)
         == EntryFor(vouchers, year, start, end, a)
  {
    var (from, to) := if start > 0 && end > 0 then (Some(start), Some(end)) else (None, None);
    EntryColumns(vouchers, year, start, end, a);
    EntryColumns(vouchers[i := vouchers[i].(isReversed := true)], year, start, end, a);
    BetweenMarked(vouchers, i, year, from, to, Key(a, DR));
    BetweenMarked(vouchers, i, year, from, to, Key(a, CR));
    BetweenMarked(vouchers, i, year, None, Some(start - 1), Key(a, DR));
    BetweenMarked(vouchers, i, year, None, Some(start - 1), Key(a, CR));
  }

  /** A voucher created or reversed for a year and a period moves the trial balances that cover the period,
      by its stored lines. */
  lemma {:induction false} StoredIsReported(b: Books, op: Op, year: int, start: nat, end: nat, a: Account)
    requires (op.Create? || op.Reverse?) && Step(b, op).1.Stored? && 0 < start && 0 < end
    ensures |Step(b, op).0.vouchers| == |b.vouchers| + 1
    ensures var after := Step(b, op).0.vouchers;
            var lines := after[|b.vouchers|].lines;
            var e, e' := EntryFor(b.vouchers, year, start, end, a), EntryFor(after, year, start, end, a);
            var reported := op.year == year && start <= op.period <= end;
      && e'.debit == e.debit + (if reported then KeyTotal(lines, Key(a, DR)) else 0.0)
      && e'.credit == e.credit + (if reported then KeyTotal(lines, Key(a, CR)) else 0.0)
      && e'.prevBalance == e.prevBalance + (if op.year == year && op.period < start
                                            then KeyTotal(lines, Key(a, DR)) - KeyTotal(lines, Key(a, CR)) else 0.0)
  {
    var after := Step(b, op).0.vouchers;
    var v := after[|b.vouchers|];
    StoredUnder(b, op);
    if op.Create? {
      assert after == b.vouchers + [v];
      VoucherIsReported(b.vouchers, v, year, start, end, a);
    } else {
      var i := op.voucher;
      var marked := b.vouchers[i := b.vouchers[i].(isReversed := true)];
      assert after == marked + [v];
      MarkIsNotReported(b.vouchers, i, year, start, end, a);
      VoucherIsReported(marked, v, year, start, end, a);
    }
  }

  // ----- the whole chart sums to almost nothing -----

  /** Sum of the balances over a list of accounts. */
  function ChartBalance(vouchers: seq<Voucher>, chart: seq<Account>): real {
    if chart == [] then 0.0
    else ChartBalance(vouchers, chart[..|chart| - 1]) + Balance(vouchers, chart[|chart| - 1])
  }

  function ChartNet(lines: seq<Line>, chart: seq<Account>): real {
    if chart == [] then 0.0
    else ChartNet(lines, chart[..|chart| - 1]) + Net(lines, chart[|chart| - 1])
  }

  predicate NoRepeats(chart: seq<Account>) {
    forall i, j :: 0 <= i < j < |chart| ==> chart[i] != chart[j]
  }

  lemma {:induction false} ChartNetSnoc(lines: seq<Line>, l: Line, chart: seq<Account>)
    requires NoRepeats(chart)
    ensures ChartNet(lines + [l], chart)
         == ChartNet(lines, chart) + (if l.account !in chart then 0.0 else if l.side == DR then l.amount else -l.amount)
  {
    if chart != [] {
      var rest, a := chart[..|chart| - 1], chart[|chart| - 1];
      ChartNetSnoc(lines, l, rest);
      KeyTotalSnoc(lines, l, Key(a, DR));
      KeyTotalSnoc(lines, l, Key(a, CR));
      assert chart == rest + [a];
      assert a !in rest;
    }
  }

  lemma {:induction false} ChartNetEmpty(chart: seq<Account>)
    ensures ChartNet([], chart) == 0.0
  {
    if chart != [] {
      ChartNetEmpty(chart[..|chart| - 1]);
    }
  }

  /** Over a chart that contains every account of the lines, the nets add up to debit minus credit. */
  lemma {:induction false} ChartNetIsImbalance(lines: seq<Line>, chart: seq<Account>)
    requires NoRepeats(chart)
    requires forall i :: 0 <= i < |lines| ==> lines[i].account in chart
    ensures ChartNet(lines, chart) == Imbalance(lines)
  {
    if lines == [] {
      ChartNetEmpty(chart);
    } else {
      var rest, l := lines[..|lines| - 1], lines[|lines| - 1];
      ChartNetIsImbalance(rest, chart);
      assert rest + [l] == lines;
      ChartNetSnoc(rest, l, chart);
    }
  }

  lemma {:induction false} ChartBalanceSnoc(vouchers: seq<Voucher>, v: Voucher, chart: seq<Account>)
    ensures ChartBalance(vouchers + [v], chart) == ChartBalance(vouchers, chart) + ChartNet(v.lines, chart)
  {
    if chart != [] {
      ChartBalanceSnoc(vouchers, v, chart[..|chart| - 1]);
      BookedSnoc(vouchers, v, Key(chart[|chart| - 1], DR));
      BookedSnoc(vouchers, v, Key(chart[|chart| - 1], CR));
    }
  }

  lemma {:induction false} ChartBalanceEmpty(chart: seq<Account>)
    ensures ChartBalance([], chart) == 0.0
  {
    if chart != [] {
      ChartBalanceEmpty(chart[..|chart| - 1]);
    }
  }

  lemma {:induction false} ChartBalanceBounded(vouchers: seq<Voucher>, chart: seq<Account>)
    requires NoRepeats(chart)
    requires forall a :: a in AccountsUsed(vouchers) ==> a in chart
    requires forall i :: 0 <= i < |vouchers| ==> WellStored(vouchers[i])
    ensures Abs(ChartBalance(vouchers, chart)) <= 0.01 * |vouchers| as real
  {
    if vouchers == [] {
      ChartBalanceEmpty(chart);
    } else {
      var rest, v := vouchers[..|vouchers| - 1], vouchers[|vouchers| - 1];
      ChartBalanceBounded(rest, chart);
      assert rest + [v] == vouchers;
      ChartBalanceSnoc(rest, v, chart);
      forall i | 0 <= i < |v.lines| ensures v.lines[i].account in chart {
        assert v.lines[i].account in AccountsOf(v.lines);
      }
      ChartNetIsImbalance(v.lines, chart);
    }
  }

  function AccumulatedSum(vouchers: seq<Voucher>, year: int, start: nat, end: nat, chart: seq<Account>): real {
    if chart == [] then 0.0
    else AccumulatedSum(vouchers, year, start, end, chart[..|chart| - 1])
         + EntryFor(vouchers, year, start, end, chart[|chart| - 1]).accumulated
  }

  lemma {:induction false} AccumulatedSumIsChart(vouchers: seq<Voucher>, year: int, start: nat, end: nat,
                                                 chart: seq<Account>)
    requires 0 < start <= end + 1 && 0 < end
    ensures AccumulatedSum(vouchers, year, start, end, chart)
              == ChartBalance(Between(vouchers, year, None, Some(end)), chart)
  {
    if chart != [] {
      AccumulatedSumIsChart(vouchers, year, start, end, chart[..|chart| - 1]);
      AccumulatedTelescopes(vouchers, year, start, end, 0, chart[|chart| - 1]);
    }
  }

  lemma {:induction false} BetweenFrom(vouchers: seq<Voucher>, year: int, from: Option<int>, to: Option<int>)
    ensures |Between(vouchers, year, from, to)| <= |vouchers|
    ensures forall i :: 0 <= i < |Between(vouchers, year, from, to)|
              ==> Between(vouchers, year, from, to)[i] in vouchers
    ensures AccountsUsed(Between(vouchers, year, from, to)) <= AccountsUsed(vouchers)
  {
    if vouchers != [] {
      BetweenFrom(vouchers[..|vouchers| - 1], year, from, to);
      var b, v := Between(vouchers[..|vouchers| - 1], year, from, to), vouchers[|vouchers| - 1];
      assert (b + [v])[..|b|] == b;
    }
  }

  /** On books reached by any run, the accumulated column over a chart holding every posted account sums
      to at most one cent per voucher of the year up to the end period. */
  lemma {:induction false} TrialBalanceNearZero(ops: seq<Op>, year: int, start: nat, end: nat, chart: seq<Account>)
    requires 0 < start <= end + 1 && 0 < end
    requires NoRepeats(chart)
    requires forall a :: a in AccountsUsed(Run(NO_BOOKS, ops).vouchers) ==> a in chart
    ensures Abs(AccumulatedSum(Run(NO_BOOKS, ops).vouchers, year, start, end, chart))
         <= 0.01 * |Between(Run(NO_BOOKS, ops).vouchers, year, None, Some(end))| as real
  {
    var all := Run(NO_BOOKS, ops).vouchers;
    NoBooksSound();
    RunSound(NO_BOOKS, ops);
    BetweenFrom(all, year, None, Some(end));
    var upTo := Between(all, year, None, Some(end));
    ChartBalanceBounded(upTo, chart);
    AccumulatedSumIsChart(all, year, start, end, chart);
  }
}
