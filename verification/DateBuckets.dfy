/** Balance-sheet figures per day, and their roll-up to months, quarters and years. */
module DateBuckets {
  import opened VoucherLines
  import opened Rounding

  datatype Date = Date(year: int, month: int, day: int)

  predicate IsLeap(y: int) {
    y % 4 == 0 && (y % 100 != 0 || y % 400 == 0)
  }

  function DaysIn(y: int, m: int): int {
    if m == 2 then (if IsLeap(y) then 29 else 28) else if m == 4 || m == 6 || m == 9 || m == 11 then 30 else 31
  }

  predicate IsDate(d: Date) {
    1 <= d.month <= 12 && 1 <= d.day <= DaysIn(d.year, d.month)
  }

  function Next(d: Date): (n: Date)
    requires IsDate(d)
    ensures IsDate(n) && Rank(d) < Rank(n)
  {
    if d.day < DaysIn(d.year, d.month) then Date(d.year, d.month, d.day + 1)
    else if d.month < 12 then Date(d.year, d.month + 1, 1)
    else Date(d.year + 1, 1, 1)
  }

  /** Order-preserving, with gaps. */
  function Rank(d: Date): int {
    (d.year * 12 + d.month) * 32 + d.day
  }

  /** Every date from start to end, none when the end comes first. */
  function Days(start: Date, end: Date): seq<Date>
    requires IsDate(start)
    decreases Rank(end) - Rank(start)
  {
    if Rank(end) < Rank(start) then [] else [start] + Days(Next(start), end)
  }

  /** Totals the ledger holds for one account and day. */
  datatype Entry = Entry(account: Account, date: Date, debit: real, credit: real)

  datatype Column = Debit | Credit | TotalAmount

  /** Figures of one bucket. */
  datatype Figures = Figures(debit: real, credit: real, totalAmount: real) {
    function Get(c: Column): real {
      match c
      case Debit => debit
      case Credit => credit
      case TotalAmount => totalAmount
    }
  }

  datatype DayRow = DayRow(date: Date, figures: Figures)

  function DayDebit(data: seq<Entry>, accounts: set<Account>, d: Date): real {
    if data == [] then 0.0
    else
      var e := data[|data| - 1];
      DayDebit(data[..|data| - 1], accounts, d) + (if e.account in accounts && e.date == d then e.debit else 0.0)
  }

  function DayCredit(data: seq<Entry>, accounts: set<Account>, d: Date): real {
    if data == [] then 0.0
    else
      var e := data[|data| - 1];
      DayCredit(data[..|data| - 1], accounts, d) + (if e.account in accounts && e.date == d then e.credit else 0.0)
  }

  function FiguresOn(data: seq<Entry>, accounts: set<Account>, d: Date): Figures {
    var debit, credit := DayDebit(data, accounts, d), DayCredit(data, accounts, d);
    Figures(debit, credit, Abs(credit - debit))
  }

  function Daily(data: seq<Entry>, accounts: set<Account>, days: seq<Date>): (r: seq<DayRow>)
    ensures |r| == |days|
  {
    if days == [] then []
    else Daily(data, accounts, days[..|days| - 1])
         + [DayRow(days[|days| - 1], FiguresOn(data, accounts, days[|days| - 1]))]
  }

  datatype Grain = Monthly | Quarterly | Annually

  function QuarterOf(month: int): int {
    if month <= 3 then 1 else if month <= 6 then 2 else if month <= 9 then 3 else 4
  }

  /** The bucket a date falls in; months and quarters carry no year. */
  function KeyOf(g: Grain, d: Date): int {
    match g
    case Monthly => d.month
    case Quarterly => QuarterOf(d.month)
    case Annually => d.year
  }

  function Bucket(g: Grain, rows: seq<DayRow>, k: int, c: Column): real {
    if rows == [] then 0.0
    else
      var r := rows[|rows| - 1];
      Bucket(g, rows[..|rows| - 1], k, c) + (if KeyOf(g, r.date) == k then r.figures.Get(c) else 0.0)
  }

  function BucketFigures(g: Grain, rows: seq<DayRow>, k: int): Figures {
    Figures(Bucket(g, rows, k, Debit), Bucket(g, rows, k, Credit), Bucket(g, rows, k, TotalAmount))
  }

  /** Sum of a column over a report. */
  function Total(fs: seq<Figures>, c: Column): real {
    if fs == [] then 0.0 else Total(fs[..|fs| - 1], c) + fs[|fs| - 1].Get(c)
  }

  function DailyTotal(rows: seq<DayRow>, c: Column): real {
    if rows == [] then 0.0 else DailyTotal(rows[..|rows| - 1], c) + rows[|rows| - 1].figures.Get(c)
  }

  /** The slice of buckets from the start's to the end's; empty when they come in the wrong order. */
  function Coarse(g: Grain, rows: seq<DayRow>, lo: int, hi: int): seq<Figures>
    decreases hi - lo
  {
    if hi < lo then [] else Coarse(g, rows, lo, hi - 1) + [BucketFigures(g, rows, hi)]
  }

  // ----- conservation -----

  /** Sum of the buckets from lo to hi. */
  function BucketSum(g: Grain, rows: seq<DayRow>, lo: int, hi: int, c: Column): real
    decreases hi - lo
  {
    if hi < lo then 0.0 else BucketSum(g, rows, lo, hi - 1, c) + Bucket(g, rows, hi, c)
  }

  lemma {:induction false} CoarseTotal(g: Grain, rows: seq<DayRow>, lo: int, hi: int, c: Column)
    ensures Total(Coarse(g, rows, lo, hi), c) == BucketSum(g, rows, lo, hi, c)
    decreases hi - lo
  {
    if hi >= lo {
      CoarseTotal(g, rows, lo, hi - 1, c);
      var fs := Coarse(g, rows, lo, hi - 1);
      assert (fs + [BucketFigures(g, rows, hi)])[..|fs|] == fs;
    }
  }

  predicate Within(g: Grain, rows: seq<DayRow>, lo: int, hi: int) {
    forall i :: 0 <= i < |rows| ==> lo <= KeyOf(g, rows[i].date) <= hi
  }

  predicate InSlice(g: Grain, d: Date, lo: int, hi: int) {
    lo <= KeyOf(g, d) <= hi
  }

  /** What falls into no bucket of the slice. */
  function Dropped(g: Grain, rows: seq<DayRow>, lo: int, hi: int, c: Column): real {
    if rows == [] then 0.0
    else
      var r := rows[|rows| - 1];
      Dropped(g, rows[..|rows| - 1], lo, hi, c) + (if InSlice(g, r.date, lo, hi) then 0.0 else r.figures.Get(c))
  }

  /** One more day adds to the slice what is not dropped. */
  lemma {:induction false} BucketSumSnoc(g: Grain, rows: seq<DayRow>, lo: int, hi: int, c: Column)
    requires rows != []
    ensures BucketSum(g, rows, lo, hi, c) == BucketSum(g, rows[..|rows| - 1], lo, hi, c)
         + (if InSlice(g, rows[|rows| - 1].date, lo, hi) then rows[|rows| - 1].figures.Get(c) else 0.0)
    decreases hi - lo
  {
    if hi >= lo {
      BucketSumSnoc(g, rows, lo, hi - 1, c);
    }
  }

  lemma {:induction false} BucketSumNothing(g: Grain, lo: int, hi: int, c: Column)
    ensures BucketSum(g, [], lo, hi, c) == 0.0
    decreases hi - lo
  {
    if hi >= lo {
      BucketSumNothing(g, lo, hi - 1, c);
    }
  }

  /** For any range the coarse output misses exactly the days outside its slice. */
  lemma {:induction false} CoarseResidual(g: Grain, rows: seq<DayRow>, lo: int, hi: int, c: Column)
    ensures BucketSum(g, rows, lo, hi, c) + Dropped(g, rows, lo, hi, c) == DailyTotal(rows, c)
  {
    if rows == [] {
      BucketSumNothing(g, lo, hi, c);
    } else {
      CoarseResidual(g, rows[..|rows| - 1], lo, hi, c);
      BucketSumSnoc(g, rows, lo, hi, c);
    }
  }

  lemma {:induction false} NothingDropped(g: Grain, rows: seq<DayRow>, lo: int, hi: int, c: Column)
    requires Within(g, rows, lo, hi)
    ensures Dropped(g, rows, lo, hi, c) == 0.0
  {
    if rows != [] {
      NothingDropped(g, rows[..|rows| - 1], lo, hi, c);
    }
  }

  // ----- which ranges are covered -----

  lemma {:induction false} DaysBetween(start: Date, end: Date, i: nat)
    requires IsDate(start) && i < |Days(start, end)|
    ensures IsDate(Days(start, end)[i]) && Rank(start) <= Rank(Days(start, end)[i]) <= Rank(end)
    decreases Rank(end) - Rank(start)
  {
    if i > 0 {
      DaysBetween(Next(start), end, i - 1);
    }
  }

  lemma {:induction false} RankOrders(a: Date, b: Date)
    requires IsDate(a) && IsDate(b)
    ensures Rank(a) <= Rank(b)
       <==> a.year < b.year
            || (a.year == b.year && (a.month < b.month || (a.month == b.month && a.day <= b.day)))
  {
  }

  /** The list leaves out no date. */
  lemma {:induction false} DaysContain(start: Date, end: Date, d: Date) returns (i: nat)
    requires IsDate(start) && IsDate(end) && IsDate(d) && Rank(start) <= Rank(d) <= Rank(end)
    ensures i < |Days(start, end)| && Days(start, end)[i] == d
    decreases Rank(end) - Rank(start)
  {
    if d == start {
      i := 0;
    } else {
      RankOrders(start, d);
      RankOrders(d, start);
      RankOrders(Next(start), d);
      i := DaysContain(Next(start), end, d);
      i := i + 1;
    }
  }

  /** No day of the range falls outside the slice from the start's bucket to the end's. */
  ghost predicate Covered(g: Grain, start: Date, end: Date)
    requires IsDate(start)
  {
    forall i :: 0 <= i < |Days(start, end)| ==> KeyOf(g, start) <= KeyOf(g, Days(start, end)[i]) <= KeyOf(g, end)
  }

  /** First and last bucket of a year. */
  predicate WholeYear(g: Grain, start: Date, end: Date) {
    KeyOf(g, start) == 1 && KeyOf(g, end) == if g.Monthly? then 12 else 4
  }

  /** Years always cover. Months and quarters cover exactly the ranges inside one calendar year, and those
      that run from the first bucket of a year to the last bucket of a later one. */
  lemma {:induction false} CoverageIff(g: Grain, start: Date, end: Date)
    requires IsDate(start) && IsDate(end) && Rank(start) <= Rank(end)
    ensures Covered(g, start, end) <==> g.Annually? || start.year == end.year || WholeYear(g, start, end)
  {
    RankOrders(start, end);
    if g.Annually? || start.year == end.year || WholeYear(g, start, end) {
      forall i | 0 <= i < |Days(start, end)| ensures KeyOf(g, start) <= KeyOf(g, Days(start, end)[i]) <= KeyOf(g, end) {
        DaysBetween(start, end, i);
        RankOrders(start, Days(start, end)[i]);
        RankOrders(Days(start, end)[i], end);
      }
    } else {
      var last, first := Date(start.year, 12, 31), Date(end.year, 1, 1);
      RankOrders(start, last);
      RankOrders(last, end);
      RankOrders(start, first);
      RankOrders(first, end);
      var i := DaysContain(start, end, last);
      var j := DaysContain(start, end, first);
    }
  }

  lemma {:induction false} DailyDates(data: seq<Entry>, accounts: set<Account>, days: seq<Date>, i: nat)
    requires i < |days|
    ensures Daily(data, accounts, days)[i] == DayRow(days[i], FiguresOn(data, accounts, days[i]))
  {
    if i < |days| - 1 {
      DailyDates(data, accounts, days[..|days| - 1], i);
    }
  }

  /** Coarse buckets refine the daily ones: over every covered range, for all data, the summed debit,
      credit and total amount are the daily ones, and no bucket with a day in it is cut off. */
  lemma {:induction false} CoarseConserves(g: Grain, data: seq<Entry>, accounts: set<Account>, start: Date, end: Date,
                                           c: Column)
    requires IsDate(start) && IsDate(end) && Rank(start) <= Rank(end)
    requires g.Annually? || start.year == end.year || WholeYear(g, start, end)
    ensures var rows := Daily(data, accounts, Days(start, end));
      && Total(Coarse(g, rows, KeyOf(g, start), KeyOf(g, end)), c) == DailyTotal(rows, c)
      && (forall k :: k < KeyOf(g, start) || k > KeyOf(g, end) ==> Bucket(g, rows, k, c) == 0.0)
  {
    var days, lo, hi := Days(start, end), KeyOf(g, start), KeyOf(g, end);
    var rows := Daily(data, accounts, days);
    CoverageIff(g, start, end);
    forall i | 0 <= i < |rows| ensures lo <= KeyOf(g, rows[i].date) <= hi {
      DailyDates(data, accounts, days, i);
    }
    CoarseTotal(g, rows, lo, hi, c);
    CoarseResidual(g, rows, lo, hi, c);
    NothingDropped(g, rows, lo, hi, c);
    forall k | k < lo || k > hi ensures Bucket(g, rows, k, c) == 0.0 {
      EmptyBucket(g, rows, k, c);
    }
  }

  lemma {:induction false} EmptyBucket(g: Grain, rows: seq<DayRow>, k: int, c: Column)
    requires forall i :: 0 <= i < |rows| ==> KeyOf(g, rows[i].date) != k
    ensures Bucket(g, rows, k, c) == 0.0
  {
    if rows != [] {
      EmptyBucket(g, rows[..|rows| - 1], k, c);
    }
  }

  /** On every other range some data loses money: one debit on a day outside the slice. */
  lemma {:induction false} UncoveredLoses(g: Grain, start: Date, end: Date) returns (data: seq<Entry>)
    requires IsDate(start) && IsDate(end) && Rank(start) <= Rank(end)
    requires !(g.Annually? || start.year == end.year || WholeYear(g, start, end))
    ensures var rows := Daily(data, {0}, Days(start, end));
            Total(Coarse(g, rows, KeyOf(g, start), KeyOf(g, end)), Debit) < DailyTotal(rows, Debit)
  {
    CoverageIff(g, start, end);
    var days, lo, hi := Days(start, end), KeyOf(g, start), KeyOf(g, end);
    var i :| 0 <= i < |days| && !InSlice(g, days[i], lo, hi);
    data := [Entry(0, days[i], 1.0, 0.0)];
    var rows := Daily(data, {0}, days);
    assert Dropped(g, rows, lo, hi, Debit) >= 1.0 by {
      assert days[..|days|] == days;
      LossAt(g, data, days, i, |days|, lo, hi);
    }
    CoarseTotal(g, rows, lo, hi, Debit);
    CoarseResidual(g, rows, lo, hi, Debit);
  }

  lemma {:induction false} LossAt(g: Grain, data: seq<Entry>, days: seq<Date>, i: nat, n: nat, lo: int, hi: int)
    requires i < |days| && n <= |days| && data == [Entry(0, days[i], 1.0, 0.0)]
    requires !InSlice(g, days[i], lo, hi)
    ensures Dropped(g, Daily(data, {0}, days[..n]), lo, hi, Debit) >= if i < n then 1.0 else 0.0
  {
    if n > 0 {
      LossAt(g, data, days, i, n - 1, lo, hi);
      assert days[..n][..n - 1] == days[..n - 1];
      assert data[..0] == [];
      assert DayDebit(data, {0}, days[n - 1]) == if days[i] == days[n - 1] then 1.0 else 0.0;
    }
  }

  // ----- the days, and what the ledger holds on them -----

  /** The days are listed in order, each once. */
  lemma {:induction false} DaysAscend(start: Date, end: Date, i: nat, j: nat)
    requires IsDate(start) && i < j < |Days(start, end)|
    ensures Rank(Days(start, end)[i]) < Rank(Days(start, end)[j])
    decreases j
  {
    if i == 0 {
      DaysBetween(Next(start), end, j - 1);
    } else {
      DaysAscend(Next(start), end, i - 1, j - 1);
    }
  }

  /** Four months have 30 days; February has 29 in the years divisible by four, unless by a hundred and not by
      four hundred, and otherwise 28; the others have 31. */
  function LastDay(y: int, m: int): int {
    match m
    case 2 => if y % 4 == 0 && (y % 100 != 0 || y % 400 == 0) then 29 else 28
    case 4 | 6 | 9 | 11 => 30
    case _ => 31
  }

  /** The day after the last of a month is the first of the next. */
  lemma {:induction false} MonthsEnd(d: Date)
    requires IsDate(d)
    ensures d.day < LastDay(d.year, d.month) ==> Next(d) == Date(d.year, d.month, d.day + 1)
    ensures d.day == LastDay(d.year, d.month) && d.month < 12 ==> Next(d) == Date(d.year, d.month + 1, 1)
    ensures d.day == LastDay(d.year, d.month) && d.month == 12 ==> Next(d) == Date(d.year + 1, 1, 1)
    ensures d.day <= LastDay(d.year, d.month)
  {
    assert LastDay(d.year, d.month) == DaysIn(d.year, d.month);
  }

  lemma {:induction false} RestOfMonth(d: Date, end: Date)
    requires IsDate(d) && IsDate(end) && d.year == end.year && d.month < end.month
    ensures |Days(d, end)| == DaysIn(d.year, d.month) - d.day + 1 + |Days(Date(d.year, d.month + 1, 1), end)|
    decreases DaysIn(d.year, d.month) - d.day
  {
    if d.day < DaysIn(d.year, d.month) {
      RestOfMonth(Next(d), end);
    }
  }

  lemma {:induction false} WithinMonth(d: Date, end: Date)
    requires IsDate(d) && IsDate(end) && d.year == end.year && d.month == end.month && d.day <= end.day
    ensures |Days(d, end)| == end.day - d.day + 1
    decreases end.day - d.day
  {
    if d.day < end.day {
      WithinMonth(Next(d), end);
    } else {
      assert Days(Next(d), end) == [];
    }
  }

  /** Days from the first of month m to the end of the year. */
  function DaysFrom(y: int, m: int): int
    decreases 12 - m
  {
    if m >= 12 then 31 else DaysIn(y, m) + DaysFrom(y, m + 1)
  }

  lemma {:induction false} RestOfYear(y: int, m: int)
    requires 1 <= m <= 12
    ensures |Days(Date(y, m, 1), Date(y, 12, 31))| == DaysFrom(y, m)
    decreases 12 - m
  {
    if m == 12 {
      WithinMonth(Date(y, 12, 1), Date(y, 12, 31));
    } else {
      RestOfMonth(Date(y, m, 1), Date(y, 12, 31));
      RestOfYear(y, m + 1);
    }
  }

  /** A year lists 365 days, a leap year 366. */
  lemma {:induction false} YearHasItsDays(y: int)
    ensures |Days(Date(y, 1, 1), Date(y, 12, 31))|
         == if LastDay(y, 2) == 29 then 366 else 365
  {
    RestOfYear(y, 1);
    assert DaysFrom(y, 7) == 184;
    assert DaysFrom(y, 3) == 306;
  }

  /** Months are numbered as they are, three of them make a quarter, and years stand for themselves. */
  lemma {:induction false} KeyMeans(d: Date)
    requires IsDate(d)
    ensures KeyOf(Monthly, d) == d.month && KeyOf(Annually, d) == d.year
    ensures 3 * KeyOf(Quarterly, d) - 2 <= d.month <= 3 * KeyOf(Quarterly, d)
  {
  }

  /** What the ledger holds for the accounts from start to end. */
  function LedgerDebit(data: seq<Entry>, accounts: set<Account>, start: Date, end: Date): real {
    if data == [] then 0.0
    else
      var e := data[|data| - 1];
      LedgerDebit(data[..|data| - 1], accounts, start, end)
      + (if e.account in accounts && InPeriod(e.date, start, end) then e.debit else 0.0)
  }

  function LedgerCredit(data: seq<Entry>, accounts: set<Account>, start: Date, end: Date): real {
    if data == [] then 0.0
    else
      var e := data[|data| - 1];
      LedgerCredit(data[..|data| - 1], accounts, start, end)
      + (if e.account in accounts && InPeriod(e.date, start, end) then e.credit else 0.0)
  }

  predicate InPeriod(d: Date, start: Date, end: Date) {
    IsDate(d) && Rank(start) <= Rank(d) <= Rank(end)
  }

  /** How often a date is listed. */
  function Listed(days: seq<Date>, d: Date): nat {
    if days == [] then 0 else Listed(days[..|days| - 1], d) + (if days[|days| - 1] == d then 1 else 0)
  }

  lemma {:induction false} ListedConcat(a: seq<Date>, b: seq<Date>, d: Date)
    ensures Listed(a + b, d) == Listed(a, d) + Listed(b, d)
  {
    if b == [] {
      assert a + b == a;
    } else {
      assert (a + b)[..|a + b| - 1] == a + b[..|b| - 1];
      ListedConcat(a, b[..|b| - 1], d);
    }
  }

  /** Every date of the period is listed once, and no other. */
  lemma {:induction false} ListedOnce(start: Date, end: Date, d: Date)
    requires IsDate(start) && IsDate(end)
    ensures Listed(Days(start, end), d) == if InPeriod(d, start, end) then 1 else 0
    decreases Rank(end) - Rank(start)
  {
    if Rank(start) <= Rank(end) {
      ListedOnce(Next(start), end, d);
      ListedConcat([start], Days(Next(start), end), d);
      assert [start][..0] == [];
      if IsDate(d) {
        RankOrders(start, d);
        RankOrders(d, start);
        RankOrders(Next(start), d);
      }
    }
  }

  /** One more entry adds to a listed day what it holds for one of the accounts; the day's total amount is the
      difference of its debit and credit, without its sign. */
  lemma {:induction false} DayGrows(data: seq<Entry>, e: Entry, accounts: set<Account>, d: Date)
    ensures var f, f' := FiguresOn(data, accounts, d), FiguresOn(data + [e], accounts, d);
            var counts := e.account in accounts && e.date == d;
      && f'.debit == f.debit + (if counts then e.debit else 0.0)
      && f'.credit == f.credit + (if counts then e.credit else 0.0)
      && f'.totalAmount == (if f'.debit >= f'.credit then f'.debit - f'.credit else f'.credit - f'.debit)
    ensures FiguresOn([], accounts, d).debit == FiguresOn([], accounts, d).credit == 0.0
  {
    assert (data + [e])[..|data|] == data;
  }

  /** So many times an amount. */
  function Times(n: nat, x: real): real {
    n as real * x
  }

  lemma {:induction false} TimesOneMore(n: nat, x: real)
    ensures Times(n + 1, x) == Times(n, x) + x && Times(0, x) == 0.0 && Times(1, x) == x
  {
  }

  lemma {:induction false} DailyGrows(data: seq<Entry>, e: Entry, accounts: set<Account>, days: seq<Date>)
    ensures var n := if e.account in accounts then Listed(days, e.date) else 0;
            var was, now := Daily(data, accounts, days), Daily(data + [e], accounts, days);
      && DailyTotal(now, Debit) == DailyTotal(was, Debit) + Times(n, e.debit)
      && DailyTotal(now, Credit) == DailyTotal(was, Credit) + Times(n, e.credit)
  {
    var n := if e.account in accounts then Listed(days, e.date) else 0;
    TimesOneMore(if n > 0 then n - 1 else 0, e.debit);
    TimesOneMore(if n > 0 then n - 1 else 0, e.credit);
    if days != [] {
      var last := |days| - 1;
      DailyGrows(data, e, accounts, days[..last]);
      DayGrows(data, e, accounts, days[last]);
      DailyLast(data, accounts, days);
      DailyLast(data + [e], accounts, days);
    }
  }

  lemma {:induction false} DailyLast(data: seq<Entry>, accounts: set<Account>, days: seq<Date>)
    requires days != []
    ensures var n := |days| - 1;
            var f := FiguresOn(data, accounts, days[n]);
      && DailyTotal(Daily(data, accounts, days), Debit) == DailyTotal(Daily(data, accounts, days[..n]), Debit) + f.debit
      && DailyTotal(Daily(data, accounts, days), Credit)
          == DailyTotal(Daily(data, accounts, days[..n]), Credit) + f.credit
  {
    var n := |days| - 1;
    assert Daily(data, accounts, days)[..n] == Daily(data, accounts, days[..n]);
  }

  lemma {:induction false} NothingDaily(accounts: set<Account>, days: seq<Date>)
    ensures DailyTotal(Daily([], accounts, days), Debit) == DailyTotal(Daily([], accounts, days), Credit) == 0.0
  {
    if days != [] {
      NothingDaily(accounts, days[..|days| - 1]);
      DailyLast([], accounts, days);
    }
  }

  /** The daily rows of a period hold, in all, what the ledger holds for the accounts in it. */
  lemma {:induction false} DailyIsLedger(data: seq<Entry>, accounts: set<Account>, start: Date, end: Date)
    requires IsDate(start) && IsDate(end)
    ensures var rows := Daily(data, accounts, Days(start, end));
      && DailyTotal(rows, Debit) == LedgerDebit(data, accounts, start, end)
      && DailyTotal(rows, Credit) == LedgerCredit(data, accounts, start, end)
  {
    var days := Days(start, end);
    if data == [] {
      NothingDaily(accounts, days);
    } else {
      var rest, e := data[..|data| - 1], data[|data| - 1];
      DailyIsLedger(rest, accounts, start, end);
      assert rest + [e] == data;
      DailyGrows(rest, e, accounts, days);
      ListedOnce(start, end, e.date);
      TimesOneMore(0, e.debit);
      TimesOneMore(0, e.credit);
    }
  }

  /** What the ledger holds for the accounts on the days of the period that fall into a bucket. */
  function LedgerBucket(g: Grain, data: seq<Entry>, accounts: set<Account>, start: Date, end: Date, k: int): real {
    if data == [] then 0.0
    else
      var e := data[|data| - 1];
      LedgerBucket(g, data[..|data| - 1], accounts, start, end, k)
      + (if e.account in accounts && InPeriod(e.date, start, end) && KeyOf(g, e.date) == k then e.debit - e.credit
         else 0.0)
  }

  lemma {:induction false} BucketLast(g: Grain, data: seq<Entry>, accounts: set<Account>, days: seq<Date>, k: int)
    requires days != []
    ensures var n := |days| - 1;
            var rows, rest := Daily(data, accounts, days), Daily(data, accounts, days[..n]);
            var f := FiguresOn(data, accounts, days[n]);
            Bucket(g, rows, k, Debit) - Bucket(g, rows, k, Credit)
            == Bucket(g, rest, k, Debit) - Bucket(g, rest, k, Credit)
               + (if KeyOf(g, days[n]) == k then f.debit - f.credit else 0.0)
  {
    var n := |days| - 1;
    assert Daily(data, accounts, days)[..n] == Daily(data, accounts, days[..n]);
  }

  lemma {:induction false} BucketGrows(g: Grain, data: seq<Entry>, e: Entry, accounts: set<Account>, days: seq<Date>,
                                       k: int)
    ensures var n := if e.account in accounts && KeyOf(g, e.date) == k then Listed(days, e.date) else 0;
            var was, now := Daily(data, accounts, days), Daily(data + [e], accounts, days);
            Bucket(g, now, k, Debit) - Bucket(g, now, k, Credit)
            == Bucket(g, was, k, Debit) - Bucket(g, was, k, Credit) + Times(n, e.debit - e.credit)
  {
    var n := if e.account in accounts && KeyOf(g, e.date) == k then Listed(days, e.date) else 0;
    TimesOneMore(if n > 0 then n - 1 else 0, e.debit - e.credit);
    if days != [] {
      var last := |days| - 1;
      BucketGrows(g, data, e, accounts, days[..last], k);
      DayGrows(data, e, accounts, days[last]);
      BucketLast(g, data, accounts, days, k);
      BucketLast(g, data + [e], accounts, days, k);
    }
  }

  lemma {:induction false} NothingInBucket(g: Grain, accounts: set<Account>, days: seq<Date>, k: int)
    ensures var rows := Daily([], accounts, days); Bucket(g, rows, k, Debit) - Bucket(g, rows, k, Credit) == 0.0
  {
    if days != [] {
      NothingInBucket(g, accounts, days[..|days| - 1], k);
      BucketLast(g, [], accounts, days, k);
    }
  }

  /** A bucket's debit less its credit is what the ledger holds for the accounts on the days of the period that
      fall into it, and the coarse output lists the buckets from the start's on, one after the other. */
  lemma {:induction false} BucketIsLedger(g: Grain, data: seq<Entry>, accounts: set<Account>, start: Date, end: Date,
                                          i: nat)
    requires IsDate(start) && IsDate(end) && KeyOf(g, start) + i <= KeyOf(g, end)
    ensures var out := Coarse(g, Daily(data, accounts, Days(start, end)), KeyOf(g, start), KeyOf(g, end));
      && |out| == KeyOf(g, end) - KeyOf(g, start) + 1
      && out[i].debit - out[i].credit == LedgerBucket(g, data, accounts, start, end, KeyOf(g, start) + i)
  {
    var rows, lo, hi := Daily(data, accounts, Days(start, end)), KeyOf(g, start), KeyOf(g, end);
    CoarseAt(g, rows, lo, hi, i);
    BucketHolds(g, data, accounts, start, end, lo + i);
  }

  lemma {:induction false} CoarseAt(g: Grain, rows: seq<DayRow>, lo: int, hi: int, i: nat)
    requires lo + i <= hi
    ensures |Coarse(g, rows, lo, hi)| == hi - lo + 1
    ensures Coarse(g, rows, lo, hi)[i] == BucketFigures(g, rows, lo + i)
    decreases hi - lo
  {
    if lo < hi {
      CoarseAt(g, rows, lo, hi - 1, if lo + i < hi then i else 0);
    }
  }

  lemma {:induction false} BucketHolds(g: Grain, data: seq<Entry>, accounts: set<Account>, start: Date, end: Date,
                                       k: int)
    requires IsDate(start) && IsDate(end)
    ensures var rows := Daily(data, accounts, Days(start, end));
            Bucket(g, rows, k, Debit) - Bucket(g, rows, k, Credit) == LedgerBucket(g, data, accounts, start, end, k)
  {
    var days := Days(start, end);
    if data == [] {
      NothingInBucket(g, accounts, days, k);
    } else {
      var rest, e := data[..|data| - 1], data[|data| - 1];
      BucketHolds(g, rest, accounts, start, end, k);
      assert rest + [e] == data;
      BucketGrows(g, rest, e, accounts, days, k);
      ListedOnce(start, end, e.date);
      TimesOneMore(0, e.debit - e.credit);
    }
  }

  // ----- the loops -----

  method DatewiseData(data: seq<Entry>, accounts: set<Account>, start: Date, end: Date) returns (rows: seq<DayRow>)
    requires IsDate(start)
    ensures rows == Daily(data, accounts, Days(start, end))
  {
    rows := [];
    var date := start;
    ghost var seen: seq<Date> := [];
    while Rank(date) <= Rank(end)
      invariant IsDate(date)
      invariant seen + Days(date, end) == Days(start, end)
      invariant rows == Daily(data, accounts, seen)
      decreases Rank(end) - Rank(date)
    {
      assert (seen + [date])[..|seen|] == seen;
      rows := rows + [DayRow(date, FiguresOn(data, accounts, date))];
      assert seen + Days(date, end) == seen + [date] + Days(Next(date), end);
      seen := seen + [date];
      date := Next(date);
    }
    assert seen + [] == seen;
  }

  function PlusFigures(a: Figures, b: Figures): Figures {
    Figures(a.debit + b.debit, a.credit + b.credit, a.totalAmount + b.totalAmount)
  }

  /** The `reduce` by bucket key into an object. */
  method ReduceByKey(g: Grain, rows: seq<DayRow>) returns (result: map<int, Figures>)
    ensures forall k, c :: (if k in result then result[k].Get(c) else 0.0) == Bucket(g, rows, k, c)
  {
    result := map[];
    for i := 0 to |rows|
      invariant forall k, c :: (if k in result then result[k].Get(c) else 0.0) == Bucket(g, rows[..i], k, c)
    {
      assert rows[..i + 1][..i] == rows[..i];
      var dateKey := KeyOf(g, rows[i].date);
      var f := rows[i].figures;
      if dateKey in result {
        result := result[dateKey := PlusFigures(result[dateKey], f)];
      } else {
        result := result[dateKey := f];
      }
    }
    assert rows[..|rows|] == rows;
  }

  /** Buckets of the slice, laid out in order. */
  method AggregateAndSumByDate(g: Grain, data: seq<Entry>, accounts: set<Account>, start: Date, end: Date)
      returns (out: seq<Figures>)
    requires IsDate(start)
    ensures out == Coarse(g, Daily(data, accounts, Days(start, end)), KeyOf(g, start), KeyOf(g, end))
  {
    var rows := DatewiseData(data, accounts, start, end);
    var buckets := ReduceByKey(g, rows);
    var lo, hi := KeyOf(g, start), KeyOf(g, end);
    out := [];
    if hi < lo {
      return;
    }
    var k := lo;
    while k <= hi
      invariant lo <= k <= hi + 1
      invariant out == Coarse(g, rows, lo, k - 1)
    {
      var f := if k in buckets then buckets[k] else Figures(0.0, 0.0, 0.0);
      assert f.Get(Debit) == Bucket(g, rows, k, Debit) && f.Get(Credit) == Bucket(g, rows, k, Credit)
          && f.Get(TotalAmount) == Bucket(g, rows, k, TotalAmount);
      out := out + [f];
      k := k + 1;
    }
  }
}
