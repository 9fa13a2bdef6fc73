/** The account statement: an opening balance, then every posting of a date range with the balance after
    it. */
module AccountReport {
  import opened Ranges
  import opened VoucherLines
  import opened GeneralLedger
  import opened TrialBalance

  /** A stored voucher with its day. Vouchers are given in the order of their days. */
  datatype Dated = Dated(date: int, voucher: Voucher)

  /** A row of the statement: what one voucher books to the account on one side. */
  datatype Posting = Posting(date: int, side: Side, amount: real)

  datatype Statement = Statement(opening: real, postings: seq<Posting>, balances: seq<real>, totalDebit: real,
                                 totalCredit: real, closing: real)

  /** The `$match` on dates. */
  function OnDays(ds: seq<Dated>, from: Option<int>, to: Option<int>): seq<Dated> {
    if ds == [] then []
    else
      var d := ds[|ds| - 1];
      if Within(d.date, from, to) then OnDays(ds[..|ds| - 1], from, to) + [d] else OnDays(ds[..|ds| - 1], from, to)
  }

  function Vouchers(ds: seq<Dated>): seq<Voucher> {
    if ds == [] then [] else Vouchers(ds[..|ds| - 1]) + [ds[|ds| - 1].voucher]
  }

  function SideRow(d: Dated, a: Account, s: Side): seq<Posting> {
    if HasKey(d.voucher.lines, Key(a, s)) then [Posting(d.date, s, KeyTotal(d.voucher.lines, Key(a, s)))] else []
  }

  /** The rows of the statement: grouping by voucher and side leaves at most two to a voucher. */
  function Postings(ds: seq<Dated>, a: Account): seq<Posting> {
    if ds == [] then []
    else Postings(ds[..|ds| - 1], a) + SideRow(ds[|ds| - 1], a, DR) + SideRow(ds[|ds| - 1], a, CR)
  }

  function Signed(p: Posting): real {
    if p.side == DR then p.amount else -p.amount
  }

  function Movement(ps: seq<Posting>): real {
    if ps == [] then 0.0 else Movement(ps[..|ps| - 1]) + Signed(ps[|ps| - 1])
  }

  function SideSum(ps: seq<Posting>, s: Side): real {
    if ps == [] then 0.0
    else SideSum(ps[..|ps| - 1], s) + (if ps[|ps| - 1].side == s then ps[|ps| - 1].amount else 0.0)
  }

  /** The report, all rows on one page. The closing balance is the ledger's balance of the account over
      every voucher up to the end day. */
  method Report(ds: seq<Dated>, a: Account, start: int, end: int) returns (st: Statement)
    ensures st.opening == Balance(Vouchers(OnDays(ds, None, Some(start - 1))), a)
    ensures st.postings == Postings(OnDays(ds, Some(start), Some(end)), a) && |st.balances| == |st.postings|
    ensures forall i :: 0 <= i < |st.balances| ==> st.balances[i] == st.opening + Movement(st.postings[..i + 1])
    ensures st.totalDebit == SideSum(st.postings, DR) && st.totalCredit == SideSum(st.postings, CR)
    ensures st.closing == st.opening + st.totalDebit - st.totalCredit
    ensures start <= end + 1 ==> st.closing == Balance(Vouchers(OnDays(ds, None, Some(end))), a)
  {
    var openingBalance := Balance(Vouchers(OnDays(ds, None, Some(start - 1))), a);
    var docs := Postings(OnDays(ds, Some(start), Some(end)), a);
    var currentBalance, totalDebit, totalCredit := openingBalance, 0.0, 0.0;
    var balances: seq<real> := [];
    for i := 0 to |docs|
      invariant |balances| == i
      invariant currentBalance == openingBalance + Movement(docs[..i])
      invariant forall j :: 0 <= j < i ==> balances[j] == openingBalance + Movement(docs[..j + 1])
      invariant totalDebit == SideSum(docs[..i], DR) && totalCredit == SideSum(docs[..i], CR)
      invariant Movement(docs[..i]) == totalDebit - totalCredit
    {
      assert docs[..i + 1][..i] == docs[..i];
      var item := docs[i];
      if item.side == DR {
        currentBalance := currentBalance + item.amount;
        totalDebit := totalDebit + item.amount;
      } else {
        currentBalance := currentBalance - item.amount;
        totalCredit := totalCredit + item.amount;
      }
      balances := balances + [currentBalance];
    }
    assert docs[..|docs|] == docs;
    MovementIsBalance(OnDays(ds, Some(start), Some(end)), a);
    if start <= end + 1 {
      BalancesJoin(ds, a, None, start - 1, Some(end));
    }
    st := Statement(openingBalance, docs, balances, totalDebit, totalCredit, currentBalance);
  }

  lemma {:induction false} MovementConcat(ps: seq<Posting>, qs: seq<Posting>)
    ensures Movement(ps + qs) == Movement(ps) + Movement(qs)
  {
    if qs == [] {
      assert ps + qs == ps;
    } else {
      var n := |qs| - 1;
      MovementConcat(ps, qs[..n]);
      assert (ps + qs)[..|ps| + n] == ps + qs[..n];
    }
  }

  lemma {:induction false} SideRowMoves(d: Dated, a: Account, s: Side)
    ensures Movement(SideRow(d, a, s)) == (if s == DR then 1.0 else -1.0) * KeyTotal(d.voucher.lines, Key(a, s))
  {
    if HasKey(d.voucher.lines, Key(a, s)) {
      var row := Posting(d.date, s, KeyTotal(d.voucher.lines, Key(a, s)));
      assert [row][..0] == [];
    } else {
      AbsentKeyTotal(d.voucher.lines, Key(a, s));
    }
  }

  /** The rows of the statement move the account by what its vouchers book to it. */
  lemma {:induction false} MovementIsBalance(ds: seq<Dated>, a: Account)
    ensures Movement(Postings(ds, a)) == Balance(Vouchers(ds), a)
  {
    if ds != [] {
      var rest, d := ds[..|ds| - 1], ds[|ds| - 1];
      MovementIsBalance(rest, a);
      MovementConcat(Postings(rest, a), SideRow(d, a, DR));
      MovementConcat(Postings(rest, a) + SideRow(d, a, DR), SideRow(d, a, CR));
      SideRowMoves(d, a, DR);
      SideRowMoves(d, a, CR);
      BookedSnoc(Vouchers(rest), d.voucher, Key(a, DR));
      BookedSnoc(Vouchers(rest), d.voucher, Key(a, CR));
    }
  }

  lemma {:induction false} SideSumConcat(ps: seq<Posting>, qs: seq<Posting>, s: Side)
    ensures SideSum(ps + qs, s) == SideSum(ps, s) + SideSum(qs, s)
  {
    if qs == [] {
      assert ps + qs == ps;
    } else {
      var n := |qs| - 1;
      SideSumConcat(ps, qs[..n], s);
      assert (ps + qs)[..|ps| + n] == ps + qs[..n];
    }
  }

  lemma {:induction false} SideRowSum(d: Dated, a: Account, t: Side, s: Side)
    ensures SideSum(SideRow(d, a, t), s) == if t == s then KeyTotal(d.voucher.lines, Key(a, t)) else 0.0
  {
    if HasKey(d.voucher.lines, Key(a, t)) {
      var row := Posting(d.date, t, KeyTotal(d.voucher.lines, Key(a, t)));
      assert [row][..0] == [];
    } else {
      AbsentKeyTotal(d.voucher.lines, Key(a, t));
    }
  }

  /** The totals of a statement are what the vouchers of its days book to either side of the account. */
  lemma {:induction false} TotalsAreBooked(ds: seq<Dated>, a: Account, from: Option<int>, to: Option<int>, s: Side)
    ensures SideSum(Postings(OnDays(ds, from, to), a), s) == RangeSum(ds, DayOf(), BookedTo(Key(a, s)), from, to)
  {
    RangeIsBooked(ds, from, to, Key(a, s));
    SideSumIsBooked(OnDays(ds, from, to), a, s);
  }

  lemma {:induction false} SideSumIsBooked(ds: seq<Dated>, a: Account, s: Side)
    ensures SideSum(Postings(ds, a), s) == Booked(Vouchers(ds), Key(a, s))
  {
    if ds != [] {
      var rest, d := ds[..|ds| - 1], ds[|ds| - 1];
      SideSumIsBooked(rest, a, s);
      SideSumConcat(Postings(rest, a), SideRow(d, a, DR), s);
      SideSumConcat(Postings(rest, a) + SideRow(d, a, DR), SideRow(d, a, CR), s);
      SideRowSum(d, a, DR, s);
      SideRowSum(d, a, CR, s);
      BookedSnoc(Vouchers(rest), d.voucher, Key(a, s));
    }
  }

  /** The vouchers come in the order of their days. */
  predicate InOrder(ds: seq<Dated>) {
    forall i, j :: 0 <= i < j < |ds| ==> ds[i].date <= ds[j].date
  }

  /** Some voucher of the row's day books its amount to the account on its side. */
  ghost predicate ComesFrom(ds: seq<Dated>, a: Account, p: Posting) {
    exists j :: 0 <= j < |ds| && ds[j].date == p.date && HasKey(ds[j].voucher.lines, Key(a, p.side))
                && KeyTotal(ds[j].voucher.lines, Key(a, p.side)) == p.amount
  }

  lemma {:induction false} ComesFromSnoc(ds: seq<Dated>, d: Dated, a: Account, p: Posting)
    requires ComesFrom(ds, a, p)
      || (d.date == p.date && HasKey(d.voucher.lines, Key(a, p.side))
          && KeyTotal(d.voucher.lines, Key(a, p.side)) == p.amount)
    ensures ComesFrom(ds + [d], a, p)
  {
    var all := ds + [d];
    assert all[|ds|] == d;
    if ComesFrom(ds, a, p) {
      var j :| 0 <= j < |ds| && ds[j].date == p.date && HasKey(ds[j].voucher.lines, Key(a, p.side))
        && KeyTotal(ds[j].voucher.lines, Key(a, p.side)) == p.amount;
      assert all[j] == ds[j];
    }
  }

  /** The rows of a statement follow the days of their vouchers, each with what one voucher of its day books to
      the account on its side. */
  lemma {:induction false} PostingsFollow(ds: seq<Dated>, a: Account)
    requires InOrder(ds)
    ensures forall i :: 0 <= i < |Postings(ds, a)| ==> ComesFrom(ds, a, Postings(ds, a)[i])
    ensures forall i, j :: 0 <= i < j < |Postings(ds, a)| ==> Postings(ds, a)[i].date <= Postings(ds, a)[j].date
  {
    if ds != [] {
      var n := |ds| - 1;
      var before, all, d := Postings(ds[..n], a), Postings(ds, a), ds[n];
      PostingsFollow(ds[..n], a);
      assert ds[..n] + [d] == ds;
      forall i | 0 <= i < |all|
        ensures ComesFrom(ds, a, all[i])
        ensures if i < |before| then all[i] == before[i] && all[i].date <= d.date else all[i].date == d.date
      {
        if i < |before| {
          assert all[i] == before[i] && ComesFrom(ds[..n], a, before[i]);
        } else {
          assert all[i] in SideRow(d, a, DR) + SideRow(d, a, CR);
        }
        ComesFromSnoc(ds[..n], d, a, all[i]);
      }
    }
  }

  function DayOf(): Dated -> int {
    (d: Dated) => d.date
  }

  function BookedTo(k: LineKey): Dated -> real {
    (d: Dated) => KeyTotal(d.voucher.lines, k)
  }

  lemma {:induction false} RangeIsBooked(ds: seq<Dated>, from: Option<int>, to: Option<int>, k: LineKey)
    ensures RangeSum(ds, DayOf(), BookedTo(k), from, to) == Booked(Vouchers(OnDays(ds, from, to)), k)
  {
    if ds != [] {
      var rest := OnDays(ds[..|ds| - 1], from, to);
      RangeIsBooked(ds[..|ds| - 1], from, to, k);
      BookedSnoc(Vouchers(rest), ds[|ds| - 1].voucher, k);
      assert (rest + [ds[|ds| - 1]])[..|rest|] == rest;
    }
  }

  /** Balances over adjoining date ranges add up, so a closing balance is the next opening balance. */
  lemma {:induction false} BalancesJoin(ds: seq<Dated>, a: Account, from: Option<int>, mid: int, to: Option<int>)
    requires (from.Some? ==> from.value <= mid + 1) && (to.Some? ==> mid <= to.value)
    ensures Balance(Vouchers(OnDays(ds, from, to)), a)
         == Balance(Vouchers(OnDays(ds, from, Some(mid))), a) + Balance(Vouchers(OnDays(ds, Some(mid + 1), to)), a)
  {
    forall s ensures Booked(Vouchers(OnDays(ds, from, to)), Key(a, s))
        == Booked(Vouchers(OnDays(ds, from, Some(mid))), Key(a, s))
            + Booked(Vouchers(OnDays(ds, Some(mid + 1), to)), Key(a, s)) {
      RangesAdjoin(ds, DayOf(), BookedTo(Key(a, s)), from, mid, to);
      RangeIsBooked(ds, from, to, Key(a, s));
      RangeIsBooked(ds, from, Some(mid), Key(a, s));
      RangeIsBooked(ds, Some(mid + 1), to, Key(a, s));
    }
  }
}
