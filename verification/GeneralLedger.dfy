/** The books: chart of accounts, stored vouchers, and the per-account balance index, which caches the
    vouchers' totals and can be rebuilt from them. */
module GeneralLedger {
  import opened Rounding
  import opened VoucherLines
  import opened VoucherPipeline

  datatype Row = Row(debit: real, credit: real, balance: real)

  /** A stored voucher; vouchers are named by their position. */
  datatype Voucher = Voucher(lines: seq<Line>, year: int, period: int, isReversed: bool, reversedVoucher: Option<nat>)

  datatype Books = Books(chart: map<Account, int>, index: map<Account, Row>, vouchers: seq<Voucher>)

  datatype Op =
    | OpenAccount(id: Account, glNumber: int)
    | Create(lines: seq<Line>, tb: TaxBook, year: int, period: int, approved: bool)
    | Reverse(voucher: nat, tb: TaxBook, year: int, period: int)
    | Rebuild

  datatype Reply = Done | Stored(id: nat) | Rejected(why: Refusal) | NotFound | AlreadyReversed | NumberTaken

  const NO_BOOKS := Books(map[], map[], [])

  // ----- the balance index -----

  function AddToRow(r: Row, l: Line): Row {
    var credit := r.credit + (if l.side == CR then l.amount else 0.0);
    var debit := r.debit + (if l.side == DR then l.amount else 0.0);
    Row(debit, credit, debit - credit)
  }

  /** Lines before the first one whose account has no row; posting stops there, because the failed
      look-up throws into the surrounding `catch`. */
  function PostedCount(accounts: set<Account>, lines: seq<Line>): (n: nat)
    ensures n <= |lines|
  {
    if lines == [] then 0
    else if lines[0].account !in accounts then 0
    else 1 + PostedCount(accounts, lines[1..])
  }

  lemma {:induction false} PostedCountMeans(accounts: set<Account>, lines: seq<Line>)
    ensures forall i :: 0 <= i < PostedCount(accounts, lines) ==> lines[i].account in accounts
    ensures PostedCount(accounts, lines) < |lines| ==> lines[PostedCount(accounts, lines)].account !in accounts
  {
    if lines != [] && lines[0].account in accounts {
      PostedCountMeans(accounts, lines[1..]);
      assert forall i :: 1 <= i < |lines| ==> lines[i] == lines[1..][i - 1];
    }
  }

  function PostAll(index: map<Account, Row>, lines: seq<Line>): (r: map<Account, Row>)
    requires forall i :: 0 <= i < |lines| ==> lines[i].account in index
    ensures r.Keys == index.Keys
  {
    if lines == [] then index
    else
      var r, l := PostAll(index, lines[..|lines| - 1]), lines[|lines| - 1];
      r[l.account := AddToRow(r[l.account], l)]
  }

  function Post(index: map<Account, Row>, lines: seq<Line>): map<Account, Row> {
    PostedCountMeans(index.Keys, lines);
    PostAll(index, lines[..PostedCount(index.Keys, lines)])
  }

  function IndexTotal(index: map<Account, Row>, k: LineKey): real {
    if k.account !in index then 0.0
    else if k.side == DR then index[k.account].debit
    else index[k.account].credit
  }

  predicate RowsConsistent(index: map<Account, Row>) {
    forall a :: a in index ==> index[a].balance == index[a].debit - index[a].credit
  }

  // ----- the ledger proper -----

  function Booked(vouchers: seq<Voucher>, k: LineKey): real {
    if vouchers == [] then 0.0
    else Booked(vouchers[..|vouchers| - 1], k) + KeyTotal(vouchers[|vouchers| - 1].lines, k)
  }

  function AccountsOf(lines: seq<Line>): set<Account> {
    set i | 0 <= i < |lines| :: lines[i].account
  }

  function AccountsUsed(vouchers: seq<Voucher>): set<Account> {
    if vouchers == [] then {}
    else AccountsUsed(vouchers[..|vouchers| - 1]) + AccountsOf(vouchers[|vouchers| - 1].lines)
  }

  function RowFor(vouchers: seq<Voucher>, a: Account): Row {
    var debit, credit := Booked(vouchers, Key(a, DR)), Booked(vouchers, Key(a, CR));
    Row(debit, credit, debit - credit)
  }

  function Rebuilt(b: Books): map<Account, Row> {
    map a | a in AccountsUsed(b.vouchers) + b.chart.Keys :: RowFor(b.vouchers, a)
  }

  function Flipped(lines: seq<Line>): (f: seq<Line>)
    ensures |f| == |lines|
    ensures forall i :: 0 <= i < |lines| ==> f[i] == lines[i].(side := lines[i].side.Flip())
  {
    if lines == [] then []
    else Flipped(lines[..|lines| - 1]) + [lines[|lines| - 1].(side := lines[|lines| - 1].side.Flip())]
  }

  function Step(b: Books, op: Op): (Books, Reply) {
    match op
    case OpenAccount(id, glNumber) =>
      if glNumber in b.chart.Values then (b, NumberTaken)
      else (b.(chart := b.chart[id := glNumber],
               index := if id in b.index then b.index else b.index[id := Row(0.0, 0.0, 0.0)]), Done)
    case Create(lines, tb, year, period, approved) =>
      (match Prepare(lines, tb)
       case Refused(why) => (b, Rejected(why))
       case Accepted(stored, posted) =>
         (b.(index := if approved then Post(b.index, posted) else b.index,
             vouchers := b.vouchers + [Voucher(stored, year, period, false, None)]), Stored(|b.vouchers|)))
    case Reverse(id, tb, year, period) =>
      if id >= |b.vouchers| then (b, NotFound)
      else if b.vouchers[id].isReversed then (b, AlreadyReversed)
      else
        (match Prepare(Flipped(b.vouchers[id].lines), tb)
         case Refused(why) => (b, Rejected(why))
         case Accepted(stored, posted) =>
           (b.(vouchers := b.vouchers[id := b.vouchers[id].(isReversed := true)]
                           + [Voucher(stored, year, period, false, Some(id))]), Stored(|b.vouchers|)))
    case Rebuild => (b.(index := Rebuilt(b)), Done)
  }

  function Run(b: Books, ops: seq<Op>): Books {
    if ops == [] then b else Step(Run(b, ops[..|ops| - 1]), ops[|ops| - 1]).0
  }

  // ----- the index refines the ledger -----

  /** The lines one step books without posting them: the tax lines, which the split books but the posted
      list lacks; the lines behind an account without a row; everything when the request is not marked
      approved, as for every reversal. */
  function NewUnposted(b: Books, op: Op): seq<Line> {
    match op
    case OpenAccount(_, _) => []
    case Create(lines, tb, _, _, approved) =>
      (match Prepare(lines, tb)
       case Refused(_) => []
       case Accepted(stored, posted) =>
         if approved then TaxPart(Positive(lines), tb) + posted[PostedCount(b.index.Keys, posted)..] else stored)
    case Reverse(id, tb, _, _) =>
      if id >= |b.vouchers| || b.vouchers[id].isReversed then []
      else
        (match Prepare(Flipped(b.vouchers[id].lines), tb)
         case Refused(_) => []
         case Accepted(stored, _) => stored)
    case Rebuild => []
  }

  /** Everything unposted since the last rebuild. */
  function Unposted(b: Books, ops: seq<Op>): seq<Line> {
    if ops == [] then []
    else if ops[|ops| - 1].Rebuild? then []
    else Unposted(b, ops[..|ops| - 1]) + NewUnposted(Run(b, ops[..|ops| - 1]), ops[|ops| - 1])
  }

  ghost predicate Exact(b: Books) {
    forall k :: IndexTotal(b.index, k) == Booked(b.vouchers, k)
  }

  lemma {:induction false} PostAllAdds(index: map<Account, Row>, lines: seq<Line>, k: LineKey)
    requires forall i :: 0 <= i < |lines| ==> lines[i].account in index
    ensures IndexTotal(PostAll(index, lines), k) == IndexTotal(index, k) + KeyTotal(lines, k)
  {
    if lines != [] {
      PostAllAdds(index, lines[..|lines| - 1], k);
    }
  }

  lemma {:induction false} BookedSnoc(vouchers: seq<Voucher>, v: Voucher, k: LineKey)
    ensures Booked(vouchers + [v], k) == Booked(vouchers, k) + KeyTotal(v.lines, k)
  {
    assert (vouchers + [v])[..|vouchers|] == vouchers;
  }

  /** Marking a voucher as reversed changes no total. */
  lemma {:induction false} BookedMarked(vouchers: seq<Voucher>, i: nat, k: LineKey)
    requires i < |vouchers|
    ensures Booked(vouchers[i := vouchers[i].(isReversed := true)], k) == Booked(vouchers, k)
  {
    var n := |vouchers| - 1;
    var marked := vouchers[i := vouchers[i].(isReversed := true)];
    if i == n {
      assert marked[..n] == vouchers[..n];
    } else {
      assert marked[..n] == vouchers[..n][i := vouchers[i].(isReversed := true)];
      BookedMarked(vouchers[..n], i, k);
    }
  }

  lemma {:induction false} BookedUnused(vouchers: seq<Voucher>, k: LineKey)
    requires k.account !in AccountsUsed(vouchers)
    ensures Booked(vouchers, k) == 0.0
  {
    if vouchers != [] {
      BookedUnused(vouchers[..|vouchers| - 1], k);
      AbsentKeyTotal(vouchers[|vouchers| - 1].lines, k);
    }
  }

  /** A rebuild makes the index exact whatever it held before. */
  lemma {:induction false} RebuildRestores(b: Books)
    ensures Exact(b.(index := Rebuilt(b))) && RowsConsistent(Rebuilt(b))
  {
    forall k ensures IndexTotal(Rebuilt(b), k) == Booked(b.vouchers, k) {
      if k.account !in Rebuilt(b) {
        BookedUnused(b.vouchers, k);
      }
    }
  }

  /** On an exact, consistent index over the same accounts a rebuild changes nothing. */
  lemma {:induction false} RebuildIdentity(b: Books)
    requires Exact(b) && RowsConsistent(b.index)
    requires b.index.Keys == AccountsUsed(b.vouchers) + b.chart.Keys
    ensures Rebuilt(b) == b.index
  {
    forall a | a in b.index ensures Rebuilt(b)[a] == b.index[a] {
      assert IndexTotal(b.index, Key(a, DR)) == Booked(b.vouchers, Key(a, DR));
      assert IndexTotal(b.index, Key(a, CR)) == Booked(b.vouchers, Key(a, CR));
    }
  }

  lemma {:induction false} PostAdds(index: map<Account, Row>, lines: seq<Line>, k: LineKey)
    ensures IndexTotal(Post(index, lines), k)
         == IndexTotal(index, k) + KeyTotal(lines, k) - KeyTotal(lines[PostedCount(index.Keys, lines)..], k)
  {
    var n := PostedCount(index.Keys, lines);
    PostedCountMeans(index.Keys, lines);
    PostAllAdds(index, lines[..n], k);
    KeyTotalConcat(lines[..n], lines[n..], k);
    assert lines[..n] + lines[n..] == lines;
  }

  lemma {:induction false} CreateGap(b: Books, op: Op, k: LineKey)
    requires op.Create? && Prepare(op.lines, op.tb).Accepted?
    ensures Booked(Step(b, op).0.vouchers, k) - IndexTotal(Step(b, op).0.index, k)
         == Booked(b.vouchers, k) - IndexTotal(b.index, k) + KeyTotal(NewUnposted(b, op), k)
  {
    var out := Prepare(op.lines, op.tb);
    var tax, rest := TaxPart(Positive(op.lines), op.tb), out.posted[PostedCount(b.index.Keys, out.posted)..];
    BookedSnoc(b.vouchers, Voucher(out.stored, op.year, op.period, false, None), k);
    assert KeyTotal(out.stored, k) == KeyTotal(out.posted, k) + KeyTotal(tax, k)
        by { CreateKeyTotals(op.lines, op.tb, k); }
    assert KeyTotal(tax + rest, k) == KeyTotal(tax, k) + KeyTotal(rest, k) by { KeyTotalConcat(tax, rest, k); }
    PostAdds(b.index, out.posted, k);
  }

  lemma {:induction false} ReverseGap(b: Books, op: Op, k: LineKey)
    requires op.Reverse? && op.voucher < |b.vouchers| && !b.vouchers[op.voucher].isReversed
    requires Prepare(Flipped(b.vouchers[op.voucher].lines), op.tb).Accepted?
    ensures Booked(Step(b, op).0.vouchers, k) == Booked(b.vouchers, k) + KeyTotal(NewUnposted(b, op), k)
  {
    var stored := Prepare(Flipped(b.vouchers[op.voucher].lines), op.tb).stored;
    var marked := b.vouchers[op.voucher := b.vouchers[op.voucher].(isReversed := true)];
    BookedMarked(b.vouchers, op.voucher, k);
    BookedSnoc(marked, Voucher(stored, op.year, op.period, false, Some(op.voucher)), k);
  }

  /** One step moves the ledger and the index apart by exactly the lines it leaves unposted. */
  lemma {:induction false} StepGap(b: Books, op: Op, k: LineKey)
    requires !op.Rebuild?
    ensures Booked(Step(b, op).0.vouchers, k) - IndexTotal(Step(b, op).0.index, k)
         == Booked(b.vouchers, k) - IndexTotal(b.index, k) + KeyTotal(NewUnposted(b, op), k)
  {
    if op.Create? && Prepare(op.lines, op.tb).Accepted? {
      CreateGap(b, op, k);
    } else if op.Reverse? && op.voucher < |b.vouchers| && !b.vouchers[op.voucher].isReversed
           && Prepare(Flipped(b.vouchers[op.voucher].lines), op.tb).Accepted? {
      ReverseGap(b, op, k);
    }
  }

  /** Over every run, each account's ledger totals are its index row plus exactly what was left unposted
      since the last rebuild. */
  lemma {:induction false} IndexRefinesLedger(b: Books, ops: seq<Op>, k: LineKey)
    requires Exact(b)
    ensures Booked(Run(b, ops).vouchers, k) == IndexTotal(Run(b, ops).index, k) + KeyTotal(Unposted(b, ops), k)
  {
    if ops != [] {
      var op, before := ops[|ops| - 1], Run(b, ops[..|ops| - 1]);
      if op.Rebuild? {
        RebuildRestores(before);
      } else {
        IndexRefinesLedger(b, ops[..|ops| - 1], k);
        StepGap(before, op, k);
        KeyTotalConcat(Unposted(b, ops[..|ops| - 1]), NewUnposted(before, op), k);
      }
    }
  }

  /** The tax lines the accepted creations of the run booked. */
  function TaxBooked(ops: seq<Op>): seq<Line> {
    if ops == [] then []
    else
      var op := ops[|ops| - 1];
      TaxBooked(ops[..|ops| - 1])
      + (if op.Create? && Prepare(op.lines, op.tb).Accepted? then TaxPart(Positive(op.lines), op.tb) else [])
  }

  /** Step n of the run opens an account, or creates an approved voucher on accounts that have rows. */
  ghost predicate Orderly(b: Books, ops: seq<Op>) {
    forall n {:trigger ops[n]} :: 0 <= n < |ops| ==>
      || ops[n].OpenAccount?
      || (ops[n].Create? && ops[n].approved && AccountsOf(ops[n].lines) <= Run(b, ops[..n]).index.Keys)
  }

  lemma {:induction false} NettedAt(lines: seq<Line>, tb: TaxBook, i: nat)
    requires i < |lines|
    ensures Netted(lines, tb)[i] == NetLine(lines[i], tb)
  {
    if i < |lines| - 1 {
      NettedAt(lines[..|lines| - 1], tb, i);
    }
  }

  lemma {:induction false} PositiveAccount(lines: seq<Line>, i: nat)
    requires i < |Positive(lines)|
    ensures Positive(lines)[i].account in AccountsOf(lines)
  {
    var rest := lines[..|lines| - 1];
    if i < |Positive(rest)| {
      PositiveAccount(rest, i);
      var j :| 0 <= j < |rest| && rest[j].account == Positive(rest)[i].account;
      assert lines[j] == rest[j];
    }
  }

  lemma {:induction false} NettedAccounts(lines: seq<Line>, tb: TaxBook, accounts: set<Account>)
    requires AccountsOf(lines) <= accounts
    ensures forall i :: 0 <= i < |Positive(lines)| ==> Netted(Positive(lines), tb)[i].account in accounts
  {
    forall i | 0 <= i < |Positive(lines)| ensures Netted(Positive(lines), tb)[i].account in accounts {
      NettedAt(Positive(lines), tb, i);
      PositiveAccount(lines, i);
    }
  }

  lemma {:induction false} OrderlyCreateUnposted(b: Books, op: Op)
    requires op.Create? && op.approved && Prepare(op.lines, op.tb).Accepted?
    requires AccountsOf(op.lines) <= b.index.Keys
    ensures NewUnposted(b, op) == TaxPart(Positive(op.lines), op.tb)
  {
    var posted, tax := Prepare(op.lines, op.tb).posted, TaxPart(Positive(op.lines), op.tb);
    NettedAccounts(op.lines, op.tb, b.index.Keys);
    PostedCountMeans(b.index.Keys, posted);
    assert PostedCount(b.index.Keys, posted) == |posted|;
    assert posted[|posted|..] == [];
    assert tax + [] == tax;
  }

  lemma {:induction false} OrderlyPrefix(b: Books, ops: seq<Op>, m: nat)
    requires Orderly(b, ops) && m <= |ops|
    ensures Orderly(b, ops[..m])
  {
    forall n {:trigger ops[..m][n]} | 0 <= n < m
      ensures ops[..m][n] == ops[n] && ops[..m][..n] == ops[..n]
    {
    }
  }

  lemma {:induction false} OrderlyUnposted(b: Books, ops: seq<Op>)
    requires Orderly(b, ops)
    ensures Unposted(b, ops) == TaxBooked(ops)
  {
    if ops != [] {
      var m := |ops| - 1;
      OrderlyPrefix(b, ops, m);
      OrderlyUnposted(b, ops[..m]);
      var op, before := ops[m], Run(b, ops[..m]);
      if op.Create? && Prepare(op.lines, op.tb).Accepted? {
        OrderlyCreateUnposted(before, op);
      }
    }
  }

  /** In an orderly run only tax lines go unposted, so the index is exact on every key no tax line hits,
      and on all of them exactly when the run booked none. */
  lemma {:induction false} OrderlyRunMissesTaxOnly(b: Books, ops: seq<Op>)
    requires Exact(b) && Orderly(b, ops)
    ensures forall k :: Booked(Run(b, ops).vouchers, k)
              == IndexTotal(Run(b, ops).index, k) + KeyTotal(TaxBooked(ops), k)
    ensures Exact(Run(b, ops)) <==> TaxBooked(ops) == []
  {
    OrderlyUnposted(b, ops);
    forall k ensures Booked(Run(b, ops).vouchers, k) == IndexTotal(Run(b, ops).index, k) + KeyTotal(TaxBooked(ops), k) {
      IndexRefinesLedger(b, ops, k);
    }
    if TaxBooked(ops) != [] {
      TaxBookedPositive(ops);
      PositiveKeyTotal(TaxBooked(ops));
    }
  }

  lemma {:induction false} TaxPartPositive(lines: seq<Line>, tb: TaxBook)
    requires AllPositive(lines)
    ensures AllPositive(TaxPart(lines, tb))
  {
    if lines != [] {
      var l := lines[|lines| - 1];
      TaxPartPositive(lines[..|lines| - 1], tb);
      if IsSplit(l, tb) {
        TaxSplits(l.amount, tb.rates[l.tax.value]);
      }
    }
  }

  lemma {:induction false} TaxBookedPositive(ops: seq<Op>)
    ensures AllPositive(TaxBooked(ops))
  {
    if ops != [] {
      var op := ops[|ops| - 1];
      TaxBookedPositive(ops[..|ops| - 1]);
      if op.Create? && Prepare(op.lines, op.tb).Accepted? {
        TaxPartPositive(Positive(op.lines), op.tb);
      }
    }
  }

  lemma {:induction false} NettedPositive(lines: seq<Line>, tb: TaxBook)
    requires AllPositive(lines)
    ensures AllPositive(Netted(lines, tb))
  {
    if lines != [] {
      var l := lines[|lines| - 1];
      NettedPositive(lines[..|lines| - 1], tb);
      if IsSplit(l, tb) {
        TaxSplits(l.amount, tb.rates[l.tax.value]);
      }
    }
  }

  lemma {:induction false} NewUnpostedPositive(b: Books, op: Op)
    ensures AllPositive(NewUnposted(b, op))
  {
    if op.Create? && Prepare(op.lines, op.tb).Accepted? {
      if op.approved {
        TaxPartPositive(Positive(op.lines), op.tb);
        NettedPositive(Positive(op.lines), op.tb);
      } else {
        var first := CreateKeepsMeaning(op.lines, op.tb);
      }
    } else if op.Reverse? && op.voucher < |b.vouchers| && !b.vouchers[op.voucher].isReversed
           && Prepare(Flipped(b.vouchers[op.voucher].lines), op.tb).Accepted? {
      var first := CreateKeepsMeaning(Flipped(b.vouchers[op.voucher].lines), op.tb);
    }
  }

  lemma {:induction false} UnpostedPositive(b: Books, ops: seq<Op>)
    ensures AllPositive(Unposted(b, ops))
  {
    if ops != [] && !ops[|ops| - 1].Rebuild? {
      UnpostedPositive(b, ops[..|ops| - 1]);
      NewUnpostedPositive(Run(b, ops[..|ops| - 1]), ops[|ops| - 1]);
    }
  }

  /** Over every run the index is exact at the end if and only if nothing was left unposted since the last
      rebuild: no tax line, no line behind an account without a row, no unapproved voucher, no reversal. */
  lemma {:induction false} ExactIffAllPosted(b: Books, ops: seq<Op>)
    requires Exact(b)
    ensures Exact(Run(b, ops)) <==> Unposted(b, ops) == []
  {
    forall k ensures Booked(Run(b, ops).vouchers, k)
        == IndexTotal(Run(b, ops).index, k) + KeyTotal(Unposted(b, ops), k) {
      IndexRefinesLedger(b, ops, k);
    }
    if Unposted(b, ops) != [] {
      UnpostedPositive(b, ops);
      PositiveKeyTotal(Unposted(b, ops));
    }
  }

  lemma {:induction false} PositiveKeyTotal(lines: seq<Line>)
    requires AllPositive(lines) && lines != []
    ensures KeyTotal(lines, lines[|lines| - 1].Key()) > 0.0
  {
    TotalsNonNegative(lines[..|lines| - 1], lines[|lines| - 1].Key(), DR);
  }

  // ----- every stored voucher balances, and none is reversed twice -----

  /** What `create` guarantees of the lines it stores. */
  ghost predicate WellStored(v: Voucher) {
    && AllPositive(v.lines) && DistinctKeys(v.lines)
    && Round(SideTotal(v.lines, DR), Cents) == Round(SideTotal(v.lines, CR), Cents) != 0.0
    && Abs(Imbalance(v.lines)) <= 0.01
  }

  function Reversals(vouchers: seq<Voucher>, id: nat): nat {
    if vouchers == [] then 0
    else Reversals(vouchers[..|vouchers| - 1], id)
         + (if vouchers[|vouchers| - 1].reversedVoucher == Some(id) then 1 else 0)
  }

  lemma {:induction false} ReversalsMarked(vouchers: seq<Voucher>, i: nat, id: nat)
    requires i < |vouchers|
    ensures Reversals(vouchers[i := vouchers[i].(isReversed := true)], id) == Reversals(vouchers, id)
  {
    var n := |vouchers| - 1;
    var marked := vouchers[i := vouchers[i].(isReversed := true)];
    if i == n {
      assert marked[..n] == vouchers[..n];
    } else {
      assert marked[..n] == vouchers[..n][i := vouchers[i].(isReversed := true)];
      ReversalsMarked(vouchers[..n], i, id);
    }
  }

  lemma {:induction false} ReversalsSnoc(vouchers: seq<Voucher>, v: Voucher, id: nat)
    ensures Reversals(vouchers + [v], id) == Reversals(vouchers, id) + (if v.reversedVoucher == Some(id) then 1 else 0)
  {
    assert (vouchers + [v])[..|vouchers|] == vouchers;
  }

  lemma {:induction false} ReversalsStep(vouchers: seq<Voucher>, i: nat, v: Voucher, id: nat)
    requires i < |vouchers| && v.reversedVoucher == Some(i)
    ensures Reversals(vouchers[i := vouchers[i].(isReversed := true)] + [v], id)
         == Reversals(vouchers, id) + (if id == i then 1 else 0)
  {
    ReversalsMarked(vouchers, i, id);
    ReversalsSnoc(vouchers[i := vouchers[i].(isReversed := true)], v, id);
  }

  ghost predicate Sound(b: Books) {
    && (forall i :: 0 <= i < |b.vouchers| ==> WellStored(b.vouchers[i]))
    && (forall id: nat :: Reversals(b.vouchers, id) == if id < |b.vouchers| && b.vouchers[id].isReversed then 1 else 0)
    && RowsConsistent(b.index)
  }

  lemma {:induction false} PostAllConsistent(index: map<Account, Row>, lines: seq<Line>)
    requires forall i :: 0 <= i < |lines| ==> lines[i].account in index
    requires RowsConsistent(index)
    ensures RowsConsistent(PostAll(index, lines))
  {
    if lines != [] {
      PostAllConsistent(index, lines[..|lines| - 1]);
    }
  }

  lemma {:induction false} AcceptedWellStored(lines: seq<Line>, tb: TaxBook, v: Voucher)
    requires Prepare(lines, tb).Accepted? && v.lines == Prepare(lines, tb).stored
    ensures WellStored(v)
  {
    var first := CreateKeepsMeaning(lines, tb);
  }

  lemma {:induction false} CreateSound(b: Books, op: Op)
    requires Sound(b) && op.Create? && Prepare(op.lines, op.tb).Accepted?
    ensures Sound(Step(b, op).0)
  {
    var Accepted(stored, posted) := Prepare(op.lines, op.tb);
    var v := Voucher(stored, op.year, op.period, false, None);
    AcceptedWellStored(op.lines, op.tb, v);
    PostConsistent(b.index, posted);
    forall j | 0 <= j <= |b.vouchers| ensures WellStored((b.vouchers + [v])[j]) {
      if j < |b.vouchers| {
        assert (b.vouchers + [v])[j] == b.vouchers[j];
      }
    }
    forall id: nat ensures Reversals(b.vouchers + [v], id) == Reversals(b.vouchers, id) {
      ReversalsSnoc(b.vouchers, v, id);
    }
  }

  lemma {:induction false} PostConsistent(index: map<Account, Row>, lines: seq<Line>)
    requires RowsConsistent(index)
    ensures RowsConsistent(Post(index, lines))
  {
    PostedCountMeans(index.Keys, lines);
    PostAllConsistent(index, lines[..PostedCount(index.Keys, lines)]);
  }

  lemma {:induction false} ReverseSound(b: Books, op: Op)
    requires Sound(b) && op.Reverse? && op.voucher < |b.vouchers| && !b.vouchers[op.voucher].isReversed
    requires Prepare(Flipped(b.vouchers[op.voucher].lines), op.tb).Accepted?
    ensures Sound(Step(b, op).0)
  {
    var i := op.voucher;
    var stored := Prepare(Flipped(b.vouchers[i].lines), op.tb).stored;
    var v := Voucher(stored, op.year, op.period, false, Some(i));
    AcceptedWellStored(Flipped(b.vouchers[i].lines), op.tb, v);
    var marked := b.vouchers[i := b.vouchers[i].(isReversed := true)];
    assert Step(b, op).0.vouchers == marked + [v];
    forall j | 0 <= j <= |marked| ensures WellStored((marked + [v])[j]) {
      if j < |marked| {
        assert (marked + [v])[j].lines == b.vouchers[j].lines;
      }
    }
    forall id: nat ensures Reversals(marked + [v], id) == Reversals(b.vouchers, id) + (if id == i then 1 else 0) {
      ReversalsStep(b.vouchers, i, v, id);
    }
  }

  lemma {:induction false} StepSound(b: Books, op: Op)
    requires Sound(b)
    ensures Sound(Step(b, op).0)
  {
    if op.Create? && Prepare(op.lines, op.tb).Accepted? {
      CreateSound(b, op);
    } else if op.Reverse? && op.voucher < |b.vouchers| && !b.vouchers[op.voucher].isReversed
           && Prepare(Flipped(b.vouchers[op.voucher].lines), op.tb).Accepted? {
      ReverseSound(b, op);
    }
  }

  /** Over every run: each stored voucher has distinct keys, positive amounts and balances to the cent,
      and the vouchers reversing it number one if it is marked reversed and none otherwise. */
  lemma {:induction false} RunSound(b: Books, ops: seq<Op>)
    requires Sound(b)
    ensures Sound(Run(b, ops))
  {
    if ops != [] {
      RunSound(b, ops[..|ops| - 1]);
      StepSound(Run(b, ops[..|ops| - 1]), ops[|ops| - 1]);
    }
  }

  lemma {:induction false} NoBooksSound()
    ensures Sound(NO_BOOKS) && Exact(NO_BOOKS)
  {
  }

  // ----- the chart of accounts -----

  /** No number is used twice, and every account of the chart has an index row. */
  ghost predicate ChartSound(b: Books) {
    && (forall x, y :: x in b.chart && y in b.chart && b.chart[x] == b.chart[y] ==> x == y)
    && b.chart.Keys <= b.index.Keys
  }

  /** Over every run account numbers stay unique, and no account of the chart loses its row. */
  lemma {:induction false} RunKeepsChart(b: Books, ops: seq<Op>)
    requires ChartSound(b)
    ensures ChartSound(Run(b, ops))
    ensures b.chart.Keys <= Run(b, ops).chart.Keys
  {
    if ops != [] {
      RunKeepsChart(b, ops[..|ops| - 1]);
      StepKeepsChart(Run(b, ops[..|ops| - 1]), ops[|ops| - 1]);
    }
  }

  lemma {:induction false} StepKeepsChart(b: Books, op: Op)
    requires ChartSound(b)
    ensures ChartSound(Step(b, op).0)
    ensures b.chart.Keys <= Step(b, op).0.chart.Keys
  {
    if op.OpenAccount? && op.glNumber !in b.chart.Values {
      assert forall x :: x in b.chart ==> b.chart[x] in b.chart.Values;
    } else if op.Create? && Prepare(op.lines, op.tb).Accepted? {
      PostedCountMeans(b.index.Keys, Prepare(op.lines, op.tb).posted);
    }
  }

  /** An account is opened under its number unless some account carries that number already; an index row
      it has is kept, and a new one is empty. */
  lemma {:induction false} OpeningMeans(b: Books, id: Account, glNumber: int)
    ensures var (after, reply) := Step(b, OpenAccount(id, glNumber));
      && (reply == NumberTaken <==> exists x :: x in b.chart && b.chart[x] == glNumber)
      && (reply == NumberTaken ==> after == b)
      && (reply != NumberTaken ==>
            && reply == Done && after.chart == b.chart[id := glNumber] && after.vouchers == b.vouchers
            && (forall k :: IndexTotal(after.index, k) == IndexTotal(b.index, k))
            && after.index.Keys == b.index.Keys + {id})
  {
    assert glNumber in b.chart.Values <==> exists x :: x in b.chart && b.chart[x] == glNumber;
  }

  /** A voucher is stored under its year and period, at the end and not reversed; a reversal names its
      original, which is marked and otherwise kept, like every other voucher. Neither a reversal nor an
      unapproved voucher reaches the index. */
  lemma {:induction false} StoredUnder(b: Books, op: Op)
    requires (op.Create? || op.Reverse?) && Step(b, op).1.Stored?
    ensures var after, n := Step(b, op).0.vouchers, |b.vouchers|;
      && Step(b, op).1 == Stored(n) && |after| == n + 1
      && after[n].year == op.year && after[n].period == op.period && !after[n].isReversed
      && after[n].reversedVoucher == (if op.Reverse? then Some(op.voucher) else None)
      && Step(b, op).0.chart == b.chart && Step(b, op).0.index.Keys == b.index.Keys
      && (op.Reverse? || !op.approved ==> Step(b, op).0.index == b.index)
      && (forall i :: 0 <= i < n ==>
            && after[i].lines == b.vouchers[i].lines && after[i].year == b.vouchers[i].year
            && after[i].period == b.vouchers[i].period && after[i].reversedVoucher == b.vouchers[i].reversedVoucher
            && (after[i].isReversed <==> b.vouchers[i].isReversed || (op.Reverse? && i == op.voucher)))
  {
    if op.Create? {
      PostedCountMeans(b.index.Keys, Prepare(op.lines, op.tb).posted);
    }
  }

  /** An approved creation on accounts with rows adds to the index what the split leaves of each positive
      line on its own account. */
  lemma {:induction false} ApprovedIsPosted(b: Books, op: Op, k: LineKey)
    requires op.Create? && op.approved && Step(b, op).1.Stored? && AccountsOf(op.lines) <= b.index.Keys
    ensures IndexTotal(Step(b, op).0.index, k)
              == IndexTotal(b.index, k) + KeyTotal(Netted(Positive(op.lines), op.tb), k)
  {
    var posted := Prepare(op.lines, op.tb).posted;
    NettedAccounts(op.lines, op.tb, b.index.Keys);
    PostedCountMeans(b.index.Keys, posted);
    assert posted[|posted|..] == [];
    PostAdds(b.index, posted, k);
  }

  /** The service object. Each method is one step on the books. */
  class Ledger {
    var chart: map<Account, int>
    var index: map<Account, Row>
    var vouchers: seq<Voucher>

    function State(): Books
      reads this
    {
      Books(chart, index, vouchers)
    }

    constructor ()
      ensures State() == NO_BOOKS
    {
      chart, index, vouchers := map[], map[], [];
    }

    method UpdateAccountBalance(items: seq<Line>)
      modifies this`index
      ensures index == Post(old(index), items)
    {
      PostedCountMeans(index.Keys, items);
      ghost var count := PostedCount(index.Keys, items);
      var i := 0;
      while i < |items|
        invariant 0 <= i <= count
        invariant index == PostAll(old(index), items[..i])
      {
        var el := items[i];
        if el.account !in index {
          break;
        }
        assert items[..i + 1][..i] == items[..i];
        var row := index[el.account];
        var newCredit := row.credit + (if el.side == CR then el.amount else 0.0);
        var newDebit := row.debit + (if el.side == DR then el.amount else 0.0);
        index := index[el.account := Row(newDebit, newCredit, newDebit - newCredit)];
        i := i + 1;
      }
    }

    method OpenAccount(id: Account, glNumber: int) returns (reply: Reply)
      modifies this
      ensures (State(), reply) == Step(old(State()), Op.OpenAccount(id, glNumber))
    {
      if glNumber in chart.Values {
        return NumberTaken;
      }
      chart := chart[id := glNumber];
      if id !in index {
        index := index[id := Row(0.0, 0.0, 0.0)];
      }
      return Done;
    }

    method Create(lines: seq<Line>, tb: TaxBook, year: int, period: int, approved: bool) returns (reply: Reply)
      modifies this
      ensures (State(), reply) == Step(old(State()), Op.Create(lines, tb, year, period, approved))
    {
      var out := PrepareVoucher(lines, tb);
      match out
      case Refused(why) => return Rejected(why);
      case Accepted(stored, posted) =>
        if approved {
          UpdateAccountBalance(posted);
        }
        vouchers := vouchers + [Voucher(stored, year, period, false, None)];
        return Stored(|vouchers| - 1);
    }

    method Reverse(id: nat, tb: TaxBook, year: int, period: int) returns (reply: Reply)
      modifies this
      ensures (State(), reply) == Step(old(State()), Op.Reverse(id, tb, year, period))
    {
      if id >= |vouchers| {
        return NotFound;
      }
      if vouchers[id].isReversed {
        return AlreadyReversed;
      }
      var items: seq<Line> := [];
      for i := 0 to |vouchers[id].lines|
        invariant items == Flipped(vouchers[id].lines[..i])
      {
        var tmp := vouchers[id].lines[i];
        assert vouchers[id].lines[..i + 1][..i] == vouchers[id].lines[..i];
        items := items + [tmp.(side := if tmp.side == CR then DR else CR)];
      }
      assert vouchers[id].lines[..|vouchers[id].lines|] == vouchers[id].lines;
      var out := PrepareVoucher(items, tb);
      match out
      case Refused(why) => return Rejected(why);
      case Accepted(stored, _) =>
        vouchers := vouchers[id := vouchers[id].(isReversed := true)]
            + [Voucher(stored, year, period, false, Some(id))];
        return Stored(|vouchers| - 1);
    }

    /** The rebuild: a row per account the vouchers use, then a zero row for each other account of the
        chart. */
    method SetupAccountBalance()
      modifies this`index
      ensures State() == Step(old(State()), Rebuild).0
    {
      var used := map a | a in AccountsUsed(vouchers) :: RowFor(vouchers, a);
      var missing := map a | a in chart.Keys && a !in used :: Row(0.0, 0.0, 0.0);
      forall a | a in missing ensures RowFor(vouchers, a) == Row(0.0, 0.0, 0.0) {
        BookedUnused(vouchers, Key(a, DR));
        BookedUnused(vouchers, Key(a, CR));
      }
      index := used + missing;
      assert index == Rebuilt(State());
    }
  }
}
