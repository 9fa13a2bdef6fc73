/** Reversing a voucher: its lines are copied with the sides swapped and go through `create` again,
    tax indications included. */
module Reversal {
  import opened Rounding
  import opened VoucherLines
  import opened VoucherPipeline
  import opened GeneralLedger

  lemma {:induction false} FlippedTotals(lines: seq<Line>, a: Account, s: Side)
    ensures KeyTotal(Flipped(lines), Key(a, s)) == KeyTotal(lines, Key(a, s.Flip()))
    ensures SideTotal(Flipped(lines), s) == SideTotal(lines, s.Flip())
  {
    if lines != [] {
      var l, rest := lines[|lines| - 1], lines[..|lines| - 1];
      var flipped := l.(side := l.side.Flip());
      FlippedTotals(rest, a, s);
      assert Flipped(lines) == Flipped(rest) + [flipped];
      KeyTotalSnoc(Flipped(rest), flipped, Key(a, s));
      SideTotalSnoc(Flipped(rest), flipped, s);
    }
  }

  /** The balance checks never refuse the reversal of a voucher stored by `create`, and it swaps the two
      side totals. */
  lemma {:induction false} ReversalPassesChecks(v: Voucher, tb: TaxBook)
    requires WellStored(v)
    ensures Prepare(Flipped(v.lines), tb).Accepted? <==> LookupsOk(Flipped(v.lines), tb)
    ensures Prepare(Flipped(v.lines), tb).Refused? ==> Prepare(Flipped(v.lines), tb).why == TaxLookupFailed
    ensures Prepare(Flipped(v.lines), tb).Accepted? ==>
              forall s :: SideTotal(Prepare(Flipped(v.lines), tb).stored, s) == SideTotal(v.lines, s.Flip())
  {
    var f := Flipped(v.lines);
    PositiveId(f);
    FlippedTotals(v.lines, 0, DR);
    FlippedTotals(v.lines, 0, CR);
    if Prepare(f, tb).Accepted? {
      forall s ensures SideTotal(Prepare(f, tb).stored, s) == SideTotal(f, s) {
        var first := CreateKeepsMeaning(f, tb);
      }
    }
  }

  /** The split takes tax out of this line and books it to another account. */
  predicate Moves(l: Line, tb: TaxBook) {
    IsSplit(l, tb) && tb.mapping.value[l.tax.value] != l.account
  }

  /** The tax the split takes out of each line, on the line's own account. */
  function Withheld(lines: seq<Line>, tb: TaxBook): seq<Line> {
    if lines == [] then []
    else
      var l := lines[|lines| - 1];
      Withheld(lines[..|lines| - 1], tb)
      + (if IsSplit(l, tb) then [l.(amount := TaxAmount(l.amount, tb.rates[l.tax.value]))] else [])
  }

  lemma {:induction false} NettedTotal(lines: seq<Line>, tb: TaxBook, k: LineKey)
    ensures KeyTotal(Netted(lines, tb), k) == KeyTotal(lines, k) - KeyTotal(Withheld(lines, tb), k)
  {
    if lines != [] {
      var l, rest := lines[|lines| - 1], lines[..|lines| - 1];
      NettedTotal(rest, tb, k);
      KeyTotalSnoc(Netted(rest, tb), NetLine(l, tb), k);
      if IsSplit(l, tb) {
        TaxSplits(l.amount, tb.rates[l.tax.value]);
        KeyTotalSnoc(Withheld(rest, tb), l.(amount := TaxAmount(l.amount, tb.rates[l.tax.value])), k);
      } else {
        assert Withheld(rest, tb) + [] == Withheld(rest, tb);
      }
    }
  }

  /** On every account, a voucher and its reversal together leave exactly what the second split moved:
      the tax it booked there less the tax it took out of the copied lines. */
  lemma {:induction false} ReversalResidual(v: Voucher, tb: TaxBook, a: Account)
    requires WellStored(v) && LookupsOk(Flipped(v.lines), tb)
    ensures Prepare(Flipped(v.lines), tb).Accepted?
    ensures Net(v.lines, a) + Net(Prepare(Flipped(v.lines), tb).stored, a)
         == Net(TaxPart(Flipped(v.lines), tb), a) - Net(Withheld(Flipped(v.lines), tb), a)
  {
    var f := Flipped(v.lines);
    ReversalPassesChecks(v, tb);
    PositiveId(f);
    forall s ensures KeyTotal(Prepare(f, tb).stored, Key(a, s))
        == KeyTotal(v.lines, Key(a, s.Flip())) - KeyTotal(Withheld(f, tb), Key(a, s))
            + KeyTotal(TaxPart(f, tb), Key(a, s)) {
      CreateKeyTotals(f, tb, Key(a, s));
      NettedTotal(f, tb, Key(a, s));
      FlippedTotals(v.lines, a, s);
    }
  }

  lemma {:induction false} RegroupSnoc(lines: seq<Line>, l: Line)
    ensures Regroup(lines + [l]) == AddToGroup(Regroup(lines), l)
  {
    assert (lines + [l])[..|lines|] == lines;
  }

  /** Opening a group and adding to it again, when the key is new. */
  lemma {:induction false} OpenAndJoin(g: seq<Line>, l: Line, x: real, y: real)
    requires DistinctKeys(g + [l])
    ensures AddToGroup(g, l.(amount := x)) == g + [l.(amount := x)]
    ensures AddToGroup(g + [l.(amount := x)], l.(amount := y)) == g + [l.(amount := x + y)]
  {
    var all, h := g + [l], g + [l.(amount := x)];
    forall i | 0 <= i < |g| ensures g[i].Key() != l.Key() && h[i] == g[i] {
      assert all[i].Key() != all[|g|].Key();
    }
    assert h[|g|].Key() == l.Key();
  }

  /** A line whose tax goes back to its own account is restored by the merge. */
  lemma {:induction false} RegroupUnmoved(lines: seq<Line>, tb: TaxBook)
    requires DistinctKeys(lines)
    requires forall i :: 0 <= i < |lines| ==> !Moves(lines[i], tb)
    ensures Regroup(Split(lines, tb)) == lines
  {
    if lines != [] {
      var n := |lines| - 1;
      var l, rest := lines[n], lines[..n];
      RegroupUnmoved(rest, tb);
      assert rest + [l] == lines;
      RegroupSnoc(Split(rest, tb), NetLine(l, tb));
      if IsSplit(l, tb) {
        var rate := tb.rates[l.tax.value];
        TaxSplits(l.amount, rate);
        RegroupSnoc(Split(rest, tb) + [NetLine(l, tb)], TaxLine(l, tb));
        OpenAndJoin(rest, l, NetAmount(l.amount, rate), TaxAmount(l.amount, rate));
      } else {
        OpenAndJoin(rest, l, l.amount, 0.0);
        assert Split(lines, tb) == Split(rest, tb) + [NetLine(l, tb)];
      }
    }
  }

  /** A group, once opened, keeps its place, its key and its tax indication. */
  lemma {:induction false} GroupStays(a: seq<Line>, b: seq<Line>, i: nat)
    requires i < |Regroup(a)|
    ensures i < |Regroup(a + b)|
    ensures Regroup(a + b)[i].Key() == Regroup(a)[i].Key() && Regroup(a + b)[i].tax == Regroup(a)[i].tax
  {
    if b == [] {
      assert a + b == a;
    } else {
      var n := |b| - 1;
      GroupStays(a, b[..n], i);
      RegroupSnoc(a + b[..n], b[n]);
      assert a + b == a + b[..n] + [b[n]];
    }
  }

  /** The tax line of the first line that moves tax opens a group right after it, unless an earlier line
      has that key. */
  lemma {:induction false} FirstMoveOpens(lines: seq<Line>, tb: TaxBook, j: nat)
    requires DistinctKeys(lines) && j < |lines| && Moves(lines[j], tb)
    requires forall i :: 0 <= i < j ==> !Moves(lines[i], tb) && lines[i].Key() != TaxLine(lines[j], tb).Key()
    ensures |Regroup(Split(lines, tb))| > j + 1
    ensures Regroup(Split(lines, tb))[j + 1].Key() == TaxLine(lines[j], tb).Key()
    ensures Regroup(Split(lines, tb))[j + 1].tax == lines[j].tax
  {
    MoveOpens(lines[..j], lines[j], tb);
    assert lines[..j] + [lines[j]] == lines[..j + 1];
    SplitConcat(lines[..j + 1], lines[j + 1..], tb);
    assert lines[..j + 1] + lines[j + 1..] == lines;
    GroupStays(Split(lines[..j + 1], tb), Split(lines[j + 1..], tb), j + 1);
  }

  lemma {:induction false} MoveOpens(before: seq<Line>, l: Line, tb: TaxBook)
    requires DistinctKeys(before + [l]) && Moves(l, tb)
    requires forall i :: 0 <= i < |before| ==> !Moves(before[i], tb) && before[i].Key() != TaxLine(l, tb).Key()
    ensures Regroup(Split(before + [l], tb)) == before + [NetLine(l, tb)] + [TaxLine(l, tb)]
  {
    var net, tax, all := NetLine(l, tb), TaxLine(l, tb), before + [l];
    forall i | 0 <= i < |before| ensures before[i].Key() != l.Key() {
      assert all[i].Key() != all[|before|].Key();
    }
    DistinctPrefix(before, l);
    RegroupUnmoved(before, tb);
    assert Regroup(Split(before, tb) + [net]) == before + [net] by {
      RegroupSnoc(Split(before, tb), net);
      NewKeyOpens(before, net);
    }
    assert Regroup(Split(before, tb) + [net] + [tax]) == before + [net] + [tax] by {
      RegroupSnoc(Split(before, tb) + [net], tax);
      NewKeyOpens(before + [net], tax);
    }
    assert Split(all, tb) == Split(before, tb) + [net] + [tax] by { assert all[..|before|] == before; }
  }

  lemma {:induction false} DistinctPrefix(lines: seq<Line>, l: Line)
    requires DistinctKeys(lines + [l])
    ensures DistinctKeys(lines)
  {
    var all := lines + [l];
    assert forall i :: 0 <= i < |lines| ==> all[i] == lines[i];
  }

  lemma {:induction false} NewKeyOpens(g: seq<Line>, l: Line)
    requires forall i :: 0 <= i < |g| ==> g[i].Key() != l.Key()
    ensures AddToGroup(g, l) == g + [l]
  {
  }

  /** When split and merge restore the list, the line that receives the first moved tax keeps its own. */
  lemma {:induction false} TargetStaysPut(lines: seq<Line>, tb: TaxBook, j: nat, m: nat)
    requires DistinctKeys(lines) && j < |lines| && Moves(lines[j], tb)
    requires forall i :: 0 <= i < j ==> !Moves(lines[i], tb)
    requires Regroup(Split(lines, tb)) == lines
    requires m < |lines| && lines[m].Key() == TaxLine(lines[j], tb).Key()
    ensures !Moves(lines[m], tb)
  {
    if m > j {
      FirstMoveOpens(lines, tb, j);
      assert m == j + 1;
    }
  }

  /** A key whose own lines keep their tax gains what other lines move to it. */
  lemma {:induction false} TargetGains(lines: seq<Line>, tb: TaxBook, k: LineKey)
    requires AllPositive(lines)
    requires forall i :: 0 <= i < |lines| && lines[i].Key() == k ==> !Moves(lines[i], tb)
    ensures KeyTotal(TaxPart(lines, tb), k) >= KeyTotal(Withheld(lines, tb), k)
    ensures (exists i :: 0 <= i < |lines| && Moves(lines[i], tb) && TaxLine(lines[i], tb).Key() == k)
            ==> KeyTotal(TaxPart(lines, tb), k) > KeyTotal(Withheld(lines, tb), k)
  {
    if lines != [] {
      var l, rest := lines[|lines| - 1], lines[..|lines| - 1];
      assert forall i :: 0 <= i < |rest| ==> rest[i] == lines[i];
      TargetGains(rest, tb, k);
      if IsSplit(l, tb) {
        TaxSplits(l.amount, tb.rates[l.tax.value]);
        KeyTotalSnoc(TaxPart(rest, tb), TaxLine(l, tb), k);
        KeyTotalSnoc(Withheld(rest, tb), l.(amount := TaxAmount(l.amount, tb.rates[l.tax.value])), k);
      } else {
        assert TaxPart(rest, tb) + [] == TaxPart(rest, tb) && Withheld(rest, tb) + [] == Withheld(rest, tb);
      }
    }
  }

  lemma {:induction false} FirstMove(lines: seq<Line>, tb: TaxBook) returns (j: nat)
    requires AnyMoves(lines, tb)
    ensures j < |lines| && Moves(lines[j], tb) && forall i :: 0 <= i < j ==> !Moves(lines[i], tb)
  {
    j := 0;
    while !Moves(lines[j], tb)
      invariant exists i :: j <= i < |lines| && Moves(lines[i], tb)
      invariant forall i :: 0 <= i < j ==> !Moves(lines[i], tb)
      decreases |lines| - j
    {
      j := j + 1;
    }
  }

  /** A list that moves tax is not restored by splitting and merging: the key that receives the first
      moved tax gains. */
  lemma {:induction false} MovedIsLost(lines: seq<Line>, tb: TaxBook)
    requires AllPositive(lines) && DistinctKeys(lines) && AnyMoves(lines, tb)
    ensures Regroup(Split(lines, tb)) != lines
  {
    var j := FirstMove(lines, tb);
    var k := TaxLine(lines[j], tb).Key();
    RegroupConserves(Split(lines, tb), k, DR);
    SplitTotals(lines, tb, k, DR);
    NettedTotal(lines, tb, k);
    if Regroup(Split(lines, tb)) == lines {
      forall m | 0 <= m < |lines| && lines[m].Key() == k ensures !Moves(lines[m], tb) {
        TargetStaysPut(lines, tb, j, m);
      }
      TargetGains(lines, tb, k);
    }
  }

  /** Some line loses its tax to another account. */
  predicate AnyMoves(lines: seq<Line>, tb: TaxBook) {
    exists i :: 0 <= i < |lines| && Moves(lines[i], tb)
  }

  /** Swapping the sides of a line does not change where its tax goes. */
  lemma {:induction false} FlippedMoves(lines: seq<Line>, tb: TaxBook)
    ensures AnyMoves(Flipped(lines), tb) <==> AnyMoves(lines, tb)
  {
    var f := Flipped(lines);
    forall i | 0 <= i < |lines| ensures Moves(f[i], tb) <==> Moves(lines[i], tb) {
      assert f[i] == lines[i].(side := lines[i].side.Flip());
    }
    if i :| 0 <= i < |lines| && Moves(lines[i], tb) {
      assert Moves(f[i], tb);
    }
  }

  lemma {:induction false} FlippedDistinct(lines: seq<Line>)
    requires DistinctKeys(lines)
    ensures DistinctKeys(Flipped(lines))
  {
    var f := Flipped(lines);
    forall i, j | 0 <= i < j < |lines| ensures f[i].Key() != f[j].Key() {
      assert lines[i].Key() != lines[j].Key();
      assert f[i].side == lines[i].side.Flip() && f[j].side == lines[j].side.Flip();
    }
  }

  /** What the ledger stores for the reversal. */
  lemma {:induction false} ReversalStores(v: Voucher, tb: TaxBook)
    requires WellStored(v) && LookupsOk(Flipped(v.lines), tb)
    ensures Prepare(Flipped(v.lines), tb)
              == Accepted(Regroup(Split(Flipped(v.lines), tb)), Netted(Flipped(v.lines), tb))
    ensures AllPositive(Flipped(v.lines))
  {
    var f := Flipped(v.lines);
    assert Prepare(f, tb).Accepted? by { ReversalPassesChecks(v, tb); }
    assert AllPositive(f);
    assert Positive(f) == f by { PositiveId(f); }
  }

  /** The reversal stores the voucher's own lines with sides swapped exactly when no copied line moves
      tax to another account. */
  lemma {:induction false} ReversalExact(v: Voucher, tb: TaxBook)
    requires WellStored(v) && LookupsOk(Flipped(v.lines), tb)
    ensures Prepare(Flipped(v.lines), tb).Accepted?
    ensures Prepare(Flipped(v.lines), tb).stored == Flipped(v.lines)
       <==> !AnyMoves(v.lines, tb)
  {
    var f := Flipped(v.lines);
    ReversalStores(v, tb);
    FlippedDistinct(v.lines);
    FlippedMoves(v.lines, tb);
    if AnyMoves(f, tb) {
      MovedIsLost(f, tb);
    } else {
      RegroupUnmoved(f, tb);
    }
  }

  /** On every account the split books as much tax as it takes out. */
  ghost predicate TaxComesBack(lines: seq<Line>, tb: TaxBook) {
    forall a: Account :: Net(TaxPart(lines, tb), a) == Net(Withheld(lines, tb), a)
  }

  /** Original plus reversal net to zero on every account exactly when, account by account, the split of
      the copied lines books as much tax as it takes out; so in particular when none of them moves tax. */
  lemma {:induction false} ReversalCancelsIff(v: Voucher, tb: TaxBook)
    requires WellStored(v) && LookupsOk(Flipped(v.lines), tb)
    ensures Prepare(Flipped(v.lines), tb).Accepted?
    ensures (forall a: Account :: Net(v.lines, a) + Net(Prepare(Flipped(v.lines), tb).stored, a) == 0.0)
       <==> TaxComesBack(Flipped(v.lines), tb)
    ensures !AnyMoves(v.lines, tb) ==> TaxComesBack(Flipped(v.lines), tb)
  {
    var f := Flipped(v.lines);
    ReversalPassesChecks(v, tb);
    forall a: Account
      ensures Net(v.lines, a) + Net(Prepare(f, tb).stored, a) == Net(TaxPart(f, tb), a) - Net(Withheld(f, tb), a)
    {
      ReversalResidual(v, tb, a);
    }
    if !AnyMoves(v.lines, tb) {
      FlippedMoves(v.lines, tb);
      forall a: Account ensures Net(TaxPart(f, tb), a) == Net(Withheld(f, tb), a) {
        UnmovedComesBack(f, tb, Key(a, DR));
        UnmovedComesBack(f, tb, Key(a, CR));
      }
    }
  }

  lemma {:induction false} UnmovedComesBack(lines: seq<Line>, tb: TaxBook, k: LineKey)
    requires !AnyMoves(lines, tb)
    ensures KeyTotal(TaxPart(lines, tb), k) == KeyTotal(Withheld(lines, tb), k)
  {
    if lines != [] {
      var l, rest := lines[|lines| - 1], lines[..|lines| - 1];
      assert forall i :: 0 <= i < |rest| ==> rest[i] == lines[i];
      UnmovedComesBack(rest, tb, k);
      assert !Moves(l, tb);
      if IsSplit(l, tb) {
        KeyTotalSnoc(TaxPart(rest, tb), TaxLine(l, tb), k);
        KeyTotalSnoc(Withheld(rest, tb), l.(amount := TaxAmount(l.amount, tb.rates[l.tax.value])), k);
      } else {
        assert TaxPart(rest, tb) + [] == TaxPart(rest, tb) && Withheld(rest, tb) + [] == Withheld(rest, tb);
      }
    }
  }

  /** A debit line under a 100 % tax indication that books to another account, against a plain credit
      line of the same amount. */
  predicate HalfTaxed(taxed: Line, plain: Line, tb: TaxBook) {
    && IsSplit(taxed, tb) && Moves(taxed, tb) && tb.rates[taxed.tax.value] == 100.0 && taxed.side == DR
    && plain.tax.None? && plain.side == CR && plain.amount == taxed.amount > 0.0
  }

  /** What `create` stores for such a request: half the amount on either account, and the credit. */
  function HalfTaxedStored(taxed: Line, plain: Line, tb: TaxBook): seq<Line>
    requires HalfTaxed(taxed, plain, tb)
  {
    [NetLine(taxed, tb), TaxLine(taxed, tb), plain]
  }

  lemma {:induction false} PairTotals(d: Line, c: Line)
    requires d.side == DR && c.side == CR
    ensures SideTotal([d, c], DR) == d.amount && SideTotal([d, c], CR) == c.amount
  {
    SideTotalSnoc([], d, DR);
    SideTotalSnoc([], d, CR);
    SideTotalSnoc([d], c, DR);
    SideTotalSnoc([d], c, CR);
    assert [] + [d] == [d] && [d] + [c] == [d, c];
  }

  lemma {:induction false} HalfTax(amount: real)
    ensures NetAmount(amount, 100.0) == amount / 2.0 == TaxAmount(amount, 100.0)
  {
  }

  lemma {:induction false} HalfTaxedAccepted(taxed: Line, plain: Line, tb: TaxBook)
    requires HalfTaxed(taxed, plain, tb) && taxed.account != plain.account && Round(taxed.amount, Cents) != 0.0
    ensures Prepare([taxed, plain], tb).Accepted?
    ensures Prepare([taxed, plain], tb).stored == HalfTaxedStored(taxed, plain, tb)
  {
    var request, net, tax := [taxed, plain], NetLine(taxed, tb), TaxLine(taxed, tb);
    PairTotals(taxed, plain);
    PositiveId(request);
    assert LookupsOk(request, tb);
    assert request == [taxed] + [plain];
    SplitConcat([taxed], [plain], tb);
    assert Split([taxed], tb) == [net, tax] by { assert [taxed][..0] == []; }
    assert Split([plain], tb) == [plain] by { assert [plain][..0] == []; }
    assert Split(request, tb) == [net, tax, plain];
    RegroupDistinct([net, tax, plain]);
  }

  lemma {:induction false} TaxSnoc(lines: seq<Line>, l: Line, tb: TaxBook)
    ensures TaxPart(lines + [l], tb) == TaxPart(lines, tb) + (if IsSplit(l, tb) then [TaxLine(l, tb)] else [])
    ensures Withheld(lines + [l], tb) == Withheld(lines, tb)
         + (if IsSplit(l, tb) then [l.(amount := TaxAmount(l.amount, tb.rates[l.tax.value]))] else [])
  {
    assert (lines + [l])[..|lines|] == lines;
  }

  lemma {:induction false} HalfTaxedWithheld(net: Line, tax: Line, plain: Line, tb: TaxBook)
    requires IsSplit(net, tb) && tax.tax == net.tax && plain.tax.None?
    requires tax.account == tb.mapping.value[net.tax.value] != net.account && tb.rates[net.tax.value] == 100.0
    requires net.side == tax.side == CR
    ensures Net(TaxPart([net, tax, plain], tb), net.account) == 0.0
    ensures Net(Withheld([net, tax, plain], tb), net.account) == -net.amount / 2.0
  {
    var lines, w0, w1 := [net, tax, plain], net.(amount := net.amount / 2.0), tax.(amount := tax.amount / 2.0);
    HalfTax(net.amount);
    HalfTax(tax.amount);
    var t0, t1 := TaxLine(net, tb), TaxLine(tax, tb);
    TaxSnoc([], net, tb);
    TaxSnoc([net], tax, tb);
    TaxSnoc([net, tax], plain, tb);
    assert [] + [net] == [net] && [net] + [tax] == [net, tax] && [net, tax] + [plain] == lines;
    assert Withheld(lines, tb) == [w0, w1] && TaxPart(lines, tb) == [t0, t1];
    forall s ensures KeyTotal([t0, t1], Key(net.account, s)) == 0.0 {
      AbsentKeyTotal([t0, t1], Key(net.account, s));
    }
    forall s ensures KeyTotal([w0, w1], Key(net.account, s)) == if s == CR then net.amount / 2.0 else 0.0 {
      KeyTotalSnoc([], w0, Key(net.account, s));
      KeyTotalSnoc([w0], w1, Key(net.account, s));
      assert [] + [w0] == [w0] && [w0] + [w1] == [w0, w1];
    }
  }

  /** Reversing what `create` stored for such a request leaves a quarter of the amount on the account. */
  lemma {:induction false} HalfTaxedResidue(taxed: Line, plain: Line, tb: TaxBook, v: Voucher)
    requires HalfTaxed(taxed, plain, tb) && taxed.account != plain.account && Round(taxed.amount, Cents) != 0.0
    requires v.lines == HalfTaxedStored(taxed, plain, tb)
    ensures WellStored(v) && Prepare(Flipped(v.lines), tb).Accepted?
    ensures Net(v.lines, taxed.account) + Net(Prepare(Flipped(v.lines), tb).stored, taxed.account) == taxed.amount / 4.0
  {
    var f := Flipped(v.lines);
    HalfTaxedAccepted(taxed, plain, tb);
    AcceptedWellStored([taxed, plain], tb, v);
    HalfTax(taxed.amount);
    assert f == [f[0], f[1], f[2]];
    HalfTaxedWithheld(f[0], f[1], f[2], tb);
    ReversalResidual(v, tb, taxed.account);
  }

  /** A request of x on account 1, taxed at 100 % to account 2, against account 3 is stored as x / 2 on
      accounts 1 and 2, and is not cancelled by its reversal: a quarter of x stays on account 1. */
  lemma {:induction false} TaxedReversalLeavesResidue(tb: TaxBook, x: real, request: seq<Line>)
    requires tb == TaxBook(map[7 := 100.0], Some(map[7 := 2])) && x > 0.0 && Round(x, Cents) != 0.0
    requires request == [Line(1, DR, x, Some(7)), Line(3, CR, x, None)]
    ensures Prepare(request, tb).Accepted?
    ensures var stored := Prepare(request, tb).stored;
      && stored == [Line(1, DR, x / 2.0, Some(7)), Line(2, DR, x / 2.0, Some(7)), Line(3, CR, x, None)]
      && Prepare(Flipped(stored), tb).Accepted?
      && Net(stored, 1) + Net(Prepare(Flipped(stored), tb).stored, 1) == x / 4.0
  {
    var taxed, plain := request[0], request[1];
    HalfTax(x);
    assert HalfTaxed(taxed, plain, tb);
    assert request == [taxed, plain];
    HalfTaxedAccepted(taxed, plain, tb);
    HalfTaxedResidue(taxed, plain, tb, Voucher(HalfTaxedStored(taxed, plain, tb), 2024, 1, false, None));
  }

  /** The same request, approved, on exact books with rows for its accounts: the ledger books x / 2 of tax on
      account 2, which the index does not get. */
  lemma {:induction false} TaxedRequestLeavesIndexShort(b: Books, tb: TaxBook, x: real, request: seq<Line>, year: int,
                                                        period: int)
    requires tb == TaxBook(map[7 := 100.0], Some(map[7 := 2])) && x > 0.0 && Round(x, Cents) != 0.0
    requires request == [Line(1, DR, x, Some(7)), Line(3, CR, x, None)]
    requires Exact(b) && 1 in b.index && 3 in b.index
    ensures var after := Step(b, Op.Create(request, tb, year, period, true)).0;
      && |after.vouchers| == |b.vouchers| + 1
      && Booked(after.vouchers, Key(2, DR)) == IndexTotal(after.index, Key(2, DR)) + x / 2.0
  {
    var op := Op.Create(request, tb, year, period, true);
    assert Prepare(request, tb).Accepted? by { TaxedReversalLeavesResidue(tb, x, request); }
    assert NewUnposted(b, op) == TaxPart(Positive(request), tb) by {
      assert AccountsOf(request) <= b.index.Keys;
      OrderlyCreateUnposted(b, op);
    }
    assert KeyTotal(TaxPart(Positive(request), tb), Key(2, DR)) == x / 2.0 by { RequestTax(tb, x, request); }
    StepGap(b, op, Key(2, DR));
    StoredUnder(b, op);
    assert Booked(b.vouchers, Key(2, DR)) == IndexTotal(b.index, Key(2, DR));
  }

  lemma {:induction false} RequestTax(tb: TaxBook, x: real, request: seq<Line>)
    requires tb == TaxBook(map[7 := 100.0], Some(map[7 := 2])) && x > 0.0
    requires request == [Line(1, DR, x, Some(7)), Line(3, CR, x, None)]
    ensures KeyTotal(TaxPart(Positive(request), tb), Key(2, DR)) == x / 2.0
  {
    var taxed, plain := request[0], request[1];
    PositiveId(request);
    TaxSnoc([], taxed, tb);
    TaxSnoc([taxed], plain, tb);
    assert [] + [taxed] == [taxed] && [taxed] + [plain] == request;
    HalfTax(x);
    KeyTotalSnoc([], TaxLine(taxed, tb), Key(2, DR));
  }
}
