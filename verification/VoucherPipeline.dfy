/** What `create` does to the submitted lines before a voucher is stored: drop the lines that are not
    positive, check the two side totals, split tax-inclusive lines, merge by (account, side). */
module VoucherPipeline {
  import opened Rounding
  import opened VoucherLines

  /** Tax indications with their rate in percent, and the supplier's account mapping, which may be
      missing and may lack an account for an indication. */
  datatype TaxBook = TaxBook(rates: map<TaxId, real>, mapping: Option<map<TaxId, Account>>)

  datatype Refusal = ZeroTotal | Unbalanced | TaxLookupFailed

  /** `stored` are the lines of the new voucher; `posted` are the filtered lines, whose amounts the tax
      split has rewritten in place, as they are handed to the balance index. */
  datatype Outcome = Refused(why: Refusal) | Accepted(stored: seq<Line>, posted: seq<Line>)

  function Positive(lines: seq<Line>): (p: seq<Line>)
    ensures AllPositive(p)
  {
    if lines == [] then []
    else Positive(lines[..|lines| - 1]) + (if lines[|lines| - 1].amount > 0.0 then [lines[|lines| - 1]] else [])
  }

  /** The look-ups the split performs on this line succeed: the indication exists and, when its rate is
      positive, so does the mapping. */
  predicate LookupOk(l: Line, tb: TaxBook) {
    l.tax.Some? ==> l.tax.value in tb.rates && (tb.rates[l.tax.value] > 0.0 ==> tb.mapping.Some?)
  }

  predicate IsSplit(l: Line, tb: TaxBook) {
    && l.tax.Some? && l.tax.value in tb.rates && tb.rates[l.tax.value] > 0.0
    && tb.mapping.Some? && l.tax.value in tb.mapping.value
  }

  function NetAmount(amount: real, rate: real): real
    requires rate > 0.0
  {
    amount / (1.0 + rate / 100.0)
  }

  function TaxAmount(amount: real, rate: real): real
    requires rate > 0.0
  {
    NetAmount(amount, rate) * rate / 100.0
  }

  function NetLine(l: Line, tb: TaxBook): Line {
    if IsSplit(l, tb) then l.(amount := NetAmount(l.amount, tb.rates[l.tax.value])) else l
  }

  function TaxLine(l: Line, tb: TaxBook): Line
    requires IsSplit(l, tb)
  {
    l.(account := tb.mapping.value[l.tax.value], amount := TaxAmount(l.amount, tb.rates[l.tax.value]))
  }

  function Netted(lines: seq<Line>, tb: TaxBook): (r: seq<Line>)
    ensures |r| == |lines|
  {
    if lines == [] then [] else Netted(lines[..|lines| - 1], tb) + [NetLine(lines[|lines| - 1], tb)]
  }

  function TaxPart(lines: seq<Line>, tb: TaxBook): seq<Line> {
    if lines == [] then []
    else TaxPart(lines[..|lines| - 1], tb)
         + (if IsSplit(lines[|lines| - 1], tb) then [TaxLine(lines[|lines| - 1], tb)] else [])
  }

  function Split(lines: seq<Line>, tb: TaxBook): seq<Line> {
    if lines == [] then []
    else
      var l := lines[|lines| - 1];
      Split(lines[..|lines| - 1], tb) + [NetLine(l, tb)] + (if IsSplit(l, tb) then [TaxLine(l, tb)] else [])
  }

  predicate LookupsOk(lines: seq<Line>, tb: TaxBook) {
    forall i :: 0 <= i < |lines| ==> LookupOk(lines[i], tb)
  }

  function Prepare(lines: seq<Line>, tb: TaxBook): Outcome {
    var p := Positive(lines);
    var credit, debit := Round(SideTotal(p, CR), Cents), Round(SideTotal(p, DR), Cents);
    if credit == 0.0 || debit == 0.0 then Refused(ZeroTotal)
    else if credit != debit then Refused(Unbalanced)
    else if !LookupsOk(p, tb) then Refused(TaxLookupFailed)
    else Accepted(Regroup(Split(p, tb)), Netted(p, tb))
  }

  // ----- what the split keeps -----

  lemma {:induction false} TaxSplits(amount: real, rate: real)
    requires rate > 0.0
    ensures NetAmount(amount, rate) + TaxAmount(amount, rate) == amount
    ensures 100.0 * TaxAmount(amount, rate) == NetAmount(amount, rate) * rate
    ensures amount > 0.0 ==> NetAmount(amount, rate) > 0.0 && TaxAmount(amount, rate) > 0.0
  {
    var f := 1.0 + rate / 100.0;
    var net := NetAmount(amount, rate);
    assert net * f == amount;
    assert net * f == net + net * (rate / 100.0);
    assert net * (rate / 100.0) == net * rate / 100.0;
    if amount > 0.0 {
      assert net > 0.0;
      assert net * rate > 0.0;
    }
  }

  lemma {:induction false} SplitTotals(lines: seq<Line>, tb: TaxBook, k: LineKey, s: Side)
    ensures KeyTotal(Split(lines, tb), k) == KeyTotal(Netted(lines, tb), k) + KeyTotal(TaxPart(lines, tb), k)
    ensures SideTotal(Split(lines, tb), s) == SideTotal(lines, s)
  {
    if lines != [] {
      var l, rest := lines[|lines| - 1], lines[..|lines| - 1];
      SplitTotals(rest, tb, k, s);
      var net := Split(rest, tb) + [NetLine(l, tb)];
      KeyTotalSnoc(Split(rest, tb), NetLine(l, tb), k);
      SideTotalSnoc(Split(rest, tb), NetLine(l, tb), s);
      KeyTotalSnoc(Netted(rest, tb), NetLine(l, tb), k);
      if IsSplit(l, tb) {
        TaxSplits(l.amount, tb.rates[l.tax.value]);
        KeyTotalSnoc(net, TaxLine(l, tb), k);
        SideTotalSnoc(net, TaxLine(l, tb), s);
        KeyTotalSnoc(TaxPart(rest, tb), TaxLine(l, tb), k);
      } else {
        assert net + [] == net && TaxPart(rest, tb) + [] == TaxPart(rest, tb);
      }
    }
  }

  lemma {:induction false} SplitConcat(a: seq<Line>, b: seq<Line>, tb: TaxBook)
    ensures Split(a + b, tb) == Split(a, tb) + Split(b, tb)
  {
    if b == [] {
      assert a + b == a;
    } else {
      var n := |b| - 1;
      SplitConcat(a, b[..n], tb);
      assert (a + b)[..|a| + n] == a + b[..n];
    }
  }

  /** What the split makes of one line, from the rates and the mapping alone. A line under an indication with
      a positive rate and a mapped account becomes two lines that add up to it, the second on the mapped
      account and the rate in percent of the first; every other line stays as it is. */
  lemma {:induction false} LineSplits(l: Line, tb: TaxBook)
    ensures l.tax.None? ==> Split([l], tb) == [l]
    ensures l.tax.Some? && (l.tax.value !in tb.rates || tb.mapping.None?) ==> Split([l], tb) == [l]
    ensures l.tax.Some? && l.tax.value in tb.rates && tb.rates[l.tax.value] <= 0.0 ==> Split([l], tb) == [l]
    ensures l.tax.Some? && tb.mapping.Some? && l.tax.value !in tb.mapping.value ==> Split([l], tb) == [l]
    ensures l.tax.Some? && l.tax.value in tb.rates && tb.rates[l.tax.value] > 0.0
            && tb.mapping.Some? && l.tax.value in tb.mapping.value ==>
              var pieces, rate := Split([l], tb), tb.rates[l.tax.value];
              && |pieces| == 2
              && pieces[0] == l.(amount := pieces[0].amount)
              && pieces[1] == l.(account := tb.mapping.value[l.tax.value], amount := pieces[1].amount)
              && pieces[0].amount + pieces[1].amount == l.amount
              && 100.0 * pieces[1].amount == pieces[0].amount * rate
  {
    assert [l][..0] == [];
    if IsSplit(l, tb) {
      TaxSplits(l.amount, tb.rates[l.tax.value]);
      assert Split([l], tb) == [NetLine(l, tb), TaxLine(l, tb)];
    } else {
      assert Split([l], tb) == [l];
    }
  }

  /** 115.00 under a 15 % indication become 100.00 and 15.00 of tax. */
  lemma {:induction false} VatLineSplits(l: Line, tb: TaxBook, t: TaxId, taxAccount: Account)
    requires l.tax == Some(t) && l.amount == 115.0
    requires t in tb.rates && tb.rates[t] == 15.0 && tb.mapping == Some(map[t := taxAccount])
    ensures Split([l], tb) == [l.(amount := 100.0), l.(account := taxAccount, amount := 15.0)]
  {
    LineSplits(l, tb);
  }

  /** The lines handed to the balance index: each keeps everything but its amount, which is what the split
      leaves on the line's own account. */
  lemma {:induction false} NettedLines(lines: seq<Line>, tb: TaxBook, i: nat)
    requires i < |lines|
    ensures Netted(lines, tb)[i] == Split([lines[i]], tb)[0]
  {
    assert [lines[i]][..0] == [];
    if i < |lines| - 1 {
      NettedLines(lines[..|lines| - 1], tb, i);
    }
  }

  /** What a submitted line brings to a key. */
  function KeyShare(l: Line, tb: TaxBook, k: LineKey): real {
    if l.amount > 0.0 then KeyTotal(Split([l], tb), k) else 0.0
  }

  function KeyShareOf(lines: seq<Line>, tb: TaxBook, k: LineKey): real {
    if lines == [] then 0.0 else KeyShareOf(lines[..|lines| - 1], tb, k) + KeyShare(lines[|lines| - 1], tb, k)
  }

  /** Every key of an accepted request is stored with what its lines bring, one by one. */
  lemma {:induction false} StoredByKey(lines: seq<Line>, tb: TaxBook, k: LineKey)
    requires Prepare(lines, tb).Accepted?
    ensures KeyTotal(Prepare(lines, tb).stored, k) == KeyShareOf(lines, tb, k)
  {
    RegroupConserves(Split(Positive(lines), tb), k, DR);
    SplitByKey(lines, tb, k);
  }

  lemma {:induction false} SplitByKey(lines: seq<Line>, tb: TaxBook, k: LineKey)
    ensures KeyTotal(Split(Positive(lines), tb), k) == KeyShareOf(lines, tb, k)
  {
    if lines != [] {
      var rest, l := lines[..|lines| - 1], lines[|lines| - 1];
      SplitByKey(rest, tb, k);
      if l.amount > 0.0 {
        SplitConcat(Positive(rest), [l], tb);
        KeyTotalConcat(Split(Positive(rest), tb), Split([l], tb), k);
      } else {
        assert Positive(rest) + [] == Positive(rest);
      }
    }
  }

  /** The refusals in the order they are tried, over the positive lines: a side that rounds to zero, sides
      that round differently, an indication that is not known or has a positive rate and no mapping at all. */
  lemma {:induction false} RefusalsMean(lines: seq<Line>, tb: TaxBook)
    ensures var debit, credit := SideTotal(Positive(lines), DR), SideTotal(Positive(lines), CR);
            var out := Prepare(lines, tb);
      && (out == Refused(ZeroTotal) <==> Round(debit, Cents) == 0.0 || Round(credit, Cents) == 0.0)
      && (out == Refused(Unbalanced)
          <==> Round(debit, Cents) != 0.0 && Round(credit, Cents) != 0.0 && Round(debit, Cents) != Round(credit, Cents))
      && (out == Refused(TaxLookupFailed) ==> exists i :: 0 <= i < |lines| && CannotBeTaxed(lines[i], tb))
      && (out.Accepted? ==> forall i :: 0 <= i < |lines| ==> !CannotBeTaxed(lines[i], tb))
  {
    var at := PositiveKeepsOrder(lines);
    var p := Positive(lines);
    if Prepare(lines, tb) == Refused(TaxLookupFailed) {
      var i :| 0 <= i < |p| && !LookupOk(p[i], tb);
      assert CannotBeTaxed(lines[at[i]], tb);
    }
    if Prepare(lines, tb).Accepted? {
      forall j | 0 <= j < |lines| ensures !CannotBeTaxed(lines[j], tb) {
        if lines[j].amount > 0.0 {
          var i :| 0 <= i < |at| && at[i] == j;
          assert LookupOk(p[i], tb);
        }
      }
    }
  }

  /** A positive line whose indication is unknown, or is taxed while the supplier has no mapping. */
  predicate CannotBeTaxed(l: Line, tb: TaxBook) {
    && l.amount > 0.0 && l.tax.Some?
    && (l.tax.value !in tb.rates || (tb.rates[l.tax.value] > 0.0 && tb.mapping.None?))
  }

  lemma {:induction false} SplitPositive(lines: seq<Line>, tb: TaxBook)
    requires AllPositive(lines)
    ensures AllPositive(Split(lines, tb))
  {
    if lines != [] {
      var l := lines[|lines| - 1];
      SplitPositive(lines[..|lines| - 1], tb);
      if IsSplit(l, tb) {
        TaxSplits(l.amount, tb.rates[l.tax.value]);
      }
    }
  }

  lemma {:induction false} SplitNothing(lines: seq<Line>, tb: TaxBook)
    requires forall i :: 0 <= i < |lines| ==> !IsSplit(lines[i], tb)
    ensures Split(lines, tb) == lines && Netted(lines, tb) == lines && TaxPart(lines, tb) == []
  {
    if lines != [] {
      SplitNothing(lines[..|lines| - 1], tb);
    }
  }

  /** `kept` are exactly the positive lines of the list, in their order; `at` are their positions. */
  ghost predicate Picks(lines: seq<Line>, kept: seq<Line>, at: seq<nat>) {
    && |at| == |kept|
    && (forall i :: 0 <= i < |at| ==> at[i] < |lines| && kept[i] == lines[at[i]] && kept[i].amount > 0.0)
    && (forall i, j :: 0 <= i < j < |at| ==> at[i] < at[j])
    && (forall p :: 0 <= p < |lines| && lines[p].amount > 0.0 ==> p in at)
  }

  lemma {:induction false} PickNext(lines: seq<Line>, l: Line, kept: seq<Line>, at: seq<nat>)
    requires Picks(lines, kept, at)
    ensures l.amount > 0.0 ==> Picks(lines + [l], kept + [l], at + [|lines|])
    ensures l.amount <= 0.0 ==> Picks(lines + [l], kept, at)
  {
    var all := lines + [l];
    assert forall p :: 0 <= p < |lines| ==> all[p] == lines[p];
    assert forall p :: p in at ==> p in at + [|lines|];
    assert (at + [|lines|])[|at|] == |lines|;
  }

  /** The filter keeps exactly the positive lines, in their order. */
  lemma {:induction false} PositiveKeepsOrder(lines: seq<Line>) returns (at: seq<nat>)
    ensures Picks(lines, Positive(lines), at)
  {
    if lines == [] {
      at := [];
    } else {
      var rest, l := lines[..|lines| - 1], lines[|lines| - 1];
      at := PositiveKeepsOrder(rest);
      PickNext(rest, l, Positive(rest), at);
      assert rest + [l] == lines;
      if l.amount > 0.0 {
        at := at + [|rest|];
      }
    }
  }

  lemma {:induction false} PositiveId(lines: seq<Line>)
    requires AllPositive(lines)
    ensures Positive(lines) == lines
  {
    if lines != [] {
      PositiveId(lines[..|lines| - 1]);
    }
  }

  /** Dropping zero lines changes no total. */
  lemma {:induction false} PositiveTotals(lines: seq<Line>, k: LineKey, s: Side)
    requires NoneNegative(lines)
    ensures KeyTotal(Positive(lines), k) == KeyTotal(lines, k)
    ensures SideTotal(Positive(lines), s) == SideTotal(lines, s)
  {
    if lines != [] {
      var l, rest := lines[|lines| - 1], lines[..|lines| - 1];
      PositiveTotals(rest, k, s);
      if l.amount > 0.0 {
        KeyTotalSnoc(Positive(rest), l, k);
        SideTotalSnoc(Positive(rest), l, s);
      } else {
        assert Positive(rest) + [] == Positive(rest);
      }
    }
  }

  /** An accepted voucher means what was submitted: distinct keys in the order the split lines first
      use them, positive amounts, every key the sum of its split lines, the submitted positive side
      totals, and debit within one cent of credit. */
  lemma {:induction false} CreateKeepsMeaning(lines: seq<Line>, tb: TaxBook) returns (first: seq<nat>)
    requires Prepare(lines, tb).Accepted?
    ensures GroupsOf(Split(Positive(lines), tb), Prepare(lines, tb).stored, first)
    ensures DistinctKeys(Prepare(lines, tb).stored) && AllPositive(Prepare(lines, tb).stored)
    ensures forall s :: SideTotal(Prepare(lines, tb).stored, s) == SideTotal(Positive(lines), s)
    ensures Abs(Imbalance(Prepare(lines, tb).stored)) <= 0.01
  {
    var p := Positive(lines);
    first := RegroupMeets(Split(p, tb));
    RegroupHasDistinctKeys(Split(p, tb));
    SplitPositive(p, tb);
    RegroupPositive(Split(p, tb));
    forall s ensures SideTotal(Regroup(Split(p, tb)), s) == SideTotal(p, s) {
      RegroupConserves(Split(p, tb), Key(0, s), s);
      SplitTotals(p, tb, Key(0, s), s);
    }
    RoundsAlike(SideTotal(p, DR), SideTotal(p, CR));
  }

  /** Every account receives on each side what was submitted for it net of tax, plus the tax lines. */
  lemma {:induction false} CreateKeyTotals(lines: seq<Line>, tb: TaxBook, k: LineKey)
    requires Prepare(lines, tb).Accepted?
    ensures KeyTotal(Prepare(lines, tb).stored, k)
         == KeyTotal(Prepare(lines, tb).posted, k) + KeyTotal(TaxPart(Positive(lines), tb), k)
  {
    RegroupConserves(Split(Positive(lines), tb), k, DR);
    SplitTotals(Positive(lines), tb, k, DR);
  }

  /** Balanced lines that carry no tax indication are refused only when their total rounds to zero. */
  lemma {:induction false} BalancedAccepted(lines: seq<Line>, tb: TaxBook)
    requires NoneNegative(lines) && SideTotal(lines, DR) == SideTotal(lines, CR)
    requires Untaxed(lines)
    ensures Prepare(lines, tb).Accepted? <==> Round(SideTotal(lines, DR), Cents) != 0.0
    ensures Prepare(lines, tb).Accepted? ==> Prepare(lines, tb).stored == Regroup(Positive(lines))
  {
    var p := Positive(lines);
    PositiveTotals(lines, Key(0, DR), DR);
    PositiveTotals(lines, Key(0, DR), CR);
    PositiveUntaxed(lines);
    assert LookupsOk(p, tb);
    assert Split(p, tb) == p by { SplitNothing(p, tb); }
  }

  predicate Untaxed(lines: seq<Line>) {
    forall i :: 0 <= i < |lines| ==> lines[i].tax.None?
  }

  lemma {:induction false} PositiveUntaxed(lines: seq<Line>)
    requires Untaxed(lines)
    ensures Untaxed(Positive(lines))
  {
    if lines != [] {
      PositiveUntaxed(lines[..|lines| - 1]);
    }
  }

  // ----- the loops -----

  /** The split loop. It rewrites the amounts of the filtered lines in place, so the array afterwards
      holds net amounts, and pushes net and tax lines to a new list. A failed look-up throws. */
  method SplitTaxes(filtered: array<Line>, tb: TaxBook) returns (ok: bool, items: seq<Line>)
    modifies filtered
    ensures ok == LookupsOk(old(filtered[..]), tb)
    ensures ok ==> filtered[..] == Netted(old(filtered[..]), tb) && items == Split(old(filtered[..]), tb)
  {
    ghost var was := filtered[..];
    items := [];
    var i := 0;
    while i < filtered.Length
      invariant 0 <= i <= filtered.Length
      invariant LookupsOk(was[..i], tb)
      invariant items == Split(was[..i], tb)
      invariant filtered[..i] == Netted(was[..i], tb)
      invariant forall j :: i <= j < filtered.Length ==> filtered[j] == was[j]
    {
      assert was[..i + 1][..i] == was[..i];
      var el := filtered[i];
      ghost var before := items;
      assert Split(was[..i + 1], tb) == before + [NetLine(el, tb)]
          + (if IsSplit(el, tb) then [TaxLine(el, tb)] else []);
      if el.tax.Some? {
        if el.tax.value !in tb.rates {
          return false, [];
        }
        var rate := tb.rates[el.tax.value];
        if rate > 0.0 {
          if tb.mapping.None? {
            return false, [];
          }
          if el.tax.value in tb.mapping.value {
            var newAmount := el.amount / (1.0 + rate / 100.0);
            var taxAmount := newAmount * rate / 100.0;
            filtered[i] := el.(amount := newAmount);
            items := items + [filtered[i]];
            items := items + [filtered[i].(account := tb.mapping.value[el.tax.value], amount := taxAmount)];
            assert items == before + [NetLine(el, tb), TaxLine(el, tb)] by {
              assert taxAmount == TaxAmount(el.amount, rate);
              assert filtered[i] == NetLine(el, tb);
            }
          } else {
            items := items + [el];
          }
        } else {
          items := items + [el];
        }
      } else {
        items := items + [el];
      }
      assert filtered[..i + 1] == filtered[..i] + [filtered[i]];
      assert items == before + [NetLine(el, tb)] + (if IsSplit(el, tb) then [TaxLine(el, tb)] else []);
      i := i + 1;
    }
    assert was[..i] == was && filtered[..i] == filtered[..];
    return true, items;
  }

  /** The object `result`, keyed by account and side, with its insertion order, holds these groups. */
  ghost predicate Holds(result: map<LineKey, Line>, order: seq<LineKey>, g: seq<Line>) {
    && |order| == |g|
    && (forall j :: 0 <= j < |g| ==> order[j] == g[j].Key() && order[j] in result && result[order[j]] == g[j])
    && (forall k :: k in result ==> k in order)
  }

  lemma {:induction false} HoldsAt(result: map<LineKey, Line>, order: seq<LineKey>, g: seq<Line>, k: LineKey)
    requires Holds(result, order, g)
    ensures k in result <==> Find(g, k) < |g|
    ensures k in result ==> result[k] == g[Find(g, k)]
  {
  }

  lemma {:induction false} HoldsPut(result: map<LineKey, Line>, order: seq<LineKey>, g: seq<Line>, l: Line)
    requires Holds(result, order, g) && DistinctKeys(g)
    ensures var i := Find(g, l.Key());
      && (i < |g| ==> Holds(result[l.Key() := l], order, g[i := l]))
      && (i == |g| ==> Holds(result[l.Key() := l], order + [l.Key()], g + [l]))
  {
  }

  /** The `reduce` into that object, read back in insertion order. */
  method MergeLines(lines: seq<Line>) returns (merged: seq<Line>)
    ensures merged == Regroup(lines)
  {
    var result: map<LineKey, Line> := map[];
    var order: seq<LineKey> := [];
    for i := 0 to |lines|
      invariant Holds(result, order, Regroup(lines[..i]))
    {
      var item := lines[i];
      var k := item.Key();
      ghost var g := Regroup(lines[..i]);
      HoldsAt(result, order, g, k);
      RegroupHasDistinctKeys(lines[..i]);
      ghost var held := result;
      ghost var joined := if k in result then result[k].(amount := result[k].amount + item.amount) else item;
      HoldsPut(held, order, g, joined);
      if k !in result {
        result := result[k := item.(amount := 0.0)];
        order := order + [k];
      }
      result := result[k := result[k].(amount := result[k].amount + item.amount)];
      assert result[k] == joined;
      assert result == held[k := joined];
      assert Holds(result, order, AddToGroup(g, item));
      assert lines[..i + 1][..i] == lines[..i];
    }
    assert lines[..|lines|] == lines;
    merged := seq(|order|, j requires 0 <= j < |order| && order[j] in result => result[order[j]]);
  }

  method FilterPositive(lines: seq<Line>) returns (kept: array<Line>)
    ensures fresh(kept) && kept[..] == Positive(lines)
  {
    var p: seq<Line> := [];
    for i := 0 to |lines|
      invariant p == Positive(lines[..i])
    {
      assert lines[..i + 1][..i] == lines[..i];
      if lines[i].amount > 0.0 {
        p := p + [lines[i]];
      }
    }
    assert lines[..|lines|] == lines;
    kept := new Line[|p|](i requires 0 <= i < |p| => p[i]);
  }

  /** The line-processing part of `create`. */
  method PrepareVoucher(lines: seq<Line>, tb: TaxBook) returns (out: Outcome)
    ensures out == Prepare(lines, tb)
  {
    var filtered := FilterPositive(lines);
    var credit := SideTotal(filtered[..], CR);
    var debit := SideTotal(filtered[..], DR);
    if Round(credit, Cents) == 0.0 || Round(debit, Cents) == 0.0 {
      return Refused(ZeroTotal);
    }
    if Round(credit, Cents) != Round(debit, Cents) {
      return Refused(Unbalanced);
    }
    var ok, items := SplitTaxes(filtered, tb);
    if !ok {
      return Refused(TaxLookupFailed);
    }
    var merged := MergeLines(items);
    return Accepted(merged, filtered[..]);
  }
}
