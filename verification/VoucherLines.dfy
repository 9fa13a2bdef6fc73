/** Voucher lines, their totals per side and per (account, side) key, and the regrouping by key. */
module VoucherLines {
  import opened Rounding

  type Account = nat
  type TaxId = nat

  datatype Option<+T> = None | Some(value: T) {
    function GetOr(default: T): T {
      if Some? then value else default
    }
  }

  datatype Side = DR | CR {
    function Flip(): Side {
      if DR? then CR else DR
    }
  }

  /** One line of a voucher. Descriptive fields (cost centre, segment, text) travel with the line and
      take part in nothing, so they are left out; `tax` is the tax indication. */
  datatype Line = Line(account: Account, side: Side, amount: real, tax: Option<TaxId>) {
    function Key(): LineKey {
      LineKey.Key(account, side)
    }
  }

  datatype LineKey = Key(account: Account, side: Side)

  function SideTotal(lines: seq<Line>, s: Side): real {
    if lines == [] then 0.0
    else SideTotal(lines[..|lines| - 1], s) + (if lines[|lines| - 1].side == s then lines[|lines| - 1].amount else 0.0)
  }

  function KeyTotal(lines: seq<Line>, k: LineKey): real {
    if lines == [] then 0.0
    else KeyTotal(lines[..|lines| - 1], k) + (if lines[|lines| - 1].Key() == k then lines[|lines| - 1].amount else 0.0)
  }

  /** Debit minus credit on one account. */
  function Net(lines: seq<Line>, a: Account): real {
    KeyTotal(lines, Key(a, DR)) - KeyTotal(lines, Key(a, CR))
  }

  /** Debit minus credit over all accounts. */
  function Imbalance(lines: seq<Line>): real {
    SideTotal(lines, DR) - SideTotal(lines, CR)
  }

  predicate AllPositive(lines: seq<Line>) {
    forall i :: 0 <= i < |lines| ==> lines[i].amount > 0.0
  }

  predicate NoneNegative(lines: seq<Line>) {
    forall i :: 0 <= i < |lines| ==> lines[i].amount >= 0.0
  }

  lemma {:induction false} KeyTotalSnoc(lines: seq<Line>, l: Line, k: LineKey)
    ensures KeyTotal(lines + [l], k) == KeyTotal(lines, k) + (if l.Key() == k then l.amount else 0.0)
  {
    assert (lines + [l])[..|lines|] == lines;
  }

  lemma {:induction false} SideTotalSnoc(lines: seq<Line>, l: Line, s: Side)
    ensures SideTotal(lines + [l], s) == SideTotal(lines, s) + (if l.side == s then l.amount else 0.0)
  {
    assert (lines + [l])[..|lines|] == lines;
  }

  lemma {:induction false} KeyTotalConcat(a: seq<Line>, b: seq<Line>, k: LineKey)
    ensures KeyTotal(a + b, k) == KeyTotal(a, k) + KeyTotal(b, k)
  {
    if b == [] {
      assert a + b == a;
    } else {
      var n := |b| - 1;
      assert (a + b)[..|a| + n] == a + b[..n];
      KeyTotalConcat(a, b[..n], k);
    }
  }

  lemma {:induction false} SideTotalConcat(a: seq<Line>, b: seq<Line>, s: Side)
    ensures SideTotal(a + b, s) == SideTotal(a, s) + SideTotal(b, s)
  {
    if b == [] {
      assert a + b == a;
    } else {
      var n := |b| - 1;
      assert (a + b)[..|a| + n] == a + b[..n];
      SideTotalConcat(a, b[..n], s);
    }
  }

  /** Adding to one line adds to its key and its side. */
  lemma {:induction false} KeyTotalUpdate(g: seq<Line>, i: nat, x: real, k: LineKey)
    requires i < |g|
    ensures KeyTotal(g[i := g[i].(amount := g[i].amount + x)], k)
              == KeyTotal(g, k) + (if g[i].Key() == k then x else 0.0)
  {
    var h := g[i := g[i].(amount := g[i].amount + x)];
    var n := |g| - 1;
    if i == n {
      assert h[..n] == g[..n];
    } else {
      assert h[..n] == g[..n][i := g[i].(amount := g[i].amount + x)];
      KeyTotalUpdate(g[..n], i, x, k);
    }
  }

  lemma {:induction false} SideTotalUpdate(g: seq<Line>, i: nat, x: real, s: Side)
    requires i < |g|
    ensures SideTotal(g[i := g[i].(amount := g[i].amount + x)], s)
              == SideTotal(g, s) + (if g[i].side == s then x else 0.0)
  {
    var h := g[i := g[i].(amount := g[i].amount + x)];
    var n := |g| - 1;
    if i == n {
      assert h[..n] == g[..n];
    } else {
      assert h[..n] == g[..n][i := g[i].(amount := g[i].amount + x)];
      SideTotalUpdate(g[..n], i, x, s);
    }
  }

  lemma {:induction false} TotalsNonNegative(lines: seq<Line>, k: LineKey, s: Side)
    requires NoneNegative(lines)
    ensures KeyTotal(lines, k) >= 0.0 && SideTotal(lines, s) >= 0.0
  {
    if lines != [] {
      TotalsNonNegative(lines[..|lines| - 1], k, s);
    }
  }

  lemma {:induction false} AbsentKeyTotal(lines: seq<Line>, k: LineKey)
    requires forall i :: 0 <= i < |lines| ==> lines[i].Key() != k
    ensures KeyTotal(lines, k) == 0.0
  {
    if lines != [] {
      AbsentKeyTotal(lines[..|lines| - 1], k);
    }
  }

  // ----- regrouping by key -----

  /** Position of key k in the list, or the list's length. */
  function Find(g: seq<Line>, k: LineKey): (i: nat)
    ensures i <= |g|
    ensures i < |g| ==> g[i].Key() == k
    ensures forall j :: 0 <= j < i ==> g[j].Key() != k
  {
    if g == [] then 0
    else if g[0].Key() == k then 0
    else 1 + Find(g[1..], k)
  }

  /** One step of the `reduce`: open a group with the line's own fields and amount 0 when the key is
      new, then add the amount to the group. */
  function AddToGroup(g: seq<Line>, l: Line): seq<Line> {
    var i := Find(g, l.Key());
    if i < |g| then g[i := g[i].(amount := g[i].amount + l.amount)] else g + [l]
  }

  function Regroup(lines: seq<Line>): seq<Line> {
    if lines == [] then [] else AddToGroup(Regroup(lines[..|lines| - 1]), lines[|lines| - 1])
  }

  predicate DistinctKeys(g: seq<Line>) {
    forall i, j :: 0 <= i < j < |g| ==> g[i].Key() != g[j].Key()
  }

  /** The first line of the list that carries key k. */
  ghost predicate FirstAt(lines: seq<Line>, k: LineKey, p: int) {
    0 <= p < |lines| && lines[p].Key() == k && forall q :: 0 <= q < p ==> lines[q].Key() != k
  }

  /** g is the grouping of `lines` by key, said without the algorithm: `first` gives for each group the
      position of the first line with its key; groups stand in the order of those positions, carry
      that line's tax indication, and hold the sum of the lines with their key. */
  ghost predicate GroupsOf(lines: seq<Line>, g: seq<Line>, first: seq<nat>) {
    && |first| == |g|
    && (forall i :: 0 <= i < |g| ==> FirstAt(lines, g[i].Key(), first[i]))
    && (forall i :: 0 <= i < |g| ==> first[i] < |lines| && g[i].tax == lines[first[i]].tax)
    && (forall i, j :: 0 <= i < j < |g| ==> first[i] < first[j])
    && (forall i :: 0 <= i < |g| ==> g[i].amount == KeyTotal(lines, g[i].Key()))
  }

  /** Key k has a group in g. */
  predicate HasKey(g: seq<Line>, k: LineKey) {
    exists i :: 0 <= i < |g| && g[i].Key() == k
  }

  /** A key has a group exactly when some line carries it. */
  lemma {:induction false} RegroupKeys(lines: seq<Line>, k: LineKey)
    ensures HasKey(Regroup(lines), k) <==> HasKey(lines, k)
  {
    if lines != [] {
      var n := |lines| - 1;
      var g, l := Regroup(lines[..n]), lines[n];
      var i := Find(g, l.Key());
      var h := AddToGroup(g, l);
      RegroupKeys(lines[..n], k);
      assert h[i].Key() == l.Key();
      assert forall j :: 0 <= j < |g| ==> h[j].Key() == g[j].Key();
      assert forall j :: 0 <= j < n ==> lines[..n][j] == lines[j];
    }
  }

  lemma {:induction false} FirstAtSnoc(lines: seq<Line>, l: Line, k: LineKey, p: nat)
    requires FirstAt(lines, k, p)
    ensures FirstAt(lines + [l], k, p)
  {
    forall q | 0 <= q < p ensures (lines + [l])[q].Key() != k {
      assert (lines + [l])[q] == lines[q];
    }
  }

  /** The line joins the group it belongs to. */
  lemma {:induction false} JoinMeets(lines: seq<Line>, l: Line, g: seq<Line>, first: seq<nat>, i: nat)
    requires GroupsOf(lines, g, first) && DistinctKeys(g)
    requires i < |g| && g[i].Key() == l.Key()
    ensures GroupsOf(lines + [l], g[i := g[i].(amount := g[i].amount + l.amount)], first)
  {
    var h, all := g[i := g[i].(amount := g[i].amount + l.amount)], lines + [l];
    forall j | 0 <= j < |h|
      ensures FirstAt(all, h[j].Key(), first[j]) && all[first[j]] == lines[first[j]]
      ensures h[j].amount == KeyTotal(all, h[j].Key())
    {
      assert h[j].Key() == g[j].Key();
      FirstAtSnoc(lines, l, g[j].Key(), first[j]);
      KeyTotalSnoc(lines, l, g[j].Key());
    }
  }

  /** The line opens a group of its own, at the end. */
  lemma {:induction false} OpenMeets(lines: seq<Line>, l: Line, g: seq<Line>, first: seq<nat>)
    requires GroupsOf(lines, g, first)
    requires forall p :: 0 <= p < |lines| ==> lines[p].Key() != l.Key()
    ensures GroupsOf(lines + [l], g + [l], first + [|lines|])
  {
    var h, all, first' := g + [l], lines + [l], first + [|lines|];
    AbsentKeyTotal(lines, l.Key());
    forall j | 0 <= j < |h|
      ensures FirstAt(all, h[j].Key(), first'[j]) && h[j].tax == all[first'[j]].tax
      ensures h[j].amount == KeyTotal(all, h[j].Key())
    {
      if j < |g| {
        assert h[j] == g[j];
        FirstAtSnoc(lines, l, g[j].Key(), first[j]);
      }
      KeyTotalSnoc(lines, l, h[j].Key());
    }
    forall i, j | 0 <= i < j < |h| ensures first'[i] < first'[j] {
      assert FirstAt(lines, g[i].Key(), first[i]);
    }
  }

  /** The merge keeps meaning: one group per key in first-appearance order, each holding the sum of
      its lines. */
  lemma {:induction false} RegroupMeets(lines: seq<Line>) returns (first: seq<nat>)
    ensures GroupsOf(lines, Regroup(lines), first)
  {
    if lines == [] {
      first := [];
    } else {
      var rest, l := lines[..|lines| - 1], lines[|lines| - 1];
      first := RegroupMeets(rest);
      first := StepMeets(rest, l, first);
      assert rest + [l] == lines;
    }
  }

  lemma {:induction false} StepMeets(lines: seq<Line>, l: Line, first: seq<nat>) returns (first': seq<nat>)
    requires GroupsOf(lines, Regroup(lines), first)
    ensures GroupsOf(lines + [l], AddToGroup(Regroup(lines), l), first')
  {
    var g := Regroup(lines);
    var i := Find(g, l.Key());
    if i < |g| {
      GroupsAreDistinct(lines, g, first);
      JoinMeets(lines, l, g, first, i);
      first' := first;
    } else {
      RegroupKeys(lines, l.Key());
      OpenMeets(lines, l, g, first);
      first' := first + [|lines|];
    }
  }

  lemma {:induction false} RegroupHasDistinctKeys(lines: seq<Line>)
    ensures DistinctKeys(Regroup(lines))
  {
    var first := RegroupMeets(lines);
    GroupsAreDistinct(lines, Regroup(lines), first);
  }

  lemma {:induction false} GroupsAreDistinct(lines: seq<Line>, g: seq<Line>, first: seq<nat>)
    requires GroupsOf(lines, g, first)
    ensures DistinctKeys(g)
  {
    forall i, j | 0 <= i < j < |g| ensures g[i].Key() != g[j].Key() {
      assert FirstAt(lines, g[i].Key(), first[i]) && FirstAt(lines, g[j].Key(), first[j]);
      assert first[i] < first[j];
    }
  }

  lemma {:induction false} AddToGroupTotals(g: seq<Line>, l: Line, k: LineKey, s: Side)
    ensures KeyTotal(AddToGroup(g, l), k) == KeyTotal(g + [l], k)
    ensures SideTotal(AddToGroup(g, l), s) == SideTotal(g + [l], s)
  {
    var i := Find(g, l.Key());
    KeyTotalSnoc(g, l, k);
    SideTotalSnoc(g, l, s);
    if i < |g| {
      KeyTotalUpdate(g, i, l.amount, k);
      SideTotalUpdate(g, i, l.amount, s);
    }
  }

  /** Regrouping conserves every key total and both side totals. */
  lemma {:induction false} RegroupConserves(lines: seq<Line>, k: LineKey, s: Side)
    ensures KeyTotal(Regroup(lines), k) == KeyTotal(lines, k)
    ensures SideTotal(Regroup(lines), s) == SideTotal(lines, s)
  {
    if lines != [] {
      var n := |lines| - 1;
      var g, l := Regroup(lines[..n]), lines[n];
      RegroupConserves(lines[..n], k, s);
      AddToGroupTotals(g, l, k, s);
      KeyTotalSnoc(g, l, k);
      SideTotalSnoc(g, l, s);
    }
  }

  lemma {:induction false} RegroupPositive(lines: seq<Line>)
    requires AllPositive(lines)
    ensures AllPositive(Regroup(lines))
  {
    if lines != [] {
      RegroupPositive(lines[..|lines| - 1]);
    }
  }

  /** A list whose keys are already distinct is its own regrouping. */
  lemma {:induction false} RegroupDistinct(lines: seq<Line>)
    requires DistinctKeys(lines)
    ensures Regroup(lines) == lines
  {
    if lines != [] {
      var n := |lines| - 1;
      RegroupDistinct(lines[..n]);
      assert lines[..n] + [lines[n]] == lines;
    }
  }
}
