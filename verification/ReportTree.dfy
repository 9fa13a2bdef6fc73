/** Financial report templates: a tree of groups, each with rows of its own, rows aggregated from other
    groups, or both. */
module ReportTree {
  import opened VoucherLines

  datatype Operation = Add | Substract

  datatype Aggregate = Aggregate(groupOrders: set<int>, operation: Operation)

  /** A row; its account is the one it was first created for. */
  datatype Row = Row(account: nat, total: real)

  /** A template group; `data` are the rows fetched for its account set, if it has one. */
  datatype Group = Group(order: int, data: Option<seq<Row>>, aggregate: Option<Aggregate>, children: seq<Group>)

  /** A group while the report runs; before its turn both lists are absent, which counts as empty. */
  datatype Result = Result(order: int, reportData: seq<Row>, aggregateData: seq<Row>)

  // ----- collecting groups -----

  function Flatten(groups: seq<Group>): seq<Group> {
    if groups == [] then [] else [groups[0]] + Flatten(groups[0].children) + Flatten(groups[1..])
  }

  /** The tree as it stands while the report runs. */
  datatype Node = Node(own: Result, children: seq<Node>)

  function FlattenNodes(nodes: seq<Node>): seq<Result> {
    if nodes == [] then [] else [nodes[0].own] + FlattenNodes(nodes[0].children) + FlattenNodes(nodes[1..])
  }

  /** The recursive collector. */
  function Collect(orders: set<int>, nodes: seq<Node>): seq<Result> {
    if nodes == [] then []
    else
      (if nodes[0].own.order in orders then [nodes[0].own] else [])
      + Collect(orders, nodes[0].children) + Collect(orders, nodes[1..])
  }

  function Select(orders: set<int>, rs: seq<Result>): seq<Result> {
    if rs == [] then [] else (if rs[0].order in orders then [rs[0]] else []) + Select(orders, rs[1..])
  }

  lemma {:induction false} SelectFirst(orders: set<int>, r: Result, rs: seq<Result>)
    ensures Select(orders, [r] + rs) == (if r.order in orders then [r] else []) + Select(orders, rs)
  {
    assert ([r] + rs)[1..] == rs;
  }

  lemma {:induction false} SelectConcat(orders: set<int>, a: seq<Result>, b: seq<Result>)
    ensures Select(orders, a + b) == Select(orders, a) + Select(orders, b)
  {
    if a == [] {
      assert a + b == b;
    } else {
      var rest := a[1..];
      assert Select(orders, rest + b) == Select(orders, rest) + Select(orders, b) by { SelectConcat(orders, rest, b); }
      assert a == [a[0]] + rest && a + b == [a[0]] + (rest + b);
      SelectFirst(orders, a[0], rest);
      SelectFirst(orders, a[0], rest + b);
      Regrouped(if a[0].order in orders then [a[0]] else [], Select(orders, rest), Select(orders, b));
    }
  }

  lemma {:induction false} Regrouped(x: seq<Result>, y: seq<Result>, z: seq<Result>)
    ensures x + (y + z) == x + y + z
  {
  }

  /** What is collected is the preorder flattening filtered by order. */
  lemma {:induction false} CollectIsFilteredPreorder(orders: set<int>, nodes: seq<Node>)
    ensures Collect(orders, nodes) == Select(orders, FlattenNodes(nodes))
  {
    if nodes != [] {
      CollectIsFilteredPreorder(orders, nodes[0].children);
      CollectIsFilteredPreorder(orders, nodes[1..]);
      var head := [nodes[0].own];
      SelectConcat(orders, head + FlattenNodes(nodes[0].children), FlattenNodes(nodes[1..]));
      SelectConcat(orders, head, FlattenNodes(nodes[0].children));
      assert head[1..] == [];
    }
  }

  /** The template tree carrying results, given in preorder. */
  function Dress(groups: seq<Group>, rs: seq<Result>): seq<Node>
    requires |rs| >= |Flatten(groups)|
  {
    if groups == [] then []
    else
      var n := |Flatten(groups[0].children)|;
      [Node(rs[0].(order := groups[0].order), Dress(groups[0].children, rs[1..n + 1]))]
          + Dress(groups[1..], rs[n + 1..])
  }

  /** The results, in preorder, belong to these groups. */
  predicate Fits(groups: seq<Group>, rs: seq<Result>) {
    |rs| == |groups| && forall i :: 0 <= i < |rs| ==> rs[i].order == groups[i].order
  }

  lemma {:induction false} DressFlattens(groups: seq<Group>, rs: seq<Result>)
    requires Fits(Flatten(groups), rs)
    ensures FlattenNodes(Dress(groups, rs)) == rs
  {
    if groups != [] {
      var below, beside := Flatten(groups[0].children), Flatten(groups[1..]);
      FitsParts(groups[0], below, beside, rs);
      var mid, tail := rs[1..|below| + 1], rs[|below| + 1..];
      assert FlattenNodes(Dress(groups[0].children, mid)) == mid by { DressFlattens(groups[0].children, mid); }
      assert FlattenNodes(Dress(groups[1..], tail)) == tail by { DressFlattens(groups[1..], tail); }
      assert FlattenNodes(Dress(groups, rs)) == [rs[0]] + mid + tail by { DressFirst(groups, rs); }
      ThreeParts(rs, |below|);
    }
  }

  lemma {:induction false} ThreeParts(rs: seq<Result>, n: nat)
    requires n < |rs|
    ensures rs == [rs[0]] + rs[1..n + 1] + rs[n + 1..]
  {
  }

  lemma {:induction false} DressFirst(groups: seq<Group>, rs: seq<Result>)
    requires groups != [] && |rs| == |Flatten(groups)| && rs[0].order == groups[0].order
    ensures var n := |Flatten(groups[0].children)|;
      && |rs| == 1 + n + |Flatten(groups[1..])|
      && FlattenNodes(Dress(groups, rs)) ==
         [rs[0]] + FlattenNodes(Dress(groups[0].children, rs[1..n + 1])) + FlattenNodes(Dress(groups[1..], rs[n + 1..]))
  {
    var n := |Flatten(groups[0].children)|;
    FlattenFirst(Node(rs[0], Dress(groups[0].children, rs[1..n + 1])), Dress(groups[1..], rs[n + 1..]));
  }

  lemma {:induction false} FlattenFirst(node: Node, nodes: seq<Node>)
    ensures FlattenNodes([node] + nodes) == [node.own] + FlattenNodes(node.children) + FlattenNodes(nodes)
  {
    assert ([node] + nodes)[1..] == nodes;
  }

  lemma {:induction false} FitsParts(g: Group, below: seq<Group>, beside: seq<Group>, rs: seq<Result>)
    requires Fits([g] + below + beside, rs)
    ensures rs[0].order == g.order
    ensures Fits(below, rs[1..|below| + 1]) && Fits(beside, rs[|below| + 1..])
  {
    var all := [g] + below + beside;
    assert forall i :: 0 <= i < |below| ==> all[i + 1] == below[i];
    assert forall i :: 0 <= i < |beside| ==> all[|below| + 1 + i] == beside[i];
  }

  // ----- combining rows by position -----

  /** One more total onto a running one; a running total of zero counts as not set yet. */
  function Combine(op: Operation, running: real, next: real): real {
    if running == 0.0 then next else if op == Add then running + next else running - next
  }

  /** A list onto the aggregated rows, position by position; new positions open a row. */
  function AddList(op: Operation, acc: seq<Row>, list: seq<Row>): (r: seq<Row>)
    ensures |r| == if |acc| < |list| then |list| else |acc|
  {
    if list == [] then acc
    else
      var k := |list| - 1;
      var before := AddList(op, acc, list[..k]);
      AddRow(op, before, k, list[k])
  }

  /** The row at position k; a position past the end opens a row. */
  function AddRow(op: Operation, rows: seq<Row>, k: nat, rd: Row): seq<Row> {
    if k < |rows| then rows[k := rows[k].(total := Combine(op, rows[k].total, rd.total))]
    else rows + [Row(rd.account, rd.total)]
  }

  function AddLists(op: Operation, lists: seq<seq<Row>>): seq<Row> {
    if lists == [] then [] else AddList(op, AddLists(op, lists[..|lists| - 1]), lists[|lists| - 1])
  }

  /** The k-th totals of the lists long enough to have one, in list order. */
  function Column(lists: seq<seq<Row>>, k: nat): seq<real> {
    if lists == [] then []
    else
      var l := lists[|lists| - 1];
      Column(lists[..|lists| - 1], k) + (if k < |l| then [l[k].total] else [])
  }

  function Sum(xs: seq<real>): real {
    if xs == [] then 0.0 else Sum(xs[..|xs| - 1]) + xs[|xs| - 1]
  }

  function RowSum(rows: seq<Row>): real {
    if rows == [] then 0.0 else RowSum(rows[..|rows| - 1]) + rows[|rows| - 1].total
  }

  function ListSum(lists: seq<seq<Row>>): real {
    if lists == [] then 0.0 else ListSum(lists[..|lists| - 1]) + RowSum(lists[|lists| - 1])
  }

  function Longest(lists: seq<seq<Row>>): nat {
    if lists == [] then 0
    else
      var n := Longest(lists[..|lists| - 1]);
      if n < |lists[|lists| - 1]| then |lists[|lists| - 1]| else n
  }

  /** A column run through the combination. */
  function Running(op: Operation, xs: seq<real>): real {
    if xs == [] then 0.0 else Combine(op, Running(op, xs[..|xs| - 1]), xs[|xs| - 1])
  }

  lemma {:induction false} AddListAt(op: Operation, acc: seq<Row>, list: seq<Row>, k: nat)
    requires k < |AddList(op, acc, list)|
    ensures AddList(op, acc, list)[k].total ==
            if k >= |list| then acc[k].total
            else Combine(op, if k < |acc| then acc[k].total else 0.0, list[k].total)
  {
    if list != [] {
      var n := |list| - 1;
      if k < |AddList(op, acc, list[..n])| {
        AddListAt(op, acc, list[..n], k);
      }
    }
  }

  /** Each aggregated row is its own column run through, and there are as many rows as the longest list has. */
  lemma {:induction false} RowsAreColumns(op: Operation, lists: seq<seq<Row>>)
    ensures |AddLists(op, lists)| == Longest(lists)
    ensures forall k :: 0 <= k < Longest(lists) ==> AddLists(op, lists)[k].total == Running(op, Column(lists, k))
    ensures forall k: nat :: k >= Longest(lists) ==> Column(lists, k) == []
  {
    if lists != [] {
      var rest, l := lists[..|lists| - 1], lists[|lists| - 1];
      RowsAreColumns(op, rest);
      forall k | 0 <= k < Longest(lists) ensures AddLists(op, lists)[k].total == Running(op, Column(lists, k)) {
        AddListAt(op, AddLists(op, rest), l, k);
        var c := Column(rest, k);
        if k < |l| {
          assert (c + [l[k].total])[..|c|] == c;
        } else {
          assert c + [] == c;
        }
      }
    }
  }

  lemma {:induction false} RunningAddIsSum(xs: seq<real>)
    ensures Running(Add, xs) == Sum(xs)
  {
    if xs != [] {
      RunningAddIsSum(xs[..|xs| - 1]);
    }
  }

  lemma {:induction false} AddListSum(acc: seq<Row>, list: seq<Row>)
    ensures RowSum(AddList(Add, acc, list)) == RowSum(acc) + RowSum(list)
  {
    if list != [] {
      var k := |list| - 1;
      var before := AddList(Add, acc, list[..k]);
      AddListSum(acc, list[..k]);
      if k < |before| {
        RowSumUpdate(before, k, Combine(Add, before[k].total, list[k].total));
      } else {
        assert (before + [Row(list[k].account, list[k].total)])[..|before|] == before;
      }
    }
  }

  lemma {:induction false} RowSumUpdate(rows: seq<Row>, k: nat, x: real)
    requires k < |rows|
    ensures RowSum(rows[k := rows[k].(total := x)]) == RowSum(rows) - rows[k].total + x
  {
    var n := |rows| - 1;
    var new' := rows[k := rows[k].(total := x)];
    if k == n {
      assert new'[..n] == rows[..n];
    } else {
      assert new'[..n] == rows[..n][k := rows[k].(total := x)];
      RowSumUpdate(rows[..n], k, x);
    }
  }

  /** Adding: row k is the sum of the k-th rows of all lists, ragged or not, and the grand total is kept. */
  lemma {:induction false} AddingSumsByPosition(lists: seq<seq<Row>>)
    ensures |AddLists(Add, lists)| == Longest(lists)
    ensures forall k :: 0 <= k < Longest(lists) ==> AddLists(Add, lists)[k].total == Sum(Column(lists, k))
    ensures RowSum(AddLists(Add, lists)) == ListSum(lists)
  {
    RowsAreColumns(Add, lists);
    forall k | 0 <= k < Longest(lists) ensures AddLists(Add, lists)[k].total == Sum(Column(lists, k)) {
      RunningAddIsSum(Column(lists, k));
    }
    GrandTotal(lists);
  }

  lemma {:induction false} GrandTotal(lists: seq<seq<Row>>)
    ensures RowSum(AddLists(Add, lists)) == ListSum(lists)
  {
    if lists != [] {
      GrandTotal(lists[..|lists| - 1]);
      AddListSum(AddLists(Add, lists[..|lists| - 1]), lists[|lists| - 1]);
    }
  }

  // ----- subtraction -----

  /** First minus the rest, which is what a subtraction is meant to give. */
  function FirstMinusRest(xs: seq<real>): real {
    if xs == [] then 0.0 else 2.0 * xs[0] - Sum(xs)
  }

  /** Entries that meet a running total of zero after the first entry: they are added, not subtracted. */
  function Restarts(xs: seq<real>): real {
    if |xs| <= 1 then 0.0
    else Restarts(xs[..|xs| - 1]) + (if Running(Substract, xs[..|xs| - 1]) == 0.0 then xs[|xs| - 1] else 0.0)
  }

  /** A subtracted column is off first-minus-rest by exactly twice its restarting entries, so it is right
      if and only if those sum to zero, in particular when no running total hits zero. */
  lemma {:induction false} SubtractionLaw(xs: seq<real>)
    ensures Running(Substract, xs) == FirstMinusRest(xs) + 2.0 * Restarts(xs)
    ensures Running(Substract, xs) == FirstMinusRest(xs) <==> Restarts(xs) == 0.0
    ensures (forall n :: 1 <= n < |xs| ==> Running(Substract, xs[..n]) != 0.0)
              ==> Running(Substract, xs) == FirstMinusRest(xs)
  {
    if |xs| == 1 {
      RunningSnoc(Substract, [], xs[0]);
      assert [] + [xs[0]] == xs;
    } else if |xs| > 1 {
      var n := |xs| - 1;
      SubtractionLaw(xs[..n]);
      if forall m :: 1 <= m < |xs| ==> Running(Substract, xs[..m]) != 0.0 {
        forall m | 1 <= m < n ensures Running(Substract, xs[..n][..m]) != 0.0 {
          assert xs[..n][..m] == xs[..m];
        }
      }
    }
  }

  lemma {:induction false} RunningSnoc(op: Operation, xs: seq<real>, x: real)
    ensures Sum(xs + [x]) == Sum(xs) + x
    ensures Running(op, xs + [x]) == if xs == [] then x else Combine(op, Running(op, xs), x)
  {
    assert (xs + [x])[..|xs|] == xs;
  }

  /** 5 - 5 - 3 comes out as 3. */
  lemma {:induction false} SubtractionRestarts(xs: seq<real>)
    requires xs == [5.0, 5.0, 3.0]
    ensures Running(Substract, xs) == 3.0 && FirstMinusRest(xs) == -3.0
  {
    RunningSnoc(Substract, [], 5.0);
    RunningSnoc(Substract, [5.0], 5.0);
    RunningSnoc(Substract, [5.0, 5.0], 3.0);
    assert [] + [5.0] == [5.0] && [5.0] + [5.0] == [5.0, 5.0] && [5.0, 5.0] + [3.0] == xs;
  }

  // ----- running the report over the tree -----

  /** The lists collected groups contribute, each group its rows and then its aggregate. */
  function ListsFrom(rs: seq<Result>): seq<seq<Row>> {
    if rs == [] then [] else ListsFrom(rs[..|rs| - 1]) + [rs[|rs| - 1].reportData, rs[|rs| - 1].aggregateData]
  }

  /** The lists of the groups with a listed order. */
  function ListsOf(orders: set<int>, rs: seq<Result>): seq<seq<Row>> {
    if rs == [] then []
    else
      var r := rs[|rs| - 1];
      ListsOf(orders, rs[..|rs| - 1]) + (if r.order in orders then [r.reportData, r.aggregateData] else [])
  }

  function Blank(groups: seq<Group>): (r: seq<Result>)
    ensures Fits(groups, r)
  {
    if groups == [] then [] else Blank(groups[..|groups| - 1]) + [Result(groups[|groups| - 1].order, [], [])]
  }

  function Later(all: seq<Group>, n: nat): seq<Group> {
    if n < |all| then all[n..] else []
  }

  function Own(g: Group): Result {
    Result(g.order, if g.data.Some? then g.data.value else [], [])
  }

  /** The tree as a group takes its turn: groups already done, itself with an aggregate just emptied, and
      later groups still blank. */
  function Standing(template: seq<Group>, done: seq<Result>, g: Group): (rs: seq<Result>)
    ensures |rs| >= |Flatten(template)|
  {
    done + [Own(g)] + Blank(Later(Flatten(template), |done| + 1))
  }

  /** A group's turn: its own rows are fetched, then its aggregate is taken over what the collector finds in
      the tree as it stands. */
  function Compute(template: seq<Group>, done: seq<Result>, g: Group): (r: Result)
    ensures r.order == g.order
  {
    if g.aggregate.None? then Own(g)
    else
      var found := Collect(g.aggregate.value.groupOrders, Dress(template, Standing(template, done, g)));
      Own(g).(aggregateData := AddLists(g.aggregate.value.operation, ListsFrom(found)))
  }

  type Turn = (seq<Result>, Group) -> Result

  function TurnIn(template: seq<Group>): Turn {
    (done: seq<Result>, g: Group) => Compute(template, done, g)
  }

  lemma {:induction false} SelectedLists(orders: set<int>, rs: seq<Result>)
    ensures ListsFrom(Select(orders, rs)) == ListsOf(orders, rs)
  {
    if rs != [] {
      var rest, last := rs[..|rs| - 1], rs[|rs| - 1];
      SelectedLists(orders, rest);
      SelectConcat(orders, rest, [last]);
      assert rest + [last] == rs && [last][1..] == [];
      var s := Select(orders, rest);
      if last.order in orders {
        assert (s + [last])[..|s|] == s;
      } else {
        assert s + [] == s;
      }
    }
  }

  /** What the collector finds on the tree as it stands are the listed groups, in preorder. */
  lemma {:induction false} LiveCollection(orders: set<int>, template: seq<Group>, rs: seq<Result>)
    requires Fits(Flatten(template), rs)
    ensures ListsFrom(Collect(orders, Dress(template, rs))) == ListsOf(orders, rs)
  {
    CollectIsFilteredPreorder(orders, Dress(template, rs));
    DressFlattens(template, rs);
    SelectedLists(orders, rs);
  }

  lemma {:induction false} InOrderFits(template: seq<Group>, groups: seq<Group>)
    ensures Fits(groups, InOrder(TurnIn(template), groups))
  {
    if groups != [] {
      InOrderFits(template, groups[..|groups| - 1]);
    }
  }

  /** The walk of `execute`: each group, then its children, then the next group. */
  function Walk(turn: Turn, groups: seq<Group>, done: seq<Result>): seq<Result> {
    if groups == [] then done
    else Walk(turn, groups[1..], Walk(turn, groups[0].children, done + [turn(done, groups[0])]))
  }

  /** A plain list of groups, each computed from those before it. */
  function InOrder(turn: Turn, groups: seq<Group>): (r: seq<Result>)
    ensures |r| == |groups|
  {
    if groups == [] then []
    else
      var done := InOrder(turn, groups[..|groups| - 1]);
      done + [turn(done, groups[|groups| - 1])]
  }

  lemma {:induction false} InOrderSnoc(turn: Turn, groups: seq<Group>, g: Group)
    ensures InOrder(turn, groups + [g]) == InOrder(turn, groups) + [turn(InOrder(turn, groups), g)]
  {
    assert (groups + [g])[..|groups|] == groups;
  }

  lemma {:induction false} FlattenStep(before: seq<Group>, groups: seq<Group>)
    requires groups != []
    ensures before + [groups[0]] + Flatten(groups[0].children) + Flatten(groups[1..]) == before + Flatten(groups)
  {
  }

  lemma {:induction false} WalkIsPreorder(turn: Turn, before: seq<Group>, groups: seq<Group>)
    ensures Walk(turn, groups, InOrder(turn, before)) == InOrder(turn, before + Flatten(groups))
    decreases groups
  {
    if groups == [] {
      assert before + Flatten(groups) == before;
    } else {
      var g, rest := groups[0], groups[1..];
      var before1 := before + [g];
      var before2 := before1 + Flatten(g.children);
      InOrderSnoc(turn, before, g);
      assert Walk(turn, g.children, InOrder(turn, before1)) == InOrder(turn, before2)
          by { WalkIsPreorder(turn, before1, g.children); }
      assert Walk(turn, rest, InOrder(turn, before2)) == InOrder(turn, before2 + Flatten(rest))
          by { WalkIsPreorder(turn, before2, rest); }
      assert before2 + Flatten(rest) == before + Flatten(groups) by { FlattenStep(before, groups); }
      assert Walk(turn, groups, InOrder(turn, before))
          == Walk(turn, rest, Walk(turn, g.children, InOrder(turn, before) + [turn(InOrder(turn, before), g)]));
    }
  }

  lemma {:induction false} EmptyListsAddNothing(op: Operation, lists: seq<seq<Row>>)
    ensures AddLists(op, lists + [[], []]) == AddLists(op, lists)
  {
    var one, two := lists + [[]], lists + [[], []];
    assert one[..|lists|] == lists && two[..|lists| + 1] == one;
    assert AddLists(op, one) == AddList(op, AddLists(op, lists), []);
    assert AddLists(op, two) == AddList(op, AddLists(op, one), []);
  }

  lemma {:induction false} ListsOfSnoc(orders: set<int>, rs: seq<Result>, r: Result)
    ensures ListsOf(orders, rs + [r]) == ListsOf(orders, rs)
              + (if r.order in orders then [r.reportData, r.aggregateData] else [])
  {
    assert (rs + [r])[..|rs|] == rs;
  }

  lemma {:induction false} BlankAddsNothing(op: Operation, orders: set<int>, rs: seq<Result>, groups: seq<Group>)
    ensures AddLists(op, ListsOf(orders, rs + Blank(groups))) == AddLists(op, ListsOf(orders, rs))
  {
    if groups == [] {
      assert rs + Blank(groups) == rs;
    } else {
      var rest, blank := groups[..|groups| - 1], Result(groups[|groups| - 1].order, [], []);
      var before := rs + Blank(rest);
      BlankAddsNothing(op, orders, rs, rest);
      assert rs + Blank(groups) == before + [blank];
      ListsOfSnoc(orders, before, blank);
      EmptyListsAddNothing(op, ListsOf(orders, before));
      assert ListsOf(orders, before) + [] == ListsOf(orders, before);
    }
  }

  /** Executing a template yields, for each group in preorder, its own rows and the positional aggregate of
      exactly the groups done before it (and its own rows, when it lists itself); later groups add
      nothing. */
  lemma {:induction false} ExecuteAggregatesEarlierGroups(tree: seq<Group>, i: nat)
    requires i < |Flatten(tree)|
    ensures var all, done := Flatten(tree), Walk(TurnIn(tree), tree, []);
            var g := all[i];
      && |done| == |all|
      && (g.aggregate.None? ==> done[i] == Own(g))
      && (g.aggregate.Some? ==>
            done[i] == Own(g).(aggregateData := AddLists(g.aggregate.value.operation,
                                                         ListsOf(g.aggregate.value.groupOrders, done[..i] + [Own(g)]))))
  {
    var all := Flatten(tree);
    var turn := TurnIn(tree);
    WalkIsPreorder(turn, [], tree);
    assert [] + all == all;
    InOrderPrefix(turn, all, i);
    var g, done := all[i], InOrder(turn, all[..i]);
    if g.aggregate.Some? {
      var orders := g.aggregate.value.groupOrders;
      StandingFits(tree, i);
      LiveCollection(orders, tree, Standing(tree, done, g));
      BlankAddsNothing(g.aggregate.value.operation, orders, done + [Own(g)], Later(all, i + 1));
    }
  }

  lemma {:induction false} StandingFits(tree: seq<Group>, i: nat)
    requires i < |Flatten(tree)|
    ensures Fits(Flatten(tree), Standing(tree, InOrder(TurnIn(tree), Flatten(tree)[..i]), Flatten(tree)[i]))
  {
    var all := Flatten(tree);
    var done := InOrder(TurnIn(tree), all[..i]);
    InOrderFits(tree, all[..i]);
    FitsConcat(all[..i], done, [all[i]], [Own(all[i])]);
    FitsConcat(all[..i] + [all[i]], done + [Own(all[i])], Later(all, i + 1), Blank(Later(all, i + 1)));
    assert all == all[..i] + [all[i]] + Later(all, i + 1);
  }

  lemma {:induction false} FitsConcat(g: seq<Group>, r: seq<Result>, g': seq<Group>, r': seq<Result>)
    requires Fits(g, r) && Fits(g', r')
    ensures Fits(g + g', r + r')
  {
  }

  lemma {:induction false} InOrderPrefix(turn: Turn, groups: seq<Group>, i: nat)
    requires i < |groups|
    ensures InOrder(turn, groups)[..i] == InOrder(turn, groups[..i])
    ensures InOrder(turn, groups)[i] == turn(InOrder(turn, groups[..i]), groups[i])
  {
    var n := |groups| - 1;
    if i < n {
      InOrderPrefix(turn, groups[..n], i);
      assert groups[..n][..i] == groups[..i];
    }
  }

  // ----- what a group ends up with -----

  /** An aggregated row keeps the account of the first list long enough to have one there. */
  lemma {:induction false} RowsKeepFirstAccount(op: Operation, lists: seq<seq<Row>>, j: nat, k: nat)
    requires j < |lists| && k < |lists[j]| && forall i :: 0 <= i < j ==> |lists[i]| <= k
    ensures k < |AddLists(op, lists)| && AddLists(op, lists)[k].account == lists[j][k].account
  {
    var n := |lists| - 1;
    var before := AddLists(op, lists[..n]);
    if j < n {
      RowsKeepFirstAccount(op, lists[..n], j, k);
      ListKeepsAccounts(op, before, lists[n], k);
    } else {
      RowsAreColumns(op, lists[..n]);
      LongestAtMost(lists[..n], k);
      ListKeepsAccounts(op, before, lists[n], k);
    }
  }

  lemma {:induction false} LongestAtMost(lists: seq<seq<Row>>, k: nat)
    requires forall i :: 0 <= i < |lists| ==> |lists[i]| <= k
    ensures Longest(lists) <= k
  {
    if lists != [] {
      LongestAtMost(lists[..|lists| - 1], k);
    }
  }

  lemma {:induction false} ListKeepsAccounts(op: Operation, acc: seq<Row>, list: seq<Row>, k: nat)
    requires k < |acc| || k < |list|
    ensures k < |AddList(op, acc, list)|
    ensures AddList(op, acc, list)[k].account == if k < |acc| then acc[k].account else list[k].account
  {
    if list != [] {
      var n := |list| - 1;
      if k < |acc| || k < n {
        ListKeepsAccounts(op, acc, list[..n], k);
      }
    }
  }

  /** After a report a group has its own order, the rows fetched for it and no others of its own, and without
      an aggregate no aggregated rows; with one, those of the listed groups done before it, each with its own
      rows first, and of its own rows when it lists itself. */
  lemma {:induction false} GroupHoldsItsRows(tree: seq<Group>, i: nat)
    requires i < |Flatten(tree)|
    ensures |Walk(TurnIn(tree), tree, [])| == |Flatten(tree)|
    ensures var g, done := Flatten(tree)[i], Walk(TurnIn(tree), tree, []);
            var fetched := if g.data.Some? then g.data.value else [];
      && done[i].order == g.order && done[i].reportData == fetched
      && (g.aggregate.None? ==> done[i].aggregateData == [])
      && (g.aggregate.Some? ==>
            done[i].aggregateData == AddLists(g.aggregate.value.operation,
                                              ListsOf(g.aggregate.value.groupOrders, done[..i])
                                              + (if g.order in g.aggregate.value.groupOrders then [fetched, []]
                                                 else [])))
  {
    ExecuteAggregatesEarlierGroups(tree, i);
    var g, done := Flatten(tree)[i], Walk(TurnIn(tree), tree, []);
    if g.aggregate.Some? {
      ListsOfSnoc(g.aggregate.value.groupOrders, done[..i], Own(g));
    }
  }

  /** Totals of the listed groups: of their own rows and of their aggregated ones. */
  function ListedTotal(orders: set<int>, rs: seq<Result>): real {
    if rs == [] then 0.0
    else
      var r := rs[|rs| - 1];
      ListedTotal(orders, rs[..|rs| - 1])
      + (if r.order in orders then RowSum(r.reportData) + RowSum(r.aggregateData) else 0.0)
  }

  lemma {:induction false} ListsHoldTotals(orders: set<int>, rs: seq<Result>)
    ensures ListSum(ListsOf(orders, rs)) == ListedTotal(orders, rs)
  {
    if rs != [] {
      var r, rest := rs[|rs| - 1], ListsOf(orders, rs[..|rs| - 1]);
      ListsHoldTotals(orders, rs[..|rs| - 1]);
      ListSumTwo(rest, r.reportData, r.aggregateData);
      assert rest + [] == rest;
    }
  }

  lemma {:induction false} ListSumTwo(lists: seq<seq<Row>>, x: seq<Row>, y: seq<Row>)
    ensures ListSum(lists + [x, y]) == ListSum(lists) + RowSum(x) + RowSum(y)
  {
    var one, two := lists + [x], lists + [x, y];
    assert two[..|two| - 1] == one && one[..|one| - 1] == lists;
  }

  /** The rows of an adding group that does not list itself come to what the listed groups before it hold in
      all. */
  lemma {:induction false} AddingGroupTotals(tree: seq<Group>, i: nat)
    requires i < |Flatten(tree)|
    requires var a := Flatten(tree)[i].aggregate;
             a.Some? && a.value.operation == Add && Flatten(tree)[i].order !in a.value.groupOrders
    ensures |Walk(TurnIn(tree), tree, [])| == |Flatten(tree)|
    ensures var done := Walk(TurnIn(tree), tree, []);
            RowSum(done[i].aggregateData)
            == ListedTotal(Flatten(tree)[i].aggregate.value.groupOrders, done[..i])
  {
    var orders, done := Flatten(tree)[i].aggregate.value.groupOrders, Walk(TurnIn(tree), tree, []);
    GroupHoldsItsRows(tree, i);
    assert ListsOf(orders, done[..i]) + [] == ListsOf(orders, done[..i]);
    AddingSumsByPosition(ListsOf(orders, done[..i]));
    ListsHoldTotals(orders, done[..i]);
  }

  // ----- the loops -----

  /** The object `aggregateData`, keyed by position, with its insertion order, holds these rows. */
  ghost predicate Holds(data: map<nat, Row>, order: seq<nat>, rows: seq<Row>) {
    && |order| == |rows|
    && (forall j :: 0 <= j < |rows| ==> order[j] == j && j in data && data[j] == rows[j])
    && (forall k :: k in data ==> k < |rows|)
  }

  lemma {:induction false} HoldsAt(data: map<nat, Row>, order: seq<nat>, rows: seq<Row>, k: nat)
    requires Holds(data, order, rows)
    ensures k in data <==> k < |rows|
    ensures k in data ==> data[k] == rows[k]
  {
  }

  lemma {:induction false} HoldsPut(data: map<nat, Row>, order: seq<nat>, rows: seq<Row>, k: nat, r: Row)
    requires Holds(data, order, rows) && k <= |rows|
    ensures k < |rows| ==> Holds(data[k := r], order, rows[k := r])
    ensures k == |rows| ==> Holds(data[k := r], order + [k], rows + [r])
  {
  }

  lemma {:induction false} AddListStep(op: Operation, acc: seq<Row>, list: seq<Row>, k: nat)
    requires k < |list|
    ensures AddList(op, acc, list[..k + 1]) == AddRow(op, AddList(op, acc, list[..k]), k, list[k])
  {
    assert list[..k + 1][..k] == list[..k];
  }

  /** The loop over the rows of one list. */
  method AddRows(op: Operation, list: seq<Row>, data0: map<nat, Row>, order0: seq<nat>, ghost acc: seq<Row>)
    returns (data: map<nat, Row>, order: seq<nat>)
    requires Holds(data0, order0, acc)
    ensures Holds(data, order, AddList(op, acc, list))
  {
    data, order := data0, order0;
    var counter := 0;
    assert list[..0] == [];
    while counter < |list|
      invariant 0 <= counter <= |list|
      invariant Holds(data, order, AddList(op, acc, list[..counter]))
    {
      var rd := list[counter];
      ghost var before := AddList(op, acc, list[..counter]);
      HoldsAt(data, order, before, counter);
      var next := rd;
      if counter in data {
        next := data[counter];
        if next.total != 0.0 {
          next := next.(total := if op == Add then next.total + rd.total else next.total - rd.total);
        } else {
          next := next.(total := rd.total);
        }
      }
      assert AddRow(op, before, counter, rd) == if counter < |before| then before[counter := next] else before + [next];
      HoldsPut(data, order, before, counter, next);
      if counter !in data {
        order := order + [counter];
      }
      data := data[counter := next];
      AddListStep(op, acc, list, counter);
      counter := counter + 1;
    }
    assert list[..|list|] == list;
  }

  /** The rows by position, read back in insertion order. */
  method AggregateLists(op: Operation, lists: seq<seq<Row>>) returns (rows: seq<Row>)
    ensures rows == AddLists(op, lists)
  {
    var data: map<nat, Row> := map[];
    var order: seq<nat> := [];
    for i := 0 to |lists|
      invariant Holds(data, order, AddLists(op, lists[..i]))
    {
      data, order := AddRows(op, lists[i], data, order, AddLists(op, lists[..i]));
      assert lists[..i + 1][..i] == lists[..i];
    }
    assert lists[..|lists|] == lists;
    rows := seq(|order|, j requires 0 <= j < |order| && order[j] in data => data[order[j]]);
  }

  /** One execution of a template. The groups done so far stand for the tree: their results in preorder,
      the rest blank. */
  class ReportRun {
    const template: seq<Group>
    var done: seq<Result>

    constructor (template: seq<Group>)
      ensures this.template == template && done == []
    {
      this.template, done := template, [];
    }

    method TakeTurn(g: Group)
      modifies this
      ensures done == old(done) + [Compute(template, old(done), g)]
    {
      var own := Result(g.order, if g.data.Some? then g.data.value else [], []);
      if g.aggregate.Some? {
        var tree := Dress(template, Standing(template, done, g));
        var reportingGroups := Collect(g.aggregate.value.groupOrders, tree);
        var lists: seq<seq<Row>> := [];
        for i := 0 to |reportingGroups|
          invariant lists == ListsFrom(reportingGroups[..i])
        {
          assert reportingGroups[..i + 1][..i] == reportingGroups[..i];
          lists := lists + [reportingGroups[i].reportData, reportingGroups[i].aggregateData];
        }
        assert reportingGroups[..|reportingGroups|] == reportingGroups;
        var rows := AggregateLists(g.aggregate.value.operation, lists);
        own := own.(aggregateData := rows);
      }
      done := done + [own];
    }

    /** Processes a list of groups, children before siblings. */
    method Process(groups: seq<Group>)
      modifies this
      ensures done == Walk(TurnIn(template), groups, old(done))
    {
      if groups != [] {
        TakeTurn(groups[0]);
        Process(groups[0].children);
        Process(groups[1..]);
      }
    }
  }
}
