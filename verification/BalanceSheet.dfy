/** The balance-sheet report: a tree of account groups is calculated into rows of date columns, every group
    with children gets a summary row, and two grand rows close assets and liabilities. */
module BalanceSheet {
  import opened VoucherLines
  import opened DateBuckets

  /** One date column of a row; `bucket` is its label. */
  datatype Cell = Cell(bucket: int, amount: real)

  datatype Group = Group(accounts: set<Account>, children: seq<Group>)

  datatype Row = Row(cells: seq<Cell>, total: real, children: seq<Row>)

  /** The aggregation of a set of accounts by date. */
  type Columns = set<Account> -> seq<Cell>

  function Sum(cells: seq<Cell>): real {
    if cells == [] then 0.0 else Sum(cells[..|cells| - 1]) + cells[|cells| - 1].amount
  }

  /** Everything the cells hold under one bucket. */
  function AmountAt(cells: seq<Cell>, bucket: int): real {
    if cells == [] then 0.0
    else AmountAt(cells[..|cells| - 1], bucket)
         + (if cells[|cells| - 1].bucket == bucket then cells[|cells| - 1].amount else 0.0)
  }

  function Signed(isNegative: bool, x: real): real {
    if isNegative then -x else x
  }

  /** `getGroupData`: the tree keeps its shape; a negated section negates totals but not columns. */
  function Calculate(columns: Columns, groups: seq<Group>, isNegative: bool): (rows: seq<Row>)
    ensures |rows| == |groups|
  {
    if groups == [] then []
    else
      var g, cells := groups[|groups| - 1], columns(groups[|groups| - 1].accounts);
      Calculate(columns, groups[..|groups| - 1], isNegative)
      + [Row(cells, Signed(isNegative, Sum(cells)), Calculate(columns, g.children, isNegative))]
  }

  // ----- merging columns -----

  /** Position of the bucket, or the list's length. */
  function FindBucket(cells: seq<Cell>, bucket: int): (i: nat)
    ensures i <= |cells|
    ensures i < |cells| ==> cells[i].bucket == bucket
    ensures forall j :: 0 <= j < i ==> cells[j].bucket != bucket
  {
    if cells == [] then 0 else if cells[0].bucket == bucket then 0 else 1 + FindBucket(cells[1..], bucket)
  }

  function MergeCell(merged: seq<Cell>, c: Cell): seq<Cell> {
    var i := FindBucket(merged, c.bucket);
    if i < |merged| then merged[i := merged[i].(amount := merged[i].amount + c.amount)] else merged + [c]
  }

  function Merge(cells: seq<Cell>): seq<Cell> {
    if cells == [] then [] else MergeCell(Merge(cells[..|cells| - 1]), cells[|cells| - 1])
  }

  predicate DistinctBuckets(cells: seq<Cell>) {
    forall i, j :: 0 <= i < j < |cells| ==> cells[i].bucket != cells[j].bucket
  }

  lemma {:induction false} CellsSnoc(cells: seq<Cell>, c: Cell, bucket: int)
    ensures Sum(cells + [c]) == Sum(cells) + c.amount
    ensures AmountAt(cells + [c], bucket) == AmountAt(cells, bucket) + (if c.bucket == bucket then c.amount else 0.0)
  {
    assert (cells + [c])[..|cells|] == cells;
  }

  lemma {:induction false} CellsConcat(a: seq<Cell>, b: seq<Cell>, bucket: int)
    ensures Sum(a + b) == Sum(a) + Sum(b)
    ensures AmountAt(a + b, bucket) == AmountAt(a, bucket) + AmountAt(b, bucket)
  {
    if b == [] {
      assert a + b == a;
    } else {
      var n := |b| - 1;
      CellsConcat(a, b[..n], bucket);
      CellsSnoc(a + b[..n], b[n], bucket);
      assert a + b == a + b[..n] + [b[n]];
    }
  }

  lemma {:induction false} CellsUpdate(cells: seq<Cell>, i: nat, x: real, bucket: int)
    requires i < |cells|
    ensures var u := cells[i := cells[i].(amount := cells[i].amount + x)];
            Sum(u) == Sum(cells) + x && AmountAt(u, bucket)
                == AmountAt(cells, bucket) + (if cells[i].bucket == bucket then x else 0.0)
  {
    var n := |cells| - 1;
    var u := cells[i := cells[i].(amount := cells[i].amount + x)];
    if i == n {
      assert u[..n] == cells[..n];
    } else {
      assert u[..n] == cells[..n][i := cells[i].(amount := cells[i].amount + x)];
      CellsUpdate(cells[..n], i, x, bucket);
    }
  }

  lemma {:induction false} MergeCellConserves(merged: seq<Cell>, c: Cell, bucket: int)
    ensures AmountAt(MergeCell(merged, c), bucket)
              == AmountAt(merged, bucket) + (if c.bucket == bucket then c.amount else 0.0)
    ensures Sum(MergeCell(merged, c)) == Sum(merged) + c.amount
  {
    if FindBucket(merged, c.bucket) < |merged| {
      CellsUpdate(merged, FindBucket(merged, c.bucket), c.amount, bucket);
    } else {
      CellsSnoc(merged, c, bucket);
    }
  }

  lemma {:induction false} MergeCellDistinct(merged: seq<Cell>, c: Cell)
    requires DistinctBuckets(merged)
    ensures DistinctBuckets(MergeCell(merged, c))
  {
    var i, after := FindBucket(merged, c.bucket), MergeCell(merged, c);
    forall p, q | 0 <= p < q < |after| ensures after[p].bucket != after[q].bucket {
      if q < |merged| {
        assert merged[p].bucket != merged[q].bucket;
      }
    }
  }

  /** Merging gives at most one column per bucket. */
  lemma {:induction false} MergeDistinct(cells: seq<Cell>)
    ensures DistinctBuckets(Merge(cells))
  {
    if cells != [] {
      MergeDistinct(cells[..|cells| - 1]);
      MergeCellDistinct(Merge(cells[..|cells| - 1]), cells[|cells| - 1]);
    }
  }

  /** Merging keeps what every bucket holds, and the sum. */
  lemma {:induction false} MergeConserves(cells: seq<Cell>, bucket: int)
    ensures AmountAt(Merge(cells), bucket) == AmountAt(cells, bucket)
    ensures Sum(Merge(cells)) == Sum(cells)
  {
    if cells != [] {
      var rest, c := cells[..|cells| - 1], cells[|cells| - 1];
      MergeConserves(rest, bucket);
      MergeCellConserves(Merge(rest), c, bucket);
    }
  }

  // ----- summary rows -----

  function Concat(rows: seq<Row>): seq<Cell> {
    if rows == [] then [] else Concat(rows[..|rows| - 1]) + rows[|rows| - 1].cells
  }

  function Totals(rows: seq<Row>): real {
    if rows == [] then 0.0 else Totals(rows[..|rows| - 1]) + rows[|rows| - 1].total
  }

  /** The row `Total …` under a group: the columns of its direct children, merged. */
  function Summary(row: Row): Row {
    Row(Merge(Concat(row.children)), Totals(row.children), [])
  }

  /** The summary rows of a section: one for each top group with children. */
  function Summaries(rows: seq<Row>): seq<Row> {
    if rows == [] then []
    else Summaries(rows[..|rows| - 1]) + (if rows[|rows| - 1].children != [] then [Summary(rows[|rows| - 1])] else [])
  }

  /** The section as listed: every top group, followed by its summary. */
  function Section(rows: seq<Row>): seq<Row> {
    if rows == [] then []
    else
      var row := rows[|rows| - 1];
      Section(rows[..|rows| - 1]) + [row] + (if row.children != [] then [Summary(row)] else [])
  }

  /** A grand row takes its columns from the first section alone, its total from both. */
  function Grand(first: seq<Row>, second: seq<Row>): Row {
    Row(Merge(Concat(Summaries(first))), Totals(Summaries(first)) + Totals(Summaries(second)), [])
  }

  /** All columns of the summaries of a section. */
  function SectionSum(rows: seq<Row>): real {
    Sum(Concat(Summaries(rows)))
  }

  lemma {:induction false} CalculatedTotals(columns: Columns, groups: seq<Group>, isNegative: bool)
    ensures Totals(Calculate(columns, groups, isNegative))
              == Signed(isNegative, Sum(Concat(Calculate(columns, groups, isNegative))))
  {
    if groups != [] {
      var n := |groups| - 1;
      var rows := Calculate(columns, groups, isNegative);
      CalculatedTotals(columns, groups[..n], isNegative);
      assert rows[..n] == Calculate(columns, groups[..n], isNegative);
      CellsConcat(Concat(rows[..n]), rows[n].cells, 0);
    }
  }

  lemma {:induction false} CalculatedAt(columns: Columns, groups: seq<Group>, isNegative: bool, i: nat)
    requires i < |groups|
    ensures Calculate(columns, groups, isNegative)[i]
         == Row(columns(groups[i].accounts), Signed(isNegative, Sum(columns(groups[i].accounts))),
             Calculate(columns, groups[i].children, isNegative))
  {
    if i < |groups| - 1 {
      CalculatedAt(columns, groups[..|groups| - 1], isNegative, i);
    }
  }

  /** A summary's total is the sum of its columns in a plain section, and the opposite in a negated one; the
      two agree exactly when the section is plain or the columns sum to zero. */
  lemma {:induction false} SummaryTotal(columns: Columns, groups: seq<Group>, isNegative: bool, i: nat)
    requires i < |groups|
    ensures var s := Summary(Calculate(columns, groups, isNegative)[i]);
      && s.total == Signed(isNegative, Sum(s.cells))
      && DistinctBuckets(s.cells)
      && (s.total == Sum(s.cells) <==> !isNegative || Sum(s.cells) == 0.0)
  {
    CalculatedAt(columns, groups, isNegative, i);
    CalculatedTotals(columns, groups[i].children, isNegative);
    MergeConserves(Concat(Calculate(columns, groups[i].children, isNegative)), 0);
    MergeDistinct(Concat(Calculate(columns, groups[i].children, isNegative)));
  }

  lemma {:induction false} SectionTotals(columns: Columns, groups: seq<Group>, isNegative: bool)
    ensures var rows := Calculate(columns, groups, isNegative);
            Totals(Summaries(rows)) == Signed(isNegative, SectionSum(rows))
  {
    if groups != [] {
      var n := |groups| - 1;
      var rows := Calculate(columns, groups, isNegative);
      assert rows[..n] == Calculate(columns, groups[..n], isNegative);
      SectionTotals(columns, groups[..n], isNegative);
      var before := Summaries(rows[..n]);
      if rows[n].children != [] {
        var s := Summary(rows[n]);
        assert s.total == Signed(isNegative, Sum(s.cells)) by { SummaryTotal(columns, groups, isNegative, n); }
        assert (before + [s])[..|before|] == before;
        CellsConcat(Concat(before), s.cells, 0);
      } else {
        assert before + [] == before;
      }
    }
  }

  /** A grand row's columns sum to the first section, whereas its total also counts the second, each with
      its sign. */
  lemma {:induction false} GrandTotals(columns: Columns, first: seq<Group>, negateFirst: bool, second: seq<Group>,
                                       negateSecond: bool)
    ensures var a, b := Calculate(columns, first, negateFirst), Calculate(columns, second, negateSecond);
      && Sum(Grand(a, b).cells) == SectionSum(a)
      && Grand(a, b).total == Signed(negateFirst, SectionSum(a)) + Signed(negateSecond, SectionSum(b))
  {
    SectionTotals(columns, first, negateFirst);
    SectionTotals(columns, second, negateSecond);
    MergeConserves(Concat(Summaries(Calculate(columns, first, negateFirst))), 0);
  }

  /** TOTAL ASSETS foots with its columns exactly when the fixed assets sum to zero; TOTAL LIABILITIES AND
      EQUITY exactly when equity is twice the liabilities. */
  lemma {:induction false} GrandRowsFootIff(columns: Columns, current: seq<Group>, fixedAssets: seq<Group>,
                                            liabilities: seq<Group>, equity: seq<Group>)
    ensures var a, b := Calculate(columns, current, false), Calculate(columns, fixedAssets, true);
            Grand(a, b).total == Sum(Grand(a, b).cells) <==> SectionSum(b) == 0.0
    ensures var a, b := Calculate(columns, liabilities, true), Calculate(columns, equity, false);
            Grand(a, b).total == Sum(Grand(a, b).cells) <==> SectionSum(b) == 2.0 * SectionSum(a)
  {
    GrandTotals(columns, current, false, fixedAssets, true);
    GrandTotals(columns, liabilities, true, equity, false);
  }

  /** One account holding x in one bucket. */
  function OneAmount(x: real): Columns {
    (accounts: set<Account>) => if 1 in accounts then [Cell(1, x)] else []
  }

  /** With x on a fixed asset and nothing else, total assets come out as -x over an empty row of columns. */
  lemma {:induction false} FixedAssetBreaksFooting(x: real)
    ensures var a := Calculate(OneAmount(x), [Group({}, [])], false);
            var b := Calculate(OneAmount(x), [Group({}, [Group({1}, [])])], true);
            Grand(a, b).total == -x && Grand(a, b).cells == []
  {
    var current, asset := Group({}, []), Group({1}, []);
    var fixedAssets := Group({}, [asset]);
    var a, b := Calculate(OneAmount(x), [current], false), Calculate(OneAmount(x), [fixedAssets], true);
    assert Calculate(OneAmount(x), [], false) == [] && Calculate(OneAmount(x), [], true) == [];
    assert [current][..0] == [] && [fixedAssets][..0] == [] && [asset][..0] == [];
    assert a == [Row([], Signed(false, Sum([])), [])];
    var row := Row([Cell(1, x)], -x, []);
    CellsSnoc([], Cell(1, x), 1);
    assert [] + [Cell(1, x)] == [Cell(1, x)];
    assert Calculate(OneAmount(x), [asset], true) == [row];
    assert b == [Row([], Signed(true, Sum([])), [row])];
    assert a[..0] == [] && b[..0] == [] && [row][..0] == [];
    assert Summaries(a) == [];
    var s := Summary(b[0]);
    assert Totals([row]) == -x;
    assert Summaries(b) == [s] && [s][..0] == [];
  }

  // ----- with the date buckets -----

  /** The buckets from lo on, labelled. */
  function Labelled(fs: seq<Figures>, lo: int): seq<Cell> {
    if fs == [] then [] else Labelled(fs[..|fs| - 1], lo) + [Cell(lo + |fs| - 1, fs[|fs| - 1].totalAmount)]
  }

  function BucketColumns(g: Grain, data: seq<Entry>, start: Date, end: Date): Columns
    requires IsDate(start)
  {
    (accounts: set<Account>) =>
      Labelled(Coarse(g, Daily(data, accounts, Days(start, end)), KeyOf(g, start), KeyOf(g, end)), KeyOf(g, start))
  }

  lemma {:induction false} LabelledSum(fs: seq<Figures>, lo: int)
    ensures Sum(Labelled(fs, lo)) == Total(fs, TotalAmount)
  {
    if fs != [] {
      LabelledSum(fs[..|fs| - 1], lo);
      CellsSnoc(Labelled(fs[..|fs| - 1], lo), Cell(lo + |fs| - 1, fs[|fs| - 1].totalAmount), 0);
    }
  }

  lemma {:induction false} LabelledAt(g: Grain, rows: seq<DayRow>, lo: int, hi: int, k: int)
    ensures AmountAt(Labelled(Coarse(g, rows, lo, hi), lo), k)
              == if lo <= k <= hi then Bucket(g, rows, k, TotalAmount) else 0.0
    decreases hi - lo
  {
    if hi >= lo {
      LabelledAt(g, rows, lo, hi - 1, k);
      CoarseLength(g, rows, lo, hi - 1);
      var rest, f := Coarse(g, rows, lo, hi - 1), BucketFigures(g, rows, hi);
      LabelledSnoc(rest, f, lo);
      CellsSnoc(Labelled(rest, lo), Cell(hi, f.totalAmount), k);
    }
  }

  lemma {:induction false} LabelledSnoc(fs: seq<Figures>, f: Figures, lo: int)
    ensures Labelled(fs + [f], lo) == Labelled(fs, lo) + [Cell(lo + |fs|, f.totalAmount)]
  {
    assert (fs + [f])[..|fs|] == fs;
  }

  lemma {:induction false} CoarseLength(g: Grain, rows: seq<DayRow>, lo: int, hi: int)
    ensures |Coarse(g, rows, lo, hi)| == if hi < lo then 0 else hi - lo + 1
    decreases hi - lo
  {
    if hi >= lo {
      CoarseLength(g, rows, lo, hi - 1);
    }
  }

  /** What the groups hold in one bucket, group by group. */
  function GroupsBucket(g: Grain, data: seq<Entry>, days: seq<Date>, groups: seq<Group>, k: int): real {
    if groups == [] then 0.0
    else GroupsBucket(g, data, days, groups[..|groups| - 1], k)
         + Bucket(g, Daily(data, groups[|groups| - 1].accounts, days), k, TotalAmount)
  }

  function GroupsDaily(data: seq<Entry>, days: seq<Date>, groups: seq<Group>): real {
    if groups == [] then 0.0
    else GroupsDaily(data, days, groups[..|groups| - 1])
         + DailyTotal(Daily(data, groups[|groups| - 1].accounts, days), TotalAmount)
  }

  lemma {:induction false} ConcatCalculated(columns: Columns, groups: seq<Group>, isNegative: bool)
    requires groups != []
    ensures Concat(Calculate(columns, groups, isNegative))
         == Concat(Calculate(columns, groups[..|groups| - 1], isNegative)) + columns(groups[|groups| - 1].accounts)
  {
    var n := |groups| - 1;
    assert Calculate(columns, groups, isNegative)[..n] == Calculate(columns, groups[..n], isNegative);
  }

  lemma {:induction false} ConcatColumns(g: Grain, data: seq<Entry>, start: Date, end: Date, groups: seq<Group>,
                                         isNegative: bool, k: int)
    requires IsDate(start)
    ensures AmountAt(Concat(Calculate(BucketColumns(g, data, start, end), groups, isNegative)), k)
         == if KeyOf(g, start) <= k <= KeyOf(g, end) then GroupsBucket(g, data, Days(start, end), groups, k) else 0.0
  {
    if groups != [] {
      var n := |groups| - 1;
      var columns := BucketColumns(g, data, start, end);
      ConcatColumns(g, data, start, end, groups[..n], isNegative, k);
      ConcatCalculated(columns, groups, isNegative);
      CellsConcat(Concat(Calculate(columns, groups[..n], isNegative)), columns(groups[n].accounts), k);
      LabelledAt(g, Daily(data, groups[n].accounts, Days(start, end)), KeyOf(g, start), KeyOf(g, end), k);
    }
  }

  /** Each column of a summary is the children's figures of that bucket, added up. */
  lemma {:induction false} SummaryColumns(g: Grain, data: seq<Entry>, start: Date, end: Date, groups: seq<Group>,
                                          isNegative: bool, i: nat, k: int)
    requires IsDate(start) && i < |groups| && KeyOf(g, start) <= k <= KeyOf(g, end)
    ensures AmountAt(Summary(Calculate(BucketColumns(g, data, start, end), groups, isNegative)[i]).cells, k)
         == GroupsBucket(g, data, Days(start, end), groups[i].children, k)
  {
    var columns := BucketColumns(g, data, start, end);
    CalculatedAt(columns, groups, isNegative, i);
    MergeConserves(Concat(Calculate(columns, groups[i].children, isNegative)), k);
    ConcatColumns(g, data, start, end, groups[i].children, isNegative, k);
  }

  lemma {:induction false} ColumnsDaily(g: Grain, data: seq<Entry>, start: Date, end: Date, accounts: set<Account>)
    requires IsDate(start) && IsDate(end) && Rank(start) <= Rank(end)
    requires g.Annually? || start.year == end.year || WholeYear(g, start, end)
    ensures Sum(BucketColumns(g, data, start, end)(accounts))
              == DailyTotal(Daily(data, accounts, Days(start, end)), TotalAmount)
  {
    CoarseConserves(g, data, accounts, start, end, TotalAmount);
    LabelledSum(Coarse(g, Daily(data, accounts, Days(start, end)), KeyOf(g, start), KeyOf(g, end)), KeyOf(g, start));
  }

  lemma {:induction false} ConcatDaily(columns: Columns, data: seq<Entry>, days: seq<Date>, groups: seq<Group>,
                                       isNegative: bool)
    requires forall i :: 0 <= i < |groups| ==>
               Sum(columns(groups[i].accounts)) == DailyTotal(Daily(data, groups[i].accounts, days), TotalAmount)
    ensures Sum(Concat(Calculate(columns, groups, isNegative))) == GroupsDaily(data, days, groups)
  {
    if groups != [] {
      var n := |groups| - 1;
      ConcatDaily(columns, data, days, groups[..n], isNegative);
      ConcatCalculated(columns, groups, isNegative);
      CellsConcat(Concat(Calculate(columns, groups[..n], isNegative)), columns(groups[n].accounts), 0);
    }
  }

  /** Over every range the grain covers, a summary's total is the daily amounts of its children, up to the
      section's sign. */
  lemma {:induction false} SummaryIsDaily(g: Grain, data: seq<Entry>, start: Date, end: Date, groups: seq<Group>,
                                          isNegative: bool, i: nat)
    requires IsDate(start) && IsDate(end) && Rank(start) <= Rank(end) && i < |groups|
    requires g.Annually? || start.year == end.year || WholeYear(g, start, end)
    ensures Summary(Calculate(BucketColumns(g, data, start, end), groups, isNegative)[i]).total
         == Signed(isNegative, GroupsDaily(data, Days(start, end), groups[i].children))
  {
    var columns := BucketColumns(g, data, start, end);
    CalculatedAt(columns, groups, isNegative, i);
    CalculatedTotals(columns, groups[i].children, isNegative);
    forall accounts ensures Sum(columns(accounts)) == DailyTotal(Daily(data, accounts, Days(start, end)), TotalAmount) {
      ColumnsDaily(g, data, start, end, accounts);
    }
    ConcatDaily(columns, data, Days(start, end), groups[i].children, isNegative);
  }

  // ----- one section of the report -----

  /** All the columns of the groups, one group after the other. */
  function GroupsSum(columns: Columns, groups: seq<Group>): real {
    if groups == [] then 0.0
    else GroupsSum(columns, groups[..|groups| - 1]) + Sum(columns(groups[|groups| - 1].accounts))
  }

  lemma {:induction false} CalculatedSum(columns: Columns, groups: seq<Group>, isNegative: bool)
    ensures Sum(Concat(Calculate(columns, groups, isNegative))) == GroupsSum(columns, groups)
  {
    if groups != [] {
      var rest, g := groups[..|groups| - 1], groups[|groups| - 1];
      CalculatedSum(columns, rest, isNegative);
      ConcatCalculated(columns, groups, isNegative);
      CellsConcat(Concat(Calculate(columns, rest, isNegative)), columns(g.accounts), 0);
    }
  }

  /** The top group is listed with its own columns and its children as they are; when it has children a
      summary row follows, whose total is all the children's columns, negated in a negated section. */
  lemma {:induction false} SectionLayout(columns: Columns, top: Group, isNegative: bool)
    ensures var rows := Section(Calculate(columns, [top], isNegative));
            var own, below := Sum(columns(top.accounts)), GroupsSum(columns, top.children);
      && |rows| == (if top.children == [] then 1 else 2)
      && rows[0].cells == columns(top.accounts) && rows[0].total == (if isNegative then -own else own)
      && |rows[0].children| == |top.children|
      && (forall i :: 0 <= i < |top.children| ==> rows[0].children[i].cells == columns(top.children[i].accounts))
      && (top.children != [] ==>
            rows[1].total == (if isNegative then -below else below) && Sum(rows[1].cells) == below)
  {
    var groups := [top];
    CalculatedAt(columns, groups, isNegative, 0);
    var calculated := Calculate(columns, groups, isNegative);
    assert calculated[..0] == [];
    assert Section(calculated) == [calculated[0]]
        + (if calculated[0].children != [] then [Summary(calculated[0])] else []);
    forall i | 0 <= i < |top.children|
      ensures calculated[0].children[i].cells == columns(top.children[i].accounts)
    {
      CalculatedAt(columns, top.children, isNegative, i);
    }
    CalculatedSum(columns, top.children, isNegative);
    SummaryTotal(columns, groups, isNegative, 0);
    MergeConserves(Concat(calculated[0].children), 0);
  }

  /** The grand row of a report totals the children of both top groups, each with its section's sign, over the
      columns of the first. */
  lemma {:induction false} GrandOfTwo(columns: Columns, first: Group, negateFirst: bool, second: Group,
                                      negateSecond: bool)
    ensures var grand := Grand(Calculate(columns, [first], negateFirst), Calculate(columns, [second], negateSecond));
            var a, b := GroupsSum(columns, first.children), GroupsSum(columns, second.children);
      && grand.total == (if negateFirst then -a else a) + (if negateSecond then -b else b)
      && Sum(grand.cells) == a
  {
    GrandTotals(columns, [first], negateFirst, [second], negateSecond);
    OneTop(columns, first, negateFirst);
    OneTop(columns, second, negateSecond);
  }

  lemma {:induction false} OneTop(columns: Columns, top: Group, isNegative: bool)
    ensures SectionSum(Calculate(columns, [top], isNegative)) == GroupsSum(columns, top.children)
  {
    var groups := [top];
    var rows := Calculate(columns, groups, isNegative);
    CalculatedAt(columns, groups, isNegative, 0);
    CalculatedSum(columns, top.children, isNegative);
    MergeConserves(Concat(rows[0].children), 0);
    assert rows[..0] == [];
    if top.children != [] {
      var s := Summary(rows[0]);
      assert Summaries(rows) == [s] && [s][..0] == [];
      assert Concat([s]) == s.cells;
    }
  }

  // ----- the loops -----

  method GetGroupData(columns: Columns, groups: seq<Group>, isNegative: bool) returns (rows: seq<Row>)
    ensures rows == Calculate(columns, groups, isNegative)
  {
    rows := [];
    for i := 0 to |groups|
      invariant rows == Calculate(columns, groups[..i], isNegative)
    {
      var el := groups[i];
      var datewise := columns(el.accounts);
      var total := 0.0;
      for j := 0 to |datewise|
        invariant total == Sum(datewise[..j])
      {
        assert datewise[..j + 1][..j] == datewise[..j];
        total := total + datewise[j].amount;
      }
      assert datewise[..|datewise|] == datewise;
      var children := GetGroupData(columns, el.children, isNegative);
      assert groups[..i + 1][..i] == groups[..i];
      rows := rows + [Row(datewise, if isNegative then -total else total, children)];
    }
    assert groups[..|groups|] == groups;
  }

  lemma {:induction false} MergeStep(before: seq<Cell>, cells: seq<Cell>, j: nat)
    requires j < |cells|
    ensures Merge(before + cells[..j + 1]) == MergeCell(Merge(before + cells[..j]), cells[j])
  {
    assert (before + cells[..j + 1])[..|before| + j] == before + cells[..j];
  }

  lemma {:induction false} ConcatStep(rows: seq<Row>, i: nat)
    requires i < |rows|
    ensures Concat(rows[..i + 1]) == Concat(rows[..i]) + rows[i].cells
  {
    assert rows[..i + 1][..i] == rows[..i];
  }

  /** The double loop that merges the columns of several rows. */
  method MergeColumns(rows: seq<Row>) returns (result: seq<Cell>)
    ensures result == Merge(Concat(rows))
  {
    result := [];
    for i := 0 to |rows|
      invariant result == Merge(Concat(rows[..i]))
    {
      ghost var before := Concat(rows[..i]);
      var cells := rows[i].cells;
      assert result == Merge(before + cells[..0]) by { assert before + cells[..0] == before; }
      for j := 0 to |cells|
        invariant result == Merge(before + cells[..j])
      {
        var dateEntry := cells[j];
        ghost var was := result;
        var existing := FindBucket(result, dateEntry.bucket);
        if existing < |result| {
          result := result[existing := result[existing].(amount := result[existing].amount + dateEntry.amount)];
        } else {
          result := result + [dateEntry];
        }
        assert result == MergeCell(was, dateEntry);
        MergeStep(before, cells, j);
      }
      assert before + cells[..|cells|] == Concat(rows[..i + 1]) by {
        ConcatStep(rows, i);
        assert cells[..|cells|] == cells;
      }
    }
    assert rows[..|rows|] == rows;
  }

  /** Lists a section and collects its summaries. */
  method ListSection(rows: seq<Row>) returns (report: seq<Row>, summaries: seq<Row>)
    ensures report == Section(rows) && summaries == Summaries(rows)
  {
    report, summaries := [], [];
    for i := 0 to |rows|
      invariant report == Section(rows[..i]) && summaries == Summaries(rows[..i])
    {
      var elx := rows[i];
      assert rows[..i + 1][..i] == rows[..i];
      report := report + [elx];
      if |elx.children| > 0 {
        var cells := MergeColumns(elx.children);
        var total := AddTotals(elx.children);
        report := report + [Row(cells, total, [])];
        summaries := summaries + [Row(cells, total, [])];
      }
    }
    assert rows[..|rows|] == rows;
  }

  method AddTotals(rows: seq<Row>) returns (sum: real)
    ensures sum == Totals(rows)
  {
    sum := 0.0;
    for i := 0 to |rows|
      invariant sum == Totals(rows[..i])
    {
      assert rows[..i + 1][..i] == rows[..i];
      sum := sum + rows[i].total;
    }
    assert rows[..|rows|] == rows;
  }

  method GrandRow(first: seq<Row>, firstSummaries: seq<Row>, second: seq<Row>, secondSummaries: seq<Row>)
      returns (row: Row)
    requires firstSummaries == Summaries(first) && secondSummaries == Summaries(second)
    ensures row == Grand(first, second)
  {
    var cells := MergeColumns(firstSummaries);
    var firstTotal := AddTotals(firstSummaries);
    var secondTotal := AddTotals(secondSummaries);
    row := Row(cells, firstTotal + secondTotal, []);
  }

  /** Assets, or liabilities and equity: two sections and their grand row. */
  method CreateReport(columns: Columns, first: Group, negateFirst: bool, second: Group, negateSecond: bool)
    returns (firstReport: seq<Row>, secondReport: seq<Row>, grand: Row)
    ensures firstReport == Section(Calculate(columns, [first], negateFirst))
    ensures secondReport == Section(Calculate(columns, [second], negateSecond))
    ensures grand == Grand(Calculate(columns, [first], negateFirst), Calculate(columns, [second], negateSecond))
  {
    var firstData := GetGroupData(columns, [first], negateFirst);
    var firstSummaries, secondSummaries;
    firstReport, firstSummaries := ListSection(firstData);
    var secondData := GetGroupData(columns, [second], negateSecond);
    secondReport, secondSummaries := ListSection(secondData);
    grand := GrandRow(firstData, firstSummaries, secondData, secondSummaries);
  }
}
