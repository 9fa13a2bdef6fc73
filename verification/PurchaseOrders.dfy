/** Purchase orders and the receipts booked against them: validation of a new receipt and the status it
    leaves on the order. */
module PurchaseOrders {
  import opened VoucherLines
  import opened Valuation

  datatype MaterialLine = MaterialLine(material: Material, stock: real)

  datatype Status = New | PartiallyReceived | Received

  /** One order with the receipts that name it, drafts included. */
  datatype Order = Order(items: seq<MaterialLine>, receipts: seq<seq<MaterialLine>>, status: Status)

  datatype Verdict = NotAllowed(material: Material) | MaxExceeded(material: Material) | Valid(loaded: bool)

  function Sum(lines: seq<MaterialLine>): real {
    if lines == [] then 0.0 else Sum(lines[..|lines| - 1]) + lines[|lines| - 1].stock
  }

  function Quantity(lines: seq<MaterialLine>, m: Material): real {
    if lines == [] then 0.0
    else Quantity(lines[..|lines| - 1], m)
         + (if lines[|lines| - 1].material == m then lines[|lines| - 1].stock else 0.0)
  }

  function Flatten(receipts: seq<seq<MaterialLine>>): seq<MaterialLine> {
    if receipts == [] then [] else Flatten(receipts[..|receipts| - 1]) + receipts[|receipts| - 1]
  }

  /** Everything received so far. */
  function Loaded(o: Order): seq<MaterialLine> {
    Flatten(o.receipts)
  }

  /** What the order allows of a material: its last line wins. */
  function Allowed(items: seq<MaterialLine>, m: Material): real {
    if items == [] then 0.0
    else if items[|items| - 1].material == m then items[|items| - 1].stock
    else Allowed(items[..|items| - 1], m)
  }

  /** The first requested line that is refused, if any. */
  function FirstRefusal(o: Order, dto: seq<MaterialLine>): (r: Option<Verdict>)
    ensures r.Some? ==> !r.value.Valid?
  {
    if dto == [] then None
    else
      var earlier := FirstRefusal(o, dto[..|dto| - 1]);
      var l := dto[|dto| - 1];
      if earlier.Some? then earlier
      else if Allowed(o.items, l.material) == 0.0 then Some(NotAllowed(l.material))
      else if Allowed(o.items, l.material) < Quantity(Loaded(o), l.material) + l.stock
          then Some(MaxExceeded(l.material))
      else None
  }

  function Validate(o: Order, dto: seq<MaterialLine>): Verdict {
    var refusal := FirstRefusal(o, dto);
    if refusal.Some? then refusal.value else Valid(Sum(o.items) == Sum(Loaded(o)) + Sum(dto))
  }

  /** Creating a receipt: validate, store, and set the status when it is approved. */
  function CreateReceipt(o: Order, dto: seq<MaterialLine>, approved: bool): (Order, Verdict) {
    var v := Validate(o, dto);
    if !v.Valid? then (o, v)
    else
      (Order(o.items, o.receipts + [dto],
             if !approved then o.status else if v.loaded then Received else PartiallyReceived), v)
  }

  datatype Request = Request(lines: seq<MaterialLine>, approved: bool)

  function Run(o: Order, requests: seq<Request>): Order {
    if requests == [] then o
    else CreateReceipt(Run(o, requests[..|requests| - 1]), requests[|requests| - 1].lines,
        requests[|requests| - 1].approved).0
  }

  predicate DistinctMaterials(lines: seq<MaterialLine>) {
    forall i, j :: 0 <= i < j < |lines| ==> lines[i].material != lines[j].material
  }

  /** The material is on the order. */
  ghost predicate Ordered(items: seq<MaterialLine>, m: Material) {
    exists i :: 0 <= i < |items| && items[i].material == m
  }

  predicate NonNegative(items: seq<MaterialLine>) {
    forall i :: 0 <= i < |items| ==> items[i].stock >= 0.0
  }

  // ----- quantities -----

  lemma {:induction false} QuantityConcat(a: seq<MaterialLine>, b: seq<MaterialLine>, m: Material)
    ensures Quantity(a + b, m) == Quantity(a, m) + Quantity(b, m)
    ensures Sum(a + b) == Sum(a) + Sum(b)
  {
    if b == [] {
      assert a + b == a;
    } else {
      assert (a + b)[..|a| + |b| - 1] == a + b[..|b| - 1];
      QuantityConcat(a, b[..|b| - 1], m);
    }
  }

  lemma {:induction false} LinesSnoc(lines: seq<MaterialLine>, l: MaterialLine)
    ensures Sum(lines + [l]) == Sum(lines) + l.stock
    ensures forall m :: Quantity(lines + [l], m) == Quantity(lines, m) + (if l.material == m then l.stock else 0.0)
  {
    assert (lines + [l])[..|lines|] == lines;
  }

  lemma {:induction false} LoadedSnoc(o: Order, dto: seq<MaterialLine>, s: Status, m: Material)
    ensures Quantity(Loaded(Order(o.items, o.receipts + [dto], s)), m) == Quantity(Loaded(o), m) + Quantity(dto, m)
    ensures Sum(Loaded(Order(o.items, o.receipts + [dto], s))) == Sum(Loaded(o)) + Sum(dto)
  {
    assert (o.receipts + [dto])[..|o.receipts|] == o.receipts;
    QuantityConcat(Loaded(o), dto, m);
  }

  lemma {:induction false} AbsentQuantity(lines: seq<MaterialLine>, m: Material)
    requires !Ordered(lines, m)
    ensures Quantity(lines, m) == 0.0 && Allowed(lines, m) == 0.0
  {
    if lines != [] {
      var rest := lines[..|lines| - 1];
      assert forall i :: 0 <= i < |rest| ==> rest[i] == lines[i];
      AbsentQuantity(rest, m);
    }
  }

  /** With distinct materials a line is its material's whole quantity, and what is allowed. */
  lemma {:induction false} DistinctQuantity(lines: seq<MaterialLine>, i: nat)
    requires DistinctMaterials(lines) && i < |lines|
    ensures Quantity(lines, lines[i].material) == lines[i].stock == Allowed(lines, lines[i].material)
  {
    var n := |lines| - 1;
    if i == n {
      AbsentQuantity(lines[..n], lines[n].material);
    } else {
      DistinctQuantity(lines[..n], i);
    }
  }

  /** Sum over the order's lines of what was received of each. */
  function ReceivedSum(items: seq<MaterialLine>, lines: seq<MaterialLine>): real {
    if items == [] then 0.0
    else ReceivedSum(items[..|items| - 1], lines) + Quantity(lines, items[|items| - 1].material)
  }

  lemma {:induction false} ReceivedSumSnoc(items: seq<MaterialLine>, lines: seq<MaterialLine>, l: MaterialLine)
    requires DistinctMaterials(items)
    ensures ReceivedSum(items, lines + [l]) == ReceivedSum(items, lines)
              + (if Ordered(items, l.material) then l.stock else 0.0)
  {
    if items != [] {
      var n := |items| - 1;
      var rest := items[..n];
      ReceivedSumSnoc(rest, lines, l);
      assert (lines + [l])[..|lines|] == lines;
      assert forall i :: 0 <= i < n ==> rest[i] == items[i];
      if items[n].material == l.material {
        assert !Ordered(rest, l.material);
      } else {
        assert Ordered(items, l.material) <==> Ordered(rest, l.material);
      }
    }
  }

  lemma {:induction false} ReceivedSumNothing(items: seq<MaterialLine>)
    ensures ReceivedSum(items, []) == 0.0
  {
    if items != [] {
      ReceivedSumNothing(items[..|items| - 1]);
    }
  }

  /** When only ordered materials were received, summing per material loses nothing. */
  lemma {:induction false} ReceivedSumIsAll(items: seq<MaterialLine>, lines: seq<MaterialLine>)
    requires DistinctMaterials(items)
    requires forall i :: 0 <= i < |lines| ==> Ordered(items, lines[i].material)
    ensures ReceivedSum(items, lines) == Sum(lines)
  {
    if lines == [] {
      ReceivedSumNothing(items);
    } else {
      var n := |lines| - 1;
      ReceivedSumIsAll(items, lines[..n]);
      assert lines[..n] + [lines[n]] == lines;
      ReceivedSumSnoc(items, lines[..n], lines[n]);
    }
  }

  // ----- what validation guarantees -----

  lemma {:induction false} NoRefusalMeans(o: Order, dto: seq<MaterialLine>, i: nat)
    requires FirstRefusal(o, dto).None? && i < |dto|
    ensures Allowed(o.items, dto[i].material) != 0.0
    ensures Quantity(Loaded(o), dto[i].material) + dto[i].stock <= Allowed(o.items, dto[i].material)
  {
    if i < |dto| - 1 {
      NoRefusalMeans(o, dto[..|dto| - 1], i);
    }
  }

  /** Nothing is received beyond the order, and nothing that is not on it. */
  ghost predicate WithinOrder(o: Order) {
    && (forall i :: 0 <= i < |o.items| ==> Quantity(Loaded(o), o.items[i].material) <= o.items[i].stock)
    && (forall i :: 0 <= i < |Loaded(o)| ==> Ordered(o.items, Loaded(o)[i].material))
  }

  predicate FullyReceived(o: Order) {
    forall i :: 0 <= i < |o.items| ==> Quantity(Loaded(o), o.items[i].material) == o.items[i].stock
  }

  /** The largest single quantity of a material, 0 when none is positive. */
  function Largest(lines: seq<MaterialLine>, m: Material): real {
    if lines == [] then 0.0
    else
      var rest, l := Largest(lines[..|lines| - 1], m), lines[|lines| - 1];
      if l.material == m && l.stock > rest then l.stock else rest
  }

  /** No material comes to more than its largest single line. */
  predicate WithinLargest(dto: seq<MaterialLine>) {
    forall k :: 0 <= k < |dto| ==> Quantity(dto, dto[k].material) <= Largest(dto, dto[k].material)
  }

  lemma {:induction false} LargestBounds(lines: seq<MaterialLine>, m: Material)
    ensures forall k :: 0 <= k < |lines| && lines[k].material == m ==> lines[k].stock <= Largest(lines, m)
    ensures Largest(lines, m) >= 0.0
    ensures Largest(lines, m) > 0.0 ==> exists k :: 0 <= k < |lines| && lines[k] == MaterialLine(m, Largest(lines, m))
    ensures Largest(lines, m) == 0.0 ==> Quantity(lines, m) <= 0.0
  {
    if lines != [] {
      var n := |lines| - 1;
      LargestBounds(lines[..n], m);
      assert forall k :: 0 <= k < n ==> lines[..n][k] == lines[k];
      assert lines[n] == MaterialLine(lines[n].material, lines[n].stock);
    }
  }

  lemma {:induction false} DistinctWithinLargest(dto: seq<MaterialLine>)
    requires DistinctMaterials(dto)
    ensures WithinLargest(dto)
  {
    forall k | 0 <= k < |dto| ensures Quantity(dto, dto[k].material) <= Largest(dto, dto[k].material) {
      DistinctQuantity(dto, k);
      LargestBounds(dto, dto[k].material);
    }
  }

  /** A line that was let through bounds all of its material, when no material exceeds its largest line. */
  lemma {:induction false} AcceptedMaterial(o: Order, dto: seq<MaterialLine>, m: Material)
    requires WithinLargest(dto) && FirstRefusal(o, dto).None?
    ensures Quantity(Loaded(o), m) <= Allowed(o.items, m) ==>
              Quantity(Loaded(o), m) + Quantity(dto, m) <= Allowed(o.items, m)
  {
    LargestBounds(dto, m);
    if Largest(dto, m) > 0.0 {
      var k :| 0 <= k < |dto| && dto[k] == MaterialLine(m, Largest(dto, m));
      NoRefusalMeans(o, dto, k);
    }
  }

  lemma {:induction false} AcceptedStaysWithin(o: Order, dto: seq<MaterialLine>, approved: bool)
    requires DistinctMaterials(o.items) && WithinLargest(dto) && WithinOrder(o)
    ensures WithinOrder(CreateReceipt(o, dto, approved).0)
  {
    var o' := CreateReceipt(o, dto, approved).0;
    if Validate(o, dto).Valid? {
      forall i | 0 <= i < |o.items| ensures Quantity(Loaded(o'), o.items[i].material) <= o.items[i].stock {
        var m := o.items[i].material;
        LoadedSnoc(o, dto, o'.status, m);
        DistinctQuantity(o.items, i);
        AcceptedMaterial(o, dto, m);
      }
      assert (o.receipts + [dto])[..|o.receipts|] == o.receipts;
      assert Loaded(o') == Loaded(o) + dto;
      forall i | 0 <= i < |Loaded(o')| ensures Ordered(o.items, Loaded(o')[i].material) {
        if i >= |Loaded(o)| {
          var l := dto[i - |Loaded(o)|];
          NoRefusalMeans(o, dto, i - |Loaded(o)|);
          if !Ordered(o.items, l.material) {
            AbsentQuantity(o.items, l.material);
          }
        }
      }
    }
  }

  lemma {:induction false} SumsAgree(items: seq<MaterialLine>, lines: seq<MaterialLine>)
    requires forall i :: 0 <= i < |items| ==> Quantity(lines, items[i].material) <= items[i].stock
    ensures ReceivedSum(items, lines) <= Sum(items)
    ensures ReceivedSum(items, lines) == Sum(items)
       <==> forall i :: 0 <= i < |items| ==> Quantity(lines, items[i].material) == items[i].stock
  {
    if items != [] {
      var n := |items| - 1;
      SumsAgree(items[..n], lines);
      assert forall i :: 0 <= i < n ==> items[..n][i] == items[i];
    }
  }

  /** The returned flag compares grand totals, yet it is true exactly when every line of the order is
      fully received. */
  lemma {:induction false} LoadedFlagMeansFull(o: Order, dto: seq<MaterialLine>, approved: bool)
    requires DistinctMaterials(o.items) && WithinLargest(dto) && WithinOrder(o) && Validate(o, dto).Valid?
    ensures Validate(o, dto).loaded <==> FullyReceived(CreateReceipt(o, dto, approved).0)
  {
    var o' := CreateReceipt(o, dto, approved).0;
    AcceptedStaysWithin(o, dto, approved);
    LoadedSnoc(o, dto, o'.status, 0);
    ReceivedSumIsAll(o.items, Loaded(o'));
    SumsAgree(o.items, Loaded(o'));
  }

  lemma {:induction false} RunKeepsItems(o: Order, requests: seq<Request>)
    ensures Run(o, requests).items == o.items
  {
    if requests != [] {
      RunKeepsItems(o, requests[..|requests| - 1]);
    }
  }

  /** Over every run of creations whose receipts each stay within their largest lines, as those of distinct
      materials do, on a new order, no material is over-received; a receipt just accepted
      and approved leaves status Received exactly when the order is fully received. */
  lemma {:induction false} NeverOverReceived(items: seq<MaterialLine>, requests: seq<Request>)
    requires DistinctMaterials(items) && NonNegative(items)
    requires forall i :: 0 <= i < |requests| ==> WithinLargest(requests[i].lines)
    ensures WithinOrder(Run(Order(items, [], New), requests))
    ensures requests != [] && requests[|requests| - 1].approved
            && Validate(Run(Order(items, [], New), requests[..|requests| - 1]), requests[|requests| - 1].lines).Valid?
            ==> (Run(Order(items, [], New), requests).status == Received
                <==> FullyReceived(Run(Order(items, [], New), requests)))
  {
    var start := Order(items, [], New);
    if requests != [] {
      var rest, last := requests[..|requests| - 1], requests[|requests| - 1];
      NeverOverReceived(items, rest);
      RunKeepsItems(start, rest);
      AcceptedStaysWithin(Run(start, rest), last.lines, last.approved);
      if Validate(Run(start, rest), last.lines).Valid? {
        LoadedFlagMeansFull(Run(start, rest), last.lines, last.approved);
      }
    } else {
      forall i | 0 <= i < |items| ensures Quantity(Loaded(start), items[i].material) <= items[i].stock {
        assert Loaded(start) == [];
      }
    }
  }

  /** Once the order is fully received, every receipt with a positive line is refused. */
  lemma {:induction false} FullOrderRefuses(o: Order, dto: seq<MaterialLine>, k: nat)
    requires DistinctMaterials(o.items) && FullyReceived(o)
    requires k < |dto| && dto[k].stock > 0.0
    ensures !Validate(o, dto).Valid?
  {
    if FirstRefusal(o, dto).None? {
      NoRefusalMeans(o, dto, k);
      var m := dto[k].material;
      if i :| 0 <= i < |o.items| && o.items[i].material == m {
        DistinctQuantity(o.items, i);
      } else {
        AbsentQuantity(o.items, m);
      }
      assert false;
    }
  }

  /** A receipt that lists a material twice escapes the limit: 1 ordered, 1 + 1 received. */
  lemma {:induction false} RepeatedMaterialOverReceives(o: Order, dto: seq<MaterialLine>)
    requires o == Order([MaterialLine(5, 1.0)], [], New)
    requires dto == [MaterialLine(5, 1.0), MaterialLine(5, 1.0)]
    ensures Validate(o, dto).Valid? && !WithinOrder(CreateReceipt(o, dto, true).0)
  {
    assert dto[..1] == [dto[0]] && dto[..1][..0] == [];
    assert Loaded(o) == [];
    assert FirstRefusal(o, dto[..1]).None?;
    LoadedSnoc(o, dto, CreateReceipt(o, dto, true).0.status, 5);
    assert Quantity(dto[..1], 5) == 1.0;
    assert Quantity(dto, 5) == 2.0;
    assert o.items[0].material == 5;
  }

  // ----- what validation accepts, and what it refuses -----

  /** Whatever was received before, a receipt is accepted exactly when every one of its lines names a material
      the order allows, and fits what the order allows on top of what was received of it. */
  lemma {:induction false} ValidIffEachLineFits(o: Order, dto: seq<MaterialLine>)
    ensures Validate(o, dto).Valid? <==>
            forall i :: 0 <= i < |dto| ==>
              && Allowed(o.items, dto[i].material) != 0.0
              && Quantity(Loaded(o), dto[i].material) + dto[i].stock <= Allowed(o.items, dto[i].material)
  {
    if dto != [] {
      var n := |dto| - 1;
      var rest := dto[..n];
      ValidIffEachLineFits(o, rest);
      assert forall i :: 0 <= i < n ==> rest[i] == dto[i];
    }
  }

  /** The refusal names the first line that does not fit: as not allowed when the order does not list it, as
      too much otherwise. */
  lemma {:induction false} RefusalNamesFirst(o: Order, dto: seq<MaterialLine>, k: nat)
    requires k < |dto|
    requires forall i :: 0 <= i < k ==>
               && Allowed(o.items, dto[i].material) != 0.0
               && Quantity(Loaded(o), dto[i].material) + dto[i].stock <= Allowed(o.items, dto[i].material)
    ensures Allowed(o.items, dto[k].material) == 0.0 ==> Validate(o, dto) == NotAllowed(dto[k].material)
    ensures Allowed(o.items, dto[k].material) != 0.0
            && Quantity(Loaded(o), dto[k].material) + dto[k].stock > Allowed(o.items, dto[k].material) ==>
              Validate(o, dto) == MaxExceeded(dto[k].material)
  {
    ValidIffEachLineFits(o, dto[..k]);
    assert dto[..k + 1][..k] == dto[..k];
    if FirstRefusal(o, dto[..k + 1]).Some? {
      RefusalStays(o, dto, k + 1);
    }
  }

  /** Of a material listed more than once, the order allows what the last line says. */
  lemma {:induction false} LastLineAllows(items: seq<MaterialLine>, i: nat)
    requires i < |items| && forall j :: i < j < |items| ==> items[j].material != items[i].material
    ensures Allowed(items, items[i].material) == items[i].stock
  {
    if i < |items| - 1 {
      LastLineAllows(items[..|items| - 1], i);
    }
  }

  /** A receipt of distinct materials that brings of every order line exactly what is still open, and nothing
      else, is accepted and fills the order. */
  lemma {:induction false} RemainderCompletes(o: Order, dto: seq<MaterialLine>, approved: bool)
    requires DistinctMaterials(o.items) && WithinOrder(o) && DistinctMaterials(dto)
    requires forall i :: 0 <= i < |o.items| ==>
               Quantity(dto, o.items[i].material) == o.items[i].stock - Quantity(Loaded(o), o.items[i].material)
    requires forall k :: 0 <= k < |dto| ==>
               exists i :: 0 <= i < |o.items| && o.items[i].material == dto[k].material && o.items[i].stock != 0.0
    ensures Validate(o, dto) == Valid(true)
    ensures FullyReceived(CreateReceipt(o, dto, approved).0)
    ensures CreateReceipt(o, dto, approved).0.status == if approved then Received else o.status
  {
    forall k | 0 <= k < |dto|
      ensures Allowed(o.items, dto[k].material) != 0.0
      ensures Quantity(Loaded(o), dto[k].material) + dto[k].stock <= Allowed(o.items, dto[k].material)
    {
      var i :| 0 <= i < |o.items| && o.items[i].material == dto[k].material && o.items[i].stock != 0.0;
      DistinctQuantity(o.items, i);
      DistinctQuantity(dto, k);
    }
    ValidIffEachLineFits(o, dto);
    var o' := CreateReceipt(o, dto, approved).0;
    forall i | 0 <= i < |o.items| ensures Quantity(Loaded(o'), o.items[i].material) == o.items[i].stock {
      LoadedSnoc(o, dto, o'.status, o.items[i].material);
    }
    DistinctWithinLargest(dto);
    LoadedFlagMeansFull(o, dto, approved);
  }

  /** Of 10 ordered 4 came before: a second delivery of x is taken up to 6, and fills the order at 6. */
  lemma {:induction false} SecondDelivery(o: Order, m: Material, x: real)
    requires o == Order([MaterialLine(m, 10.0)], [[MaterialLine(m, 4.0)]], PartiallyReceived)
    ensures Validate(o, [MaterialLine(m, x)]) == if x <= 6.0 then Valid(x == 6.0) else MaxExceeded(m)
  {
    var dto := [MaterialLine(m, x)];
    var was := Order(o.items, [], New);
    assert o.receipts == [] + [[MaterialLine(m, 4.0)]] && Loaded(was) == [];
    LoadedSnoc(was, o.receipts[0], o.status, m);
    DistinctQuantity(o.receipts[0], 0);
    DistinctQuantity(o.items, 0);
    LinesSnoc([], o.items[0]);
    LinesSnoc([], o.receipts[0][0]);
    LinesSnoc([], dto[0]);
    assert [] + [o.items[0]] == o.items && [] + [o.receipts[0][0]] == o.receipts[0] && [] + [dto[0]] == dto;
    ValidIffEachLineFits(o, dto);
    RefusalNamesFirst(o, dto, 0);
  }

  /** A refused receipt leaves the order as it was; an accepted one is stored, and changes the status only
      when it is approved. */
  lemma {:induction false} CreationMeans(o: Order, dto: seq<MaterialLine>, approved: bool)
    requires DistinctMaterials(o.items) && WithinLargest(dto) && WithinOrder(o)
    ensures var (after, v) := CreateReceipt(o, dto, approved);
      && v == Validate(o, dto)
      && (!v.Valid? ==> after == o)
      && (v.Valid? ==>
            && after.items == o.items && after.receipts == o.receipts + [dto]
            && after.status == (if !approved then o.status
                                else if FullyReceived(after) then Received else PartiallyReceived))
  {
    if Validate(o, dto).Valid? {
      LoadedFlagMeansFull(o, dto, approved);
    }
  }

  // ----- which receipts are safe -----

  /** A positive amount that allows each line of a material by itself. */
  function Limit(lines: seq<MaterialLine>, m: Material): real {
    if Largest(lines, m) > 0.0 then Largest(lines, m) else 1.0
  }

  /** An order that allows each line by itself and no more than it must: every material once, at its limit. */
  function Tightest(lines: seq<MaterialLine>, of: seq<MaterialLine>): seq<MaterialLine> {
    if of == [] then []
    else
      var rest, l := Tightest(lines, of[..|of| - 1]), of[|of| - 1];
      if Allowed(rest, l.material) != 0.0 then rest else rest + [MaterialLine(l.material, Limit(lines, l.material))]
  }

  predicate AllPositive(lines: seq<MaterialLine>) {
    forall i :: 0 <= i < |lines| ==> lines[i].stock > 0.0
  }

  lemma {:induction false} AllowedSnoc(items: seq<MaterialLine>, l: MaterialLine, m: Material)
    ensures Allowed(items + [l], m) == if l.material == m then l.stock else Allowed(items, m)
  {
    assert (items + [l])[..|items|] == items;
  }

  lemma {:induction false} PositiveQuantity(lines: seq<MaterialLine>, m: Material)
    requires AllPositive(lines)
    ensures Quantity(lines, m) >= Largest(lines, m)
    ensures Ordered(lines, m) ==> Quantity(lines, m) > 0.0
  {
    if lines != [] {
      var n := |lines| - 1;
      PositiveQuantity(lines[..n], m);
      LargestBounds(lines[..n], m);
      if Ordered(lines, m) && lines[n].material != m {
        var k :| 0 <= k < |lines| && lines[k].material == m;
        assert lines[..n][k] == lines[k];
      }
    }
  }

  lemma {:induction false} RepeatedExceedsLargest(lines: seq<MaterialLine>, i: nat, j: nat)
    requires AllPositive(lines) && i < j < |lines| && lines[i].material == lines[j].material
    ensures Largest(lines, lines[i].material) < Quantity(lines, lines[i].material)
  {
    var n := |lines| - 1;
    var rest, m := lines[..n], lines[i].material;
    PositiveQuantity(rest, m);
    assert rest[i] == lines[i];
    if j < n {
      assert rest[j] == lines[j];
      RepeatedExceedsLargest(rest, i, j);
    }
  }

  /** The tightest order allows exactly the limit of each material. */
  lemma {:induction false} TightestAllows(lines: seq<MaterialLine>, of: seq<MaterialLine>, m: Material)
    ensures Allowed(Tightest(lines, of), m) == if Ordered(of, m) then Limit(lines, m) else 0.0
  {
    if of != [] {
      var rest, l := of[..|of| - 1], of[|of| - 1];
      TightestAllows(lines, rest, m);
      TightestAllows(lines, rest, l.material);
      AllowedSnoc(Tightest(lines, rest), MaterialLine(l.material, Limit(lines, l.material)), m);
      OrderedSnoc(rest, l, m);
      assert of == rest + [l];
    }
  }

  lemma {:induction false} OrderedSnoc(lines: seq<MaterialLine>, l: MaterialLine, m: Material)
    ensures Ordered(lines + [l], m) <==> Ordered(lines, m) || l.material == m
  {
    var all := lines + [l];
    assert all[|lines|] == l;
    if i :| 0 <= i < |lines| && lines[i].material == m {
      assert all[i] == lines[i];
    }
  }

  /** And lists each material once. */
  lemma {:induction false} TightestDistinct(lines: seq<MaterialLine>, of: seq<MaterialLine>)
    ensures DistinctMaterials(Tightest(lines, of))
    ensures forall i :: 0 <= i < |Tightest(lines, of)| ==> Tightest(lines, of)[i].stock > 0.0
  {
    if of != [] {
      var rest, l := of[..|of| - 1], of[|of| - 1];
      var t := Tightest(lines, rest);
      TightestDistinct(lines, rest);
      forall i | 0 <= i < |t| ensures t[i].material == l.material ==> Allowed(t, l.material) != 0.0 {
        DistinctQuantity(t, i);
      }
    }
  }

  lemma {:induction false} EachLineFits(o: Order, dto: seq<MaterialLine>)
    requires Loaded(o) == []
    requires forall k :: 0 <= k < |dto| ==>
               dto[k].stock <= Allowed(o.items, dto[k].material) && Allowed(o.items, dto[k].material) > 0.0
    ensures FirstRefusal(o, dto).None?
  {
    if dto != [] {
      EachLineFits(o, dto[..|dto| - 1]);
    }
  }

  /** No order that is within its limits and accepts the receipt is over-received by it. */
  ghost predicate SafeForEvery(dto: seq<MaterialLine>) {
    forall o: Order :: DistinctMaterials(o.items) && WithinOrder(o) && Validate(o, dto).Valid?
                       ==> WithinOrder(CreateReceipt(o, dto, true).0)
  }

  /** A receipt is safe for every order exactly when no material on it comes to more than its largest line. */
  lemma {:induction false} SafeIffWithinLargest(dto: seq<MaterialLine>)
    ensures SafeForEvery(dto) <==> WithinLargest(dto)
  {
    if WithinLargest(dto) {
      forall o: Order | DistinctMaterials(o.items) && WithinOrder(o) && Validate(o, dto).Valid?
        ensures WithinOrder(CreateReceipt(o, dto, true).0)
      {
        AcceptedStaysWithin(o, dto, true);
      }
    } else {
      var o := Breached(dto);
    }
  }

  /** When all its lines are positive, that is when it repeats no material. */
  lemma {:induction false} SafeIffDistinct(dto: seq<MaterialLine>)
    requires AllPositive(dto)
    ensures SafeForEvery(dto) <==> DistinctMaterials(dto)
  {
    SafeIffWithinLargest(dto);
    if DistinctMaterials(dto) {
      DistinctWithinLargest(dto);
    } else {
      var i, j :| 0 <= i < j < |dto| && dto[i].material == dto[j].material;
      RepeatedExceedsLargest(dto, i, j);
    }
  }

  /** The tightest order for a receipt accepts it. */
  lemma {:induction false} TightestAccepts(dto: seq<MaterialLine>)
    ensures Validate(Order(Tightest(dto, dto), [], New), dto).Valid?
  {
    var o := Order(Tightest(dto, dto), [], New);
    forall k | 0 <= k < |dto|
      ensures dto[k].stock <= Allowed(o.items, dto[k].material) && Allowed(o.items, dto[k].material) > 0.0
    {
      TightestAllows(dto, dto, dto[k].material);
      LargestBounds(dto, dto[k].material);
    }
    EachLineFits(o, dto);
  }

  lemma {:induction false} FreshOrderWithin(items: seq<MaterialLine>)
    requires AllPositive(items)
    ensures WithinOrder(Order(items, [], New)) && Loaded(Order(items, [], New)) == []
  {
  }

  /** Some order accepts a receipt with a material beyond its largest line, and is over-received. */
  lemma {:induction false} Breached(dto: seq<MaterialLine>) returns (o: Order)
    requires !WithinLargest(dto)
    ensures DistinctMaterials(o.items) && WithinOrder(o) && Validate(o, dto).Valid?
    ensures !WithinOrder(CreateReceipt(o, dto, true).0)
  {
    o := Order(Tightest(dto, dto), [], New);
    TightestDistinct(dto, dto);
    TightestAccepts(dto);
    FreshOrderWithin(o.items);
    var k :| 0 <= k < |dto| && Quantity(dto, dto[k].material) > Largest(dto, dto[k].material);
    var m := dto[k].material;
    TightestAllows(dto, dto, m);
    LargestBounds(dto, m);
    assert Ordered(dto, m) && Quantity(Loaded(o), m) == 0.0;
    OverReceived(o, dto, m);
  }

  lemma {:induction false} OverReceived(o: Order, dto: seq<MaterialLine>, m: Material)
    requires DistinctMaterials(o.items) && Validate(o, dto).Valid?
    requires Allowed(o.items, m) != 0.0 && Quantity(Loaded(o), m) + Quantity(dto, m) > Allowed(o.items, m)
    ensures !WithinOrder(CreateReceipt(o, dto, true).0)
  {
    if !Ordered(o.items, m) {
      AbsentQuantity(o.items, m);
    }
    var p :| 0 <= p < |o.items| && o.items[p].material == m;
    DistinctQuantity(o.items, p);
    LoadedSnoc(o, dto, CreateReceipt(o, dto, true).0.status, m);
  }

  /** Value of a key in a dictionary, 0 when absent. */
  function Get(d: map<Material, real>, m: Material): real {
    if m in d then d[m] else 0.0
  }

  class PurchaseOrder {
    var items: seq<MaterialLine>
    var receipts: seq<seq<MaterialLine>>
    var status: Status

    function State(): Order
      reads this
    {
      Order(items, receipts, status)
    }

    constructor (items: seq<MaterialLine>)
      ensures State() == Order(items, [], New)
    {
      this.items, receipts, status := items, [], New;
    }

    /** First pass: what was received per material, and in all. */
    method LoadItems() returns (loadedItems: map<Material, real>, totalLoaded: real)
      ensures totalLoaded == Sum(Loaded(State()))
      ensures forall m :: Get(loadedItems, m) == Quantity(Loaded(State()), m)
    {
      loadedItems, totalLoaded := map[], 0.0;
      for r := 0 to |receipts|
        invariant totalLoaded == Sum(Flatten(receipts[..r]))
        invariant forall m :: Get(loadedItems, m) == Quantity(Flatten(receipts[..r]), m)
      {
        ghost var before := Flatten(receipts[..r]);
        assert before + receipts[r][..0] == before;
        for i := 0 to |receipts[r]|
          invariant totalLoaded == Sum(before + receipts[r][..i])
          invariant forall m :: Get(loadedItems, m) == Quantity(before + receipts[r][..i], m)
        {
          var item := receipts[r][i];
          ghost var lines := before + receipts[r][..i];
          assert before + receipts[r][..i + 1] == lines + [item];
          LinesSnoc(lines, item);
          assert forall m :: Get(loadedItems, m) == Quantity(lines, m);
          if item.material in loadedItems && loadedItems[item.material] != 0.0 {
            loadedItems := loadedItems[item.material := loadedItems[item.material] + item.stock];
          } else {
            loadedItems := loadedItems[item.material := item.stock];
          }
          totalLoaded := totalLoaded + item.stock;
        }
        assert receipts[r][..|receipts[r]|] == receipts[r];
        assert receipts[..r + 1][..r] == receipts[..r];
        assert Flatten(receipts[..r + 1]) == before + receipts[r];
      }
      assert receipts[..|receipts|] == receipts;
    }

    /** Second pass: what the order allows per material, and orders in all. */
    method AllowItems() returns (allowedItems: map<Material, real>, totalAllowed: real)
      ensures totalAllowed == Sum(items)
      ensures forall m :: Get(allowedItems, m) == Allowed(items, m)
    {
      allowedItems, totalAllowed := map[], 0.0;
      for i := 0 to |items|
        invariant totalAllowed == Sum(items[..i])
        invariant forall m :: Get(allowedItems, m) == Allowed(items[..i], m)
      {
        assert items[..i + 1][..i] == items[..i];
        allowedItems := allowedItems[items[i].material := items[i].stock];
        totalAllowed := totalAllowed + items[i].stock;
      }
      assert items[..|items|] == items;
    }

    method ValidateGoodsReceipt(dto: seq<MaterialLine>) returns (v: Verdict)
      ensures v == Validate(State(), dto)
    {
      var loadedItems, totalLoaded := LoadItems();
      var allowedItems, totalAllowed := AllowItems();
      ghost var loaded := totalLoaded;
      for i := 0 to |dto|
        invariant FirstRefusal(State(), dto[..i]).None?
        invariant totalLoaded == loaded + Sum(dto[..i])
      {
        assert dto[..i + 1][..i] == dto[..i];
        var m := dto[i].material;
        if m !in allowedItems || allowedItems[m] == 0.0 {
          RefusalStays(State(), dto, i + 1);
          return NotAllowed(m);
        }
        var totalAfterLoad := if m in loadedItems
            && loadedItems[m] != 0.0 then loadedItems[m] + dto[i].stock else dto[i].stock;
        if allowedItems[m] < totalAfterLoad {
          RefusalStays(State(), dto, i + 1);
          return MaxExceeded(m);
        }
        totalLoaded := totalLoaded + dto[i].stock;
      }
      assert dto[..|dto|] == dto;
      return Valid(totalAllowed == totalLoaded);
    }

    method CreateGoodsReceipt(dto: seq<MaterialLine>, approved: bool) returns (v: Verdict)
      modifies this
      ensures (State(), v) == CreateReceipt(old(State()), dto, approved)
    {
      v := ValidateGoodsReceipt(dto);
      if v.Valid? {
        receipts := receipts + [dto];
        if approved {
          status := if v.loaded then Received else PartiallyReceived;
        }
      }
    }
  }

  lemma {:induction false} RefusalStays(o: Order, dto: seq<MaterialLine>, n: nat)
    requires n <= |dto| && FirstRefusal(o, dto[..n]).Some?
    ensures FirstRefusal(o, dto) == FirstRefusal(o, dto[..n])
  {
    if n == |dto| {
      assert dto[..n] == dto;
    } else {
      assert dto[..|dto| - 1][..n] == dto[..n];
      RefusalStays(o, dto[..|dto| - 1], n);
    }
  }
}
