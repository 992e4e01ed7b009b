/** Offline sales (offline-sale.service.ts) and the sales behind event payments (event-payment.service.ts). */
module Sales {
  import opened Wrappers
  import opened Sums
  import opened ShopTables
  import opened OrderMoney

  // ------------------------------------------------- guarded reservation

  /** The loop of guarded decrements: it stops the transaction at the first line that does not fit. */
  function TakenInOrder(stock: map<VariantId, int>, lines: seq<Line>): (r: Result<map<VariantId, int>>)
    decreases |lines|
  {
    if lines == [] then Returns(stock)
    else
      var line := lines[0];
      if line.variant !in stock || stock[line.variant] < line.quantity then Throws
      else TakenInOrder(stock[line.variant := stock[line.variant] - line.quantity], lines[1..])
  }

  /** Every variant asked for exists and has, in total, the units asked for. */
  predicate Fits(stock: map<VariantId, int>, lines: seq<Line>) {
    forall i :: 0 <= i < |lines| ==>
                  lines[i].variant in stock && Units(lines, lines[i].variant) <= stock[lines[i].variant]
  }

  function TakenTogether(stock: map<VariantId, int>, lines: seq<Line>): map<VariantId, int> {
    map v | v in stock :: stock[v] - Units(lines, v)
  }

  lemma FitsStep(stock: map<VariantId, int>, lines: seq<Line>)
    requires lines != [] && lines[0].variant in stock && stock[lines[0].variant] >= lines[0].quantity
    ensures var next := stock[lines[0].variant := stock[lines[0].variant] - lines[0].quantity];
            (Fits(stock, lines) <==> Fits(next, lines[1..])) &&
            TakenTogether(next, lines[1..]) == TakenTogether(stock, lines)
  {
    var line, rest := lines[0], lines[1..];
    var next := stock[line.variant := stock[line.variant] - line.quantity];
    if Fits(stock, lines) {
      forall i | 0 <= i < |rest| ensures rest[i].variant in next && Units(rest, rest[i].variant) <= next[rest[i].variant] {
        assert rest[i] == lines[i + 1];
      }
    }
    if Fits(next, rest) {
      if !Mentions(rest, line.variant) {
        UnmentionedIsZero(rest, line.variant);
      } else {
        var k :| 0 <= k < |rest| && rest[k].variant == line.variant;
        assert Units(rest, rest[k].variant) <= next[rest[k].variant];
      }
      forall i | 0 <= i < |lines|
        ensures lines[i].variant in stock && Units(lines, lines[i].variant) <= stock[lines[i].variant]
      {
        if i > 0 { assert lines[i] == rest[i - 1]; }
      }
    }
  }

  /**
   Reserving line by line succeeds exactly when the totals fit, and leaves exactly stock minus totals:
   neither the order of the lines nor how a variant's units are split over them matters.
   */
  lemma {:induction false} SequentialIsAggregate(stock: map<VariantId, int>, lines: seq<Line>)
    requires forall v :: v in stock ==> stock[v] >= 0
    ensures TakenInOrder(stock, lines).Returns? <==> Fits(stock, lines)
    ensures TakenInOrder(stock, lines).Returns? ==> TakenInOrder(stock, lines).value == TakenTogether(stock, lines)
    decreases |lines|
  {
    if lines == [] {
      assert TakenTogether(stock, lines) == stock;
    } else if lines[0].variant in stock && stock[lines[0].variant] >= lines[0].quantity {
      FitsStep(stock, lines);
      SequentialIsAggregate(stock[lines[0].variant := stock[lines[0].variant] - lines[0].quantity], lines[1..]);
    } else if lines[0].variant in stock {
      assert Units(lines, lines[0].variant) >= lines[0].quantity;
    }
  }

  function Without(b: seq<Line>, i: nat): seq<Line>
    requires i < |b|
  {
    b[..i] + b[i + 1..]
  }

  lemma UnitsWithout(b: seq<Line>, i: nat, v: VariantId)
    requires i < |b|
    ensures Units(b, v) == Units(Without(b, i), v) + if b[i].variant == v then b[i].quantity else 0
  {
    assert b == b[..i] + ([b[i]] + b[i + 1..]);
    UnitsConcat(b[..i], [b[i]] + b[i + 1..], v);
    UnitsConcat([b[i]], b[i + 1..], v);
    UnitsConcat(b[..i], b[i + 1..], v);
    UnitsOfOne(b[i], v);
  }

  lemma MultisetWithout(b: seq<Line>, i: nat)
    requires i < |b|
    ensures multiset(Without(b, i)) == multiset(b) - multiset{b[i]}
  {
    assert b == b[..i] + [b[i]] + b[i + 1..];
  }

  lemma {:induction false} UnitsOfPermutation(a: seq<Line>, b: seq<Line>, v: VariantId)
    requires multiset(a) == multiset(b)
    ensures Units(a, v) == Units(b, v)
    decreases |a|
  {
    if a == [] {
      assert b == [] by { assert |multiset(b)| == 0; }
    } else {
      assert a[0] in multiset(b);
      var i :| 0 <= i < |b| && b[i] == a[0];
      assert Without(a, 0) == a[1..];
      MultisetWithout(a, 0);
      MultisetWithout(b, i);
      UnitsOfPermutation(a[1..], Without(b, i), v);
      UnitsWithout(b, i, v);
    }
  }

  /** Any reordering of the lines has the same outcome. */
  lemma ReservationIgnoresOrder(stock: map<VariantId, int>, a: seq<Line>, b: seq<Line>)
    requires forall v :: v in stock ==> stock[v] >= 0
    requires multiset(a) == multiset(b)
    ensures TakenInOrder(stock, a) == TakenInOrder(stock, b)
  {
    SequentialIsAggregate(stock, a);
    SequentialIsAggregate(stock, b);
    forall v ensures Units(a, v) == Units(b, v) { UnitsOfPermutation(a, b, v); }
    assert TakenTogether(stock, a) == TakenTogether(stock, b);
    forall line ensures line in a <==> line in b {
      assert line in multiset(a) <==> line in multiset(b);
    }
    SameFit(stock, a, b);
    SameFit(stock, b, a);
  }

  lemma SameFit(stock: map<VariantId, int>, a: seq<Line>, b: seq<Line>)
    requires forall v :: Units(a, v) == Units(b, v)
    requires forall line :: line in b ==> line in a
    ensures Fits(stock, a) ==> Fits(stock, b)
  {
    if Fits(stock, a) {
      forall i | 0 <= i < |b| ensures b[i].variant in stock && Units(b, b[i].variant) <= stock[b[i].variant] {
        assert b[i] in a;
        var k :| 0 <= k < |a| && a[k] == b[i];
        assert Units(a, a[k].variant) <= stock[a[k].variant];
      }
    }
  }

  method TakeAll(db: Database, items: seq<SaleItem>) returns (ok: bool)
    modifies db`stock
    ensures var r := TakenInOrder(old(db.stock), SaleLines(items));
            ok == r.Returns? && (ok ==> db.stock == r.value)
  {
    var lines := SaleLines(items);
    for i := 0 to |lines|
      invariant TakenInOrder(old(db.stock), lines) == TakenInOrder(db.stock, lines[i..])
    {
      assert lines[i..][0] == lines[i] && lines[i..][1..] == lines[i + 1..];
      var matched := db.TakeUnits(lines[i].variant, lines[i].quantity);
      if !matched {
        return false;
      }
    }
    ok := true;
  }

  /** The loop of increments that returns a sale's items. */
  method ReturnAll(db: Database, items: seq<SaleItem>)
    modifies db`stock
    ensures db.stock == AddLines(old(db.stock), SaleLines(items))
  {
    var lines := SaleLines(items);
    for i := 0 to |lines|
      invariant db.stock == AddLines(old(db.stock), lines[..i])
    {
      assert lines[..i + 1] == lines[..i] + [lines[i]];
      forall v ensures Units(lines[..i + 1], v) == Units(lines[..i], v) + if v == lines[i].variant then lines[i].quantity else 0 {
        UnitsConcat(lines[..i], [lines[i]], v);
        UnitsOfOne(lines[i], v);
      }
      db.ReturnUnits(lines[i].variant, lines[i].quantity);
    }
    assert lines[..|lines|] == lines;
  }

  // --------------------------------------------------------- offline sale

  function Gross(items: seq<SaleItem>): (r: int)
    ensures r >= 0
  {
    if items == [] then 0 else items[0].quantity * items[0].unitPrice + Gross(items[1..])
  }

  /** What the units of a list of items cost together, in whatever order they are added up. */
  ghost function CostOf(items: seq<SaleItem>): int {
    Sum(Costs(items))
  }

  function Costs(items: seq<SaleItem>): map<nat, int> {
    map i: nat | i < |items| :: items[i].quantity * items[i].unitPrice
  }

  lemma {:induction false} GrossIsTheCost(items: seq<SaleItem>, n: nat)
    requires n <= |items|
    ensures Gross(items) == CostOf(items[..n]) + Gross(items[n..])
    decreases n
  {
    if n == 0 {
      assert Costs(items[..0]) == map[];
      assert items[0..] == items;
    } else {
      var last: nat := n - 1;
      GrossIsTheCost(items, last);
      assert items[last..][1..] == items[n..];
      assert Costs(items[..n]) == Costs(items[..last])[last := items[last].quantity * items[last].unitPrice];
      SumUpdate(Costs(items[..last]), last, items[last].quantity * items[last].unitPrice);
    }
  }

  /** The sale as it was asked for: its items, what they cost, and what is left to pay after a discount they cover. */
  ghost predicate IsSold(t: Tables, id: SaleId, items: seq<SaleItem>, discount: nat) {
    && id in t.sales && t.sales[id].items == items && !t.sales[id].isDeleted
    && t.sales[id].total == CostOf(items) && t.sales[id].discount == discount
    && t.sales[id].payable == CostOf(items) - discount && 0 <= t.sales[id].payable
    && forall i :: 0 <= i < |items| ==> items[i].variant in t.catalog
  }

  predicate KnownItems(t: Tables, items: seq<SaleItem>) {
    forall i :: 0 <= i < |items| ==> items[i].variant in t.catalog
  }

  function SaleOf(items: seq<SaleItem>, discount: nat): Sale {
    Sale(items, Gross(items), discount, Gross(items) - discount, false)
  }

  function SaleCreated(t: Tables, id: SaleId, items: seq<SaleItem>, discount: nat): (r: Result<Tables>)
    ensures r.Returns? ==> SameOrders(t, r.value) && SameBaskets(t, r.value)
  {
    if !KnownItems(t, items) || discount > Gross(items) then Throws
    else
      var stock := TakenInOrder(t.stock, SaleLines(items));
      if stock.Throws? then Throws
      else Returns(t.(stock := stock.value, sales := t.sales[id := SaleOf(items, discount)]))
  }

  predicate LiveSale(t: Tables, id: SaleId) {
    id in t.sales && !t.sales[id].isDeleted
  }

  function SaleUpdated(t: Tables, id: SaleId, items: seq<SaleItem>, discount: nat): (r: Result<Tables>)
    ensures r.Returns? ==> SameOrders(t, r.value) && SameBaskets(t, r.value)
  {
    if !KnownItems(t, items) || discount > Gross(items) || !LiveSale(t, id) then Throws
    else
      var stock := TakenInOrder(AddLines(t.stock, SaleLines(t.sales[id].items)), SaleLines(items));
      if stock.Throws? then Throws
      else Returns(t.(stock := stock.value, sales := t.sales[id := SaleOf(items, discount)]))
  }

  function SaleRemoved(t: Tables, id: SaleId): (r: Result<Tables>)
    ensures r.Returns? ==> SameOrders(t, r.value) && SameBaskets(t, r.value)
  {
    if !LiveSale(t, id) then Throws
    else Returns(t.(stock := AddLines(t.stock, SaleLines(t.sales[id].items)),
                    sales := t.sales[id := t.sales[id].(isDeleted := true)]))
  }

  method CreateSale(db: Database, id: SaleId, items: seq<SaleItem>, discount: nat) returns (ok: bool)
    requires id !in db.sales
    modifies db
    ensures var r := SaleCreated(old(db.Snapshot()), id, items, discount);
            ok == r.Returns? && db.Snapshot() == if ok then r.value else old(db.Snapshot())
    ensures ok ==> IsSold(db.Snapshot(), id, items, discount)
    ensures (forall v :: v in old(db.stock) ==> old(db.stock)[v] >= 0) ==>
              (ok <==> (forall i :: 0 <= i < |items| ==> items[i].variant in db.catalog) && discount <= CostOf(items) &&
                       Fits(old(db.stock), SaleLines(items)))
  {
    GrossIsTheCost(items, |items|);
    assert items[..|items|] == items && Gross(items[|items|..]) == 0;
    if forall v :: v in db.stock ==> db.stock[v] >= 0 { SequentialIsAggregate(db.stock, SaleLines(items)); }
    if !KnownItems(db.Snapshot(), items) || discount > Gross(items) {
      return false;
    }
    var saved := db.Snapshot();
    ok := TakeAll(db, items);
    if !ok {
      db.RollBack(saved);
      return false;
    }
    db.sales := db.sales[id := SaleOf(items, discount)];
  }

  method UpdateSale(db: Database, id: SaleId, items: seq<SaleItem>, discount: nat) returns (ok: bool)
    modifies db
    ensures var r := SaleUpdated(old(db.Snapshot()), id, items, discount);
            ok == r.Returns? && db.Snapshot() == if ok then r.value else old(db.Snapshot())
    ensures ok ==> IsSold(db.Snapshot(), id, items, discount)
  {
    GrossIsTheCost(items, |items|);
    assert items[..|items|] == items && Gross(items[|items|..]) == 0;
    if !KnownItems(db.Snapshot(), items) || discount > Gross(items) || id !in db.sales || db.sales[id].isDeleted {
      return false;
    }
    var saved := db.Snapshot();
    ReturnAll(db, db.sales[id].items);
    ok := TakeAll(db, items);
    if !ok {
      db.RollBack(saved);
      return false;
    }
    db.sales := db.sales[id := SaleOf(items, discount)];
  }

  method RemoveSale(db: Database, id: SaleId) returns (ok: bool)
    modifies db
    ensures var r := SaleRemoved(old(db.Snapshot()), id);
            ok == r.Returns? && db.Snapshot() == if ok then r.value else old(db.Snapshot())
    ensures ok ==> id in old(db.sales) && !old(db.sales)[id].isDeleted && id in db.sales && db.sales[id].isDeleted
  {
    if id !in db.sales || db.sales[id].isDeleted {
      return false;
    }
    ReturnAll(db, db.sales[id].items);
    db.sales := db.sales[id := db.sales[id].(isDeleted := true)];
    ok := true;
  }

  /** What fits on the shelf once `was` has come back, and what it leaves, variant by variant. */
  lemma FitsAfterReturn(stock: map<VariantId, int>, was: seq<Line>, next: seq<Line>)
    ensures Fits(AddLines(stock, was), next) <==>
            forall i :: 0 <= i < |next| ==>
                          next[i].variant in stock &&
                          Units(next, next[i].variant) <= stock[next[i].variant] + Units(was, next[i].variant)
    ensures forall v :: v in stock ==>
                          v in AddLines(stock, was) && v in TakenTogether(AddLines(stock, was), next) &&
                          TakenTogether(AddLines(stock, was), next)[v] == stock[v] + Units(was, v) - Units(next, v)
  {
  }

  lemma StockAfterUpdate(t: Tables, id: SaleId, items: seq<SaleItem>, discount: nat)
    requires forall v :: v in t.stock ==> t.stock[v] >= 0
    requires KnownItems(t, items) && discount <= Gross(items) && LiveSale(t, id)
    ensures var back, next := AddLines(t.stock, SaleLines(t.sales[id].items)), SaleLines(items);
            (SaleUpdated(t, id, items, discount).Returns? <==> Fits(back, next)) &&
            (SaleUpdated(t, id, items, discount).Returns? ==>
               SaleUpdated(t, id, items, discount).value.stock == TakenTogether(back, next))
  {
    SequentialIsAggregate(AddLines(t.stock, SaleLines(t.sales[id].items)), SaleLines(items));
  }

  /**
   An update is accepted exactly when, for every variant, the new total fits stock plus the old total, and
   then leaves stock + old - new.
   */
  lemma UpdateFitsOldHolding(t: Tables, id: SaleId, items: seq<SaleItem>, discount: nat)
    requires forall v :: v in t.stock ==> t.stock[v] >= 0
    requires KnownItems(t, items) && discount <= Gross(items) && LiveSale(t, id)
    ensures var was, next := SaleLines(t.sales[id].items), SaleLines(items);
            (SaleUpdated(t, id, items, discount).Returns? <==>
             forall i :: 0 <= i < |next| ==>
                           next[i].variant in t.stock &&
                           Units(next, next[i].variant) <= t.stock[next[i].variant] + Units(was, next[i].variant)) &&
            (SaleUpdated(t, id, items, discount).Returns? ==>
               forall v :: v in t.stock ==>
                             v in SaleUpdated(t, id, items, discount).value.stock &&
                             SaleUpdated(t, id, items, discount).value.stock[v] ==
                             t.stock[v] + Units(was, v) - Units(next, v))
  {
    StockAfterUpdate(t, id, items, discount);
    FitsAfterReturn(t.stock, SaleLines(t.sales[id].items), SaleLines(items));
  }

  // --------------------------------------------------------- event payments

  /** `markPaid`: a payment that has no sale yet gets one without items, worth what was paid. */
  function EventPaid(t: Tables, p: EventPaymentId, freshSale: SaleId): (r: Tables)
    ensures SameOrders(t, r) && SameBaskets(t, r) && r.stock == t.stock
  {
    if p !in t.eventPayments || t.eventPayments[p].status == Captured then t
    else
      var payment := t.eventPayments[p];
      if payment.sale.Some? then t.(eventPayments := t.eventPayments[p := payment.(status := Captured)])
      else t.(eventPayments := t.eventPayments[p := payment.(status := Captured, sale := Some(freshSale))],
              sales := t.sales[freshSale := Sale([], payment.amount, 0, payment.amount, false)])
  }

  datatype EventAnswer = EventVerified | EventNotVerified

  /** `verifyCallback` after the gateway answered; a payment that is already paid is left alone. */
  method VerifyEventCallback(db: Database, p: EventPaymentId, freshSale: SaleId, answer: EventAnswer) returns (paidNow: bool)
    requires freshSale !in db.sales
    modifies db
    ensures var t := old(db.Snapshot());
            paidNow == (p in t.eventPayments && t.eventPayments[p].status != Captured && answer == EventVerified) &&
            db.Snapshot() ==
            if p in t.eventPayments && t.eventPayments[p].status != Captured && answer == EventNotVerified
            then t.(eventPayments := t.eventPayments[p := t.eventPayments[p].(status := Dropped)])
            else if paidNow then EventPaid(t, p, freshSale) else t
    ensures paidNow ==>
              p in db.eventPayments && db.eventPayments[p].status == Captured && db.eventPayments[p].sale.Some? &&
              (old(db.eventPayments)[p].sale.Some? ==>
                 db.eventPayments[p].sale == old(db.eventPayments)[p].sale && db.sales == old(db.sales)) &&
              (old(db.eventPayments)[p].sale.None? ==>
                 var id := db.eventPayments[p].sale.value;
                 id !in old(db.sales) && id in db.sales && db.sales[id].items == [] && !db.sales[id].isDeleted &&
                 db.sales[id].payable == db.sales[id].total == old(db.eventPayments)[p].amount)
  {
    if p !in db.eventPayments || db.eventPayments[p].status == Captured {
      return false;
    }
    if answer == EventNotVerified {
      db.eventPayments := db.eventPayments[p := db.eventPayments[p].(status := Dropped)];
      return false;
    }
    var sale := db.eventPayments[p].sale;
    if sale.None? {
      db.sales := db.sales[freshSale := Sale([], db.eventPayments[p].amount, 0, db.eventPayments[p].amount, false)];
      sale := Some(freshSale);
    }
    db.eventPayments := db.eventPayments[p := db.eventPayments[p].(status := Captured, sale := sale)];
    paidNow := true;
  }

  predicate NoVariantTwice(items: seq<SaleItem>) {
    forall i, j :: 0 <= i < j < |items| ==> items[i].variant != items[j].variant
  }

  /** The sale whose items an event payment holds; a sale removed from the offline page counts as none. */
  function HeldSale(t: Tables, p: EventPaymentId): Option<SaleId> {
    if p in t.eventPayments && t.eventPayments[p].sale.Some? && LiveSale(t, t.eventPayments[p].sale.value)
    then t.eventPayments[p].sale else None
  }

  function HeldItems(t: Tables, p: EventPaymentId): seq<SaleItem> {
    var sale := HeldSale(t, p);
    if sale.Some? && sale.value in t.sales then t.sales[sale.value].items else []
  }

  /** The sale written for assigned items: what was paid is never changed, the rest is called discount. */
  function AssignedSale(items: seq<SaleItem>, paid: nat): Sale {
    var total := Max(Gross(items), paid);
    Sale(items, total, total - paid, paid, false)
  }

  predicate Assignable(t: Tables, p: EventPaymentId, items: seq<SaleItem>) {
    NoVariantTwice(items) && KnownItems(t, items) && p in t.eventPayments && t.eventPayments[p].status == Captured
  }

  /** `assignItems`. */
  function Assigned(t: Tables, p: EventPaymentId, items: seq<SaleItem>, freshSale: SaleId): (r: Result<Tables>)
    ensures r.Returns? ==> SameOrders(t, r.value) && SameBaskets(t, r.value)
  {
    if !Assignable(t, p, items) then Throws
    else
      var stock := TakenInOrder(AddLines(t.stock, SaleLines(HeldItems(t, p))), SaleLines(items));
      if stock.Throws? then Throws
      else
        var held := HeldSale(t, p);
        var id := held.GetOr(freshSale);
        Returns(t.(stock := stock.value,
                   sales := t.sales[id := AssignedSale(items, t.eventPayments[p].amount)],
                   eventPayments := t.eventPayments[p := t.eventPayments[p].(sale := Some(id))]))
  }

  method CheckNoVariantTwice(items: seq<SaleItem>) returns (ok: bool)
    ensures ok <==> NoVariantTwice(items)
  {
    var seen: set<VariantId> := {};
    for i := 0 to |items|
      invariant forall v :: v in seen <==> exists k :: 0 <= k < i && items[k].variant == v
      invariant NoVariantTwice(items[..i])
    {
      if items[i].variant in seen {
        var k :| 0 <= k < i && items[k].variant == items[i].variant;
        return false;
      }
      seen := seen + {items[i].variant};
    }
    assert items[..|items|] == items;
    ok := true;
  }

  method AssignItems(db: Database, p: EventPaymentId, items: seq<SaleItem>, freshSale: SaleId) returns (ok: bool)
    requires freshSale !in db.sales
    modifies db
    ensures var r := Assigned(old(db.Snapshot()), p, items, freshSale);
            ok == r.Returns? && db.Snapshot() == if ok then r.value else old(db.Snapshot())
    ensures ok ==>
              NoVariantTwice(items) && p in old(db.eventPayments) && old(db.eventPayments)[p].status == Captured &&
              p in db.eventPayments && db.eventPayments[p].sale.Some? && db.eventPayments[p].sale.value in db.sales &&
              var s := db.sales[db.eventPayments[p].sale.value];
              s.items == items && !s.isDeleted && s.payable == old(db.eventPayments)[p].amount == s.total - s.discount &&
              s.discount >= 0 && forall i :: 0 <= i < |items| ==> items[i].variant in db.catalog
  {
    var distinct := CheckNoVariantTwice(items);
    if !distinct || !KnownItems(db.Snapshot(), items) || p !in db.eventPayments || db.eventPayments[p].status != Captured {
      return false;
    }
    var saved := db.Snapshot();
    var sale := HeldSale(saved, p);
    if sale.Some? {
      ReturnAll(db, db.sales[sale.value].items);
    } else {
      assert AddLines(db.stock, []) == db.stock;
    }
    ok := TakeAll(db, items);
    if !ok {
      db.RollBack(saved);
      return false;
    }
    var payment := db.eventPayments[p];
    if sale.Some? {
      db.sales := db.sales[sale.value := AssignedSale(items, payment.amount)];
      assert db.eventPayments == db.eventPayments[p := payment.(sale := sale)];
    } else {
      db.sales := db.sales[freshSale := AssignedSale(items, payment.amount)];
      db.eventPayments := db.eventPayments[p := payment.(sale := Some(freshSale))];
    }
  }

  /**
   An assignment is accepted exactly when each variant's request fits stock plus what the payment's sale
   already holds, and then leaves stock + held - asked. The amount paid stays total minus discount.
   */
  lemma AssignmentFitsHolding(t: Tables, p: EventPaymentId, items: seq<SaleItem>, freshSale: SaleId)
    requires forall v :: v in t.stock ==> t.stock[v] >= 0
    requires Assignable(t, p, items)
    ensures var held, next := SaleLines(HeldItems(t, p)), SaleLines(items);
            Assigned(t, p, items, freshSale).Returns? <==> Fits(AddLines(t.stock, held), next)
    ensures Assigned(t, p, items, freshSale).Returns? ==>
              var r := Assigned(t, p, items, freshSale).value;
              r.stock == TakenTogether(AddLines(t.stock, SaleLines(HeldItems(t, p))), SaleLines(items)) &&
              HeldItems(r, p) == items &&
              HeldSale(r, p).Some? && HeldSale(r, p).value in r.sales &&
              r.sales[HeldSale(r, p).value].total - r.sales[HeldSale(r, p).value].discount == t.eventPayments[p].amount
  {
    SequentialIsAggregate(AddLines(t.stock, SaleLines(HeldItems(t, p))), SaleLines(items));
  }

  /** What may be assigned again is what was on the shelf and in the sale before. */
  lemma AssignmentKeepsHolding(t: Tables, p: EventPaymentId, a: seq<SaleItem>, freshSale: SaleId)
    requires forall v :: v in t.stock ==> t.stock[v] >= 0
    requires Assigned(t, p, a, freshSale).Returns?
    ensures var t1 := Assigned(t, p, a, freshSale).value;
            p in t1.eventPayments && t1.eventPayments[p].status == Captured &&
            t1.eventPayments[p].amount == t.eventPayments[p].amount && HeldSale(t1, p).Some? &&
            AddLines(t1.stock, SaleLines(HeldItems(t1, p))) == AddLines(t.stock, SaleLines(HeldItems(t, p))) &&
            (HeldSale(t, p).Some? ==> HeldSale(t1, p) == HeldSale(t, p))
  {
    AssignmentFitsHolding(t, p, a, freshSale);
  }

  /** An accepted assignment is what the sale holds afterwards. */
  lemma AssignedIsHeld(t: Tables, p: EventPaymentId, items: seq<SaleItem>, freshSale: SaleId)
    requires Assigned(t, p, items, freshSale).Returns?
    ensures HeldItems(Assigned(t, p, items, freshSale).value, p) == items
  {
  }

  /** An assignment depends on shelf and holding together, and writes the same sale wherever there is one. */
  lemma SameHoldingSameAssignment(t: Tables, t1: Tables, p: EventPaymentId, b: seq<SaleItem>, id: SaleId, id1: SaleId)
    requires AddLines(t1.stock, SaleLines(HeldItems(t1, p))) == AddLines(t.stock, SaleLines(HeldItems(t, p)))
    requires KnownItems(t1, b) <==> KnownItems(t, b)
    requires p in t.eventPayments && p in t1.eventPayments
    requires t1.eventPayments[p].status == t.eventPayments[p].status && t1.eventPayments[p].amount == t.eventPayments[p].amount
    ensures var alone, after := Assigned(t, p, b, id), Assigned(t1, p, b, id1);
            (after.Returns? <==> alone.Returns?) &&
            (after.Returns? ==> after.value.stock == alone.value.stock)
  {
  }

  /**
   Assigning `a` and then `b` is accepted exactly when assigning `b` alone is, and leaves the same stock and
   the same sale contents: the history of assignments does not matter.
   */
  lemma AssignmentIsHistoryFree(
      t: Tables, p: EventPaymentId, a: seq<SaleItem>, b: seq<SaleItem>, fresh1: SaleId, fresh2: SaleId, fresh3: SaleId)
    requires forall v :: v in t.stock ==> t.stock[v] >= 0
    requires Assigned(t, p, a, fresh1).Returns?
    ensures var t1 := Assigned(t, p, a, fresh1).value;
            var after, alone := Assigned(t1, p, b, fresh2), Assigned(t, p, b, fresh3);
            (after.Returns? <==> alone.Returns?) &&
            (after.Returns? ==> after.value.stock == alone.value.stock &&
                                HeldItems(after.value, p) == HeldItems(alone.value, p) == b &&
                                (HeldSale(t, p).Some? ==> after.value == alone.value))
  {
    AssignmentKeepsHolding(t, p, a, fresh1);
    var t1 := Assigned(t, p, a, fresh1).value;
    SameHoldingSameAssignment(t, t1, p, b, fresh3, fresh2);
    if Assigned(t, p, b, fresh3).Returns? {
      AssignedIsHeld(t, p, b, fresh3);
      AssignedIsHeld(t1, p, b, fresh2);
    }
  }

  /** Sending the same assignment again is accepted and changes nothing at all. */
  lemma AssignmentIsIdempotent(t: Tables, p: EventPaymentId, a: seq<SaleItem>, fresh1: SaleId, fresh2: SaleId)
    requires forall v :: v in t.stock ==> t.stock[v] >= 0
    requires Assigned(t, p, a, fresh1).Returns?
    ensures Assigned(Assigned(t, p, a, fresh1).value, p, a, fresh2) == Returns(Assigned(t, p, a, fresh1).value)
  {
    AssignmentIsHistoryFree(t, p, a, a, fresh1, fresh2, fresh1);
    var t1 := Assigned(t, p, a, fresh1).value;
    var t2 := Assigned(t1, p, a, fresh2).value;
    assert t2.sales == t1.sales && t2.eventPayments == t1.eventPayments;
  }

  /**
   A sale removed from the offline page gave its units back then; assigning items to its payment afterwards
   starts from the shelf alone and opens a new sale.
   */
  lemma RemovedSaleIsNotRestockedTwice(t: Tables, p: EventPaymentId, items: seq<SaleItem>, freshSale: SaleId)
    requires forall v :: v in t.stock ==> t.stock[v] >= 0
    requires HeldSale(t, p).Some? && freshSale !in t.sales && Assignable(t, p, items)
    ensures var removed := SaleRemoved(t, HeldSale(t, p).value);
            removed.Returns? &&
            (Assigned(removed.value, p, items, freshSale).Returns? <==> Assigned(t, p, items, freshSale).Returns?) &&
            (Assigned(t, p, items, freshSale).Returns? ==>
               Assigned(removed.value, p, items, freshSale).value.stock == Assigned(t, p, items, freshSale).value.stock &&
               Assigned(removed.value, p, items, freshSale).value.sales[HeldSale(t, p).value].isDeleted)
  {
    var removed := SaleRemoved(t, HeldSale(t, p).value).value;
    assert HeldItems(removed, p) == [];
    assert AddLines(removed.stock, SaleLines([])) == removed.stock;
  }

  // ---------------------------------------------------------- conservation

  /** Creating, replacing or removing a sale moves units between the shelf and the sale, and nowhere else. */
  lemma TakingConserves(t: Tables, items: seq<SaleItem>, held: seq<SaleItem>, id: SaleId, s: Sale, v: VariantId)
    requires v in t.stock && (forall u :: u in t.stock ==> t.stock[u] >= 0)
    requires s.items == items && !s.isDeleted
    requires Units(SaleLines(held), v) == if id in t.sales then SoldUnits(t.sales[id], v) else 0
    requires TakenInOrder(AddLines(t.stock, SaleLines(held)), SaleLines(items)).Returns?
    ensures var stock := TakenInOrder(AddLines(t.stock, SaleLines(held)), SaleLines(items)).value;
            v in stock && Ledger(t.(stock := stock, sales := t.sales[id := s]), v) == Ledger(t, v)
  {
    SequentialIsAggregate(AddLines(t.stock, SaleLines(held)), SaleLines(items));
    SaleUnitsChange(t.sales, id, s, v);
  }
}
