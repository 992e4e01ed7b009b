/**
 The rows of the shop's database that hold stock, and the mutable database the services write.
 Amounts are whole cents (hundredths of a toman), times are milliseconds.
 */
module ShopTables {
  import opened Wrappers
  import opened Sums

  type VariantId = nat
  type UserId = nat
  type BasketId = nat
  type OrderId = nat
  type SaleId = nat
  type EventPaymentId = nat
  type Code = nat
  type Time = int

  const DAY_MS := 86_400_000

  /** How long a basket row or an unpaid order holds its units: ten minutes. */
  const RESERVATION_TTL_MS := 600_000

  datatype Provider = Zarinpal | Zibal | SnappPay

  datatype PaymentStatus = Pending | Paid | Failed

  datatype OrderStatus = PendingPayment | OrderPaid | Confirmed | Shipped | Delivered | Canceled

  datatype AttemptStatus = Initiated | Captured | Dropped

  /** The last remote status written on a Snapp Pay attempt. */
  datatype GatewayStatus = CallbackReceived | RemotePending | RemoteVerify | RemoteSettle | RemoteCancel | RemoteOther

  /** Who vouches for a captured attempt: the wallet covered it, the mock gateway, or a real gateway. */
  datatype Reference = NoReference | WalletReference | MockReference | GatewayReference

  /** A quantity of one variant. */
  datatype Line = Line(variant: VariantId, quantity: nat)

  datatype BasketRow = BasketRow(quantity: nat, reservedUntil: Option<Time>, isDeleted: bool)

  /** Baskets are numbered in order of creation. */
  datatype Basket = Basket(owner: UserId, isDeleted: bool)

  datatype OrderItem = OrderItem(
    variant: VariantId, quantity: nat, unitPrice: nat, unitDiscount: Option<nat>, isDeleted: bool)
  {
    /** What one unit is sold for: the discount price when there is one. */
    function Unit(): nat { unitDiscount.GetOr(unitPrice) }
  }

  datatype Order = Order(
    owner: UserId,
    code: Option<Code>,
    items: seq<OrderItem>,
    total: int,
    discount: int,
    shipping: int,
    packaging: int,
    payable: int,
    paymentStatus: PaymentStatus,
    orderStatus: OrderStatus,
    createdAt: Time,
    isDeleted: bool)

  /** The payment attempt of an order; checkout is the only writer that creates one, with its order. */
  datatype Attempt = Attempt(
    provider: Provider,
    status: AttemptStatus,
    amount: int,
    hasToken: bool,
    reference: Reference,
    gatewayStatus: Option<GatewayStatus>,
    createdAt: Time)

  datatype CodeRow = CodeRow(usedCount: int, maxTotalUses: Option<nat>)

  datatype SaleItem = SaleItem(variant: VariantId, quantity: nat, unitPrice: nat)

  datatype Sale = Sale(items: seq<SaleItem>, total: int, discount: int, payable: int, isDeleted: bool)

  datatype EventPayment = EventPayment(status: AttemptStatus, amount: nat, sale: Option<SaleId>)

  datatype Product = Product(finalPrice: nat, discountPrice: Option<nat>, isActive: bool)

  datatype Tables = Tables(
    stock: map<VariantId, int>,
    catalog: map<VariantId, Product>,
    baskets: seq<Basket>,
    rows: map<(BasketId, VariantId), BasketRow>,
    orders: map<OrderId, Order>,
    attempts: map<OrderId, Attempt>,
    codes: map<Code, CodeRow>,
    sales: map<SaleId, Sale>,
    eventPayments: map<EventPaymentId, EventPayment>)

  predicate SameOrders(t: Tables, t': Tables) {
    t'.orders == t.orders && t'.attempts == t.attempts && t'.codes == t.codes
  }

  predicate SameBaskets(t: Tables, t': Tables) {
    t'.baskets == t.baskets && t'.rows == t.rows && t'.catalog == t.catalog
  }

  predicate SameSales(t: Tables, t': Tables) {
    t'.sales == t.sales && t'.eventPayments == t.eventPayments
  }

  // ---------------------------------------------------------------- lines

  /** The units of variant `v` in a list of lines. */
  function Units(lines: seq<Line>, v: VariantId): nat {
    if lines == [] then 0
    else (if lines[0].variant == v then lines[0].quantity else 0) + Units(lines[1..], v)
  }

  /** The lines of an order's items that are not soft-deleted. */
  function LiveLines(items: seq<OrderItem>): seq<Line> {
    if items == [] then []
    else (if items[0].isDeleted then [] else [Line(items[0].variant, items[0].quantity)]) + LiveLines(items[1..])
  }

  function SaleLines(items: seq<SaleItem>): seq<Line> {
    if items == [] then []
    else [Line(items[0].variant, items[0].quantity)] + SaleLines(items[1..])
  }

  predicate Mentions(lines: seq<Line>, v: VariantId) {
    exists i :: 0 <= i < |lines| && lines[i].variant == v
  }

  lemma {:induction false} UnitsConcat(a: seq<Line>, b: seq<Line>, v: VariantId)
    ensures Units(a + b, v) == Units(a, v) + Units(b, v)
  {
    if a == [] {
      assert a + b == b;
    } else {
      UnitsConcat(a[1..], b, v);
      assert (a + b)[1..] == a[1..] + b;
    }
  }

  lemma {:induction false} UnmentionedIsZero(lines: seq<Line>, v: VariantId)
    requires !Mentions(lines, v)
    ensures Units(lines, v) == 0
  {
    if lines != [] {
      assert lines[0].variant != v;
      forall i | 0 <= i < |lines[1..]| ensures lines[1..][i].variant != v {
        assert lines[1..][i] == lines[i + 1];
      }
      UnmentionedIsZero(lines[1..], v);
    }
  }

  lemma UnitsOfOne(line: Line, v: VariantId)
    ensures Units([line], v) == if line.variant == v then line.quantity else 0
  {
  }

  /** Every variant's stock after the lines' units came back. */
  function AddLines(stock: map<VariantId, int>, lines: seq<Line>): (r: map<VariantId, int>) {
    map v | v in stock :: stock[v] + Units(lines, v)
  }

  // -------------------------------------------------------------- ledger

  /** The orders that hold their units: not deleted, and not released. */
  predicate Holds(o: Order) {
    !o.isDeleted && o.paymentStatus != Failed
  }

  function HeldUnits(o: Order, v: VariantId): nat {
    if Holds(o) then Units(LiveLines(o.items), v) else 0
  }

  /** The units one basket row holds. */
  function RowUnits(rows: map<(BasketId, VariantId), BasketRow>, key: (BasketId, VariantId)): nat {
    if key in rows && !rows[key].isDeleted then rows[key].quantity else 0
  }

  function HeldByRow(rows: map<(BasketId, VariantId), BasketRow>, v: VariantId): map<(BasketId, VariantId), int> {
    map key | key in rows && key.1 == v :: RowUnits(rows, key)
  }

  ghost function BasketUnits(rows: map<(BasketId, VariantId), BasketRow>, v: VariantId): int {
    Sum(HeldByRow(rows, v))
  }

  function HeldByOrder(orders: map<OrderId, Order>, v: VariantId): map<OrderId, int> {
    map o | o in orders :: HeldUnits(orders[o], v)
  }

  ghost function OrderUnits(orders: map<OrderId, Order>, v: VariantId): int {
    Sum(HeldByOrder(orders, v))
  }

  function SoldUnits(s: Sale, v: VariantId): nat {
    if s.isDeleted then 0 else Units(SaleLines(s.items), v)
  }

  function SoldBySale(sales: map<SaleId, Sale>, v: VariantId): map<SaleId, int> {
    map s | s in sales :: SoldUnits(sales[s], v)
  }

  ghost function SaleUnits(sales: map<SaleId, Sale>, v: VariantId): int {
    Sum(SoldBySale(sales, v))
  }

  /** Every unit of `v` the shop knows of: on the shelf, in live baskets, in live orders, in live sales. */
  ghost function Ledger(t: Tables, v: VariantId): int
    requires v in t.stock
  {
    t.stock[v] + BasketUnits(t.rows, v) + OrderUnits(t.orders, v) + SaleUnits(t.sales, v)
  }

  lemma BasketUnitsChange(
      rows: map<(BasketId, VariantId), BasketRow>, rows': map<(BasketId, VariantId), BasketRow>, b: BasketId, v: VariantId)
    requires forall key: (BasketId, VariantId) :: key.1 == v && key != (b, v) ==>
                             (key in rows <==> key in rows') && (key in rows ==> rows[key] == rows'[key])
    ensures BasketUnits(rows', v) - RowUnits(rows', (b, v)) == BasketUnits(rows, v) - RowUnits(rows, (b, v))
  {
    SumDifference(HeldByRow(rows, v), HeldByRow(rows', v), (b, v));
  }

  lemma OrderUnitsChange(orders: map<OrderId, Order>, id: OrderId, o: Order, v: VariantId)
    ensures OrderUnits(orders[id := o], v) ==
            OrderUnits(orders, v) - (if id in orders then HeldUnits(orders[id], v) else 0) + HeldUnits(o, v)
  {
    SumUpdate(HeldByOrder(orders, v), id, HeldUnits(o, v));
    assert HeldByOrder(orders[id := o], v) == HeldByOrder(orders, v)[id := HeldUnits(o, v)];
  }

  lemma SaleUnitsChange(sales: map<SaleId, Sale>, id: SaleId, s: Sale, v: VariantId)
    ensures SaleUnits(sales[id := s], v) ==
            SaleUnits(sales, v) - (if id in sales then SoldUnits(sales[id], v) else 0) + SoldUnits(s, v)
  {
    SumUpdate(SoldBySale(sales, v), id, SoldUnits(s, v));
    assert SoldBySale(sales[id := s], v) == SoldBySale(sales, v)[id := SoldUnits(s, v)];
  }

  // --------------------------------------------------------------- codes

  /** One use taken from a code that exists. */
  function UseCode(codes: map<Code, CodeRow>, code: Option<Code>): map<Code, CodeRow> {
    if code.Some? && code.value in codes
    then codes[code.value := codes[code.value].(usedCount := codes[code.value].usedCount + 1)]
    else codes
  }

  /** One use given back, never below zero. */
  function UnuseCode(codes: map<Code, CodeRow>, code: Option<Code>): map<Code, CodeRow> {
    if code.Some? && code.value in codes && codes[code.value].usedCount > 0
    then codes[code.value := codes[code.value].(usedCount := codes[code.value].usedCount - 1)]
    else codes
  }

  function Carries(o: Order, c: Code): int {
    if Holds(o) && o.code == Some(c) then 1 else 0
  }

  /** The number of live, unreleased orders carrying a code. */
  ghost function Carriers(orders: map<OrderId, Order>, c: Code): int {
    Sum(CarriedBy(orders, c))
  }

  function CarriedBy(orders: map<OrderId, Order>, c: Code): map<OrderId, int> {
    map o | o in orders :: Carries(orders[o], c)
  }

  lemma CarriersChange(orders: map<OrderId, Order>, id: OrderId, o: Order, c: Code)
    ensures Carriers(orders[id := o], c) ==
            Carriers(orders, c) - (if id in orders then Carries(orders[id], c) else 0) + Carries(o, c)
    ensures Carriers(orders, c) >= (if id in orders then Carries(orders[id], c) else 0)
  {
    SumUpdate(CarriedBy(orders, c), id, Carries(o, c));
    SumNonNegative(CarriedBy(orders, c));
    assert CarriedBy(orders[id := o], c) == CarriedBy(orders, c)[id := Carries(o, c)];
  }

  // ------------------------------------------------------------- baskets

  /** The newest of the first `n` baskets that belongs to `u`, deleted or not. */
  function LatestBasket(baskets: seq<Basket>, u: UserId, activeOnly: bool, n: nat): (r: Option<BasketId>)
    requires n <= |baskets|
    ensures r.Some? ==> r.value < n && baskets[r.value].owner == u && (activeOnly ==> !baskets[r.value].isDeleted)
    ensures forall b :: (if r.Some? then r.value < b < n else 0 <= b < n) ==>
                          baskets[b].owner != u || (activeOnly && baskets[b].isDeleted)
  {
    if n == 0 then None
    else if baskets[n - 1].owner == u && !(activeOnly && baskets[n - 1].isDeleted) then Some(n - 1)
    else LatestBasket(baskets, u, activeOnly, n - 1)
  }

  // ------------------------------------------------------------ database

  /** The tables as mutable state, with the guarded writes the services are built from. */
  class Database {
    var stock: map<VariantId, int>
    var catalog: map<VariantId, Product>
    var baskets: seq<Basket>
    var rows: map<(BasketId, VariantId), BasketRow>
    var orders: map<OrderId, Order>
    var attempts: map<OrderId, Attempt>
    var codes: map<Code, CodeRow>
    var sales: map<SaleId, Sale>
    var eventPayments: map<EventPaymentId, EventPayment>

    constructor (t: Tables)
      ensures Snapshot() == t
    {
      stock, catalog, baskets, rows, orders := t.stock, t.catalog, t.baskets, t.rows, t.orders;
      attempts, codes, sales, eventPayments := t.attempts, t.codes, t.sales, t.eventPayments;
    }

    function Snapshot(): Tables
      reads this
    {
      Tables(stock, catalog, baskets, rows, orders, attempts, codes, sales, eventPayments)
    }

    /** What a transaction that throws leaves behind: the tables it started from. */
    method RollBack(t: Tables)
      modifies this
      ensures Snapshot() == t
    {
      stock, catalog, baskets, rows, orders := t.stock, t.catalog, t.baskets, t.rows, t.orders;
      attempts, codes, sales, eventPayments := t.attempts, t.codes, t.sales, t.eventPayments;
    }

    /** `stock: { increment }` on a variant, matching no row when it does not exist. */
    method ReturnUnits(v: VariantId, quantity: nat)
      modifies this`stock
      ensures stock == if v in old(stock) then old(stock)[v := old(stock)[v] + quantity] else old(stock)
    {
      if v in stock {
        stock := stock[v := stock[v] + quantity];
      }
    }

    /** `stock: { decrement }` guarded by `stock >= quantity`; tells whether a row matched. */
    method TakeUnits(v: VariantId, quantity: nat) returns (matched: bool)
      modifies this`stock
      ensures matched == (v in old(stock) && old(stock)[v] >= quantity)
      ensures stock == if matched then old(stock)[v := old(stock)[v] - quantity] else old(stock)
    {
      matched := v in stock && stock[v] >= quantity;
      if matched {
        stock := stock[v := stock[v] - quantity];
      }
    }
  }

  /**
   The per-variant totals of a list of lines, with the variants in the order they first appear:
   the `Map` the services fill before they touch stock.
   */
  method TotalByVariant(lines: seq<Line>) returns (variants: seq<VariantId>, totals: map<VariantId, nat>)
    ensures forall i, j :: 0 <= i < j < |variants| ==> variants[i] != variants[j]
    ensures forall v :: v in variants <==> Mentions(lines, v)
    ensures forall v :: v in totals <==> v in variants
    ensures forall v :: v in totals ==> totals[v] == Units(lines, v)
  {
    variants, totals := [], map[];
    for i := 0 to |lines|
      invariant forall i, j :: 0 <= i < j < |variants| ==> variants[i] != variants[j]
      invariant forall v :: v in variants <==> Mentions(lines[..i], v)
      invariant forall v :: v in totals <==> v in variants
      invariant forall v :: v in totals ==> totals[v] == Units(lines[..i], v)
    {
      var line := lines[i];
      ghost var seen, seen' := lines[..i], lines[..i + 1];
      assert seen' == seen + [line];
      forall v ensures Units(seen', v) == Units(seen, v) + if v == line.variant then line.quantity else 0 {
        UnitsConcat(seen, [line], v);
      }
      forall v ensures Mentions(seen', v) <==> Mentions(seen, v) || v == line.variant {
        if Mentions(seen, v) {
          var k :| 0 <= k < |seen| && seen[k].variant == v;
          assert seen'[k].variant == v;
        }
        if v == line.variant { assert seen'[i].variant == v; }
      }
      if line.variant !in totals {
        UnmentionedIsZero(seen, line.variant);
        variants := variants + [line.variant];
      }
      totals := totals[line.variant := (if line.variant in totals then totals[line.variant] else 0) + line.quantity];
    }
    assert lines[..|lines|] == lines;
  }
}
