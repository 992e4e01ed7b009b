/**
 The amounts of an order. The part paid from the customer's wallet is never stored: the admin service,
 the order page and the Snapp Pay payload each derive it again from the stored amounts.
 */
module OrderMoney {
  import opened Wrappers
  import opened ShopTables

  function Max(a: int, b: int): int { if a >= b then a else b }

  function Min(a: int, b: int): int { if a <= b then a else b }

  /** `Math.round(n / d)`: halves go up. */
  function RoundDiv(n: int, d: nat): (r: int)
    requires d > 0
    ensures 2 * d * r <= 2 * n + d < 2 * d * (r + 1)
  {
    (2 * n + d) / (2 * d)
  }

  /** The gross price of the items that are not deleted. */
  function Subtotal(items: seq<OrderItem>): (r: int)
    ensures r >= 0
  {
    if items == [] then 0
    else (if items[0].isDeleted then 0 else items[0].Unit() * items[0].quantity) + Subtotal(items[1..])
  }

  /** What checkout adds to a subtotal and takes off it. */
  datatype Quote = Quote(discount: int, shipping: int, packaging: int, wallet: int)

  function Remaining(total: int, discount: int, shipping: int, packaging: int): int {
    total - discount + shipping + packaging
  }

  predicate ValidQuote(subtotal: int, q: Quote) {
    && 0 <= q.discount <= subtotal
    && 0 <= q.shipping && 0 <= q.packaging
    && 0 <= q.wallet <= Remaining(subtotal, q.discount, q.shipping, q.packaging)
  }

  // ------------------------------------------------- the derived wallet share

  datatype Money = Money(total: int, discount: int, shipping: int, packaging: int, walletApplied: int, payable: int)

  /** `OrderAdminService.snapshot`. */
  function MoneySnapshot(o: Order): Money {
    Money(o.total, o.discount, o.shipping, o.packaging,
          Max(0, Remaining(o.total, o.discount, o.shipping, o.packaging) - o.payable), o.payable)
  }

  /** `walletApplied` of `OrderController.computeFinancials`. */
  function FinancialsWallet(o: Order): int {
    Max(0, o.total - o.discount + o.shipping + o.packaging - o.payable)
  }

  /** The stored amounts agree with the items, and leave a non-negative wallet share and payable. */
  predicate Consistent(o: Order) {
    && o.total == Subtotal(o.items)
    && 0 <= o.payable <= Remaining(o.total, o.discount, o.shipping, o.packaging)
    && 0 <= o.shipping && 0 <= o.packaging && 0 <= o.discount
  }

  datatype Overrides = Overrides(discount: Option<nat>, shipping: Option<nat>, packaging: Option<nat>)

  const NO_OVERRIDES := Overrides(None, None, None)

  /** The amounts `recalc` writes for the items the order now has. */
  function Recalculated(o: Order, ov: Overrides): (r: Result<Money>) {
    var before := MoneySnapshot(o);
    var total := Subtotal(o.items);
    if ov.discount.Some? && ov.discount.value > total then Throws
    else
      var shipping: int := if ov.shipping.Some? then ov.shipping.value else before.shipping;
      var packaging: int := if ov.packaging.Some? then ov.packaging.value else before.packaging;
      var wanted: int := if ov.discount.Some? then ov.discount.value else before.discount;
      var discount := Min(wanted, total);
      var remaining := Remaining(total, discount, shipping, packaging);
      var wallet := Min(before.walletApplied, Max(0, remaining));
      Returns(Money(total, discount, shipping, packaging, wallet, remaining - wallet))
  }

  function WithMoney(o: Order, m: Money): Order {
    o.(total := m.total, discount := m.discount, shipping := m.shipping, packaging := m.packaging, payable := m.payable)
  }

  /** A price an admin sets is the price the order gets; one that is not set stays, and no discount exceeds the items. */
  lemma OverridesAreWritten(o: Order, ov: Overrides)
    ensures Recalculated(o, ov).Throws? <==> ov.discount.Some? && ov.discount.value > Subtotal(o.items)
    ensures Recalculated(o, ov).Returns? ==>
              var m := Recalculated(o, ov).value;
              m.total == Subtotal(o.items) &&
              (if ov.shipping.Some? then m.shipping == ov.shipping.value else m.shipping == o.shipping) &&
              (if ov.packaging.Some? then m.packaging == ov.packaging.value else m.packaging == o.packaging) &&
              (if ov.discount.Some? then m.discount == ov.discount.value
               else if o.discount <= m.total then m.discount == o.discount else m.discount == m.total)
  {
  }

  datatype Impact = Impact(previous: Money, current: Money, gatewayRefundDue: int, walletRefundDue: int)

  function ImpactOf(previous: Money, current: Money, paid: bool): Impact {
    Impact(previous, current,
           if paid then Max(0, previous.payable - current.payable) else 0,
           if paid then Max(0, previous.walletApplied - current.walletApplied) else 0)
  }

  /**
   Re-pricing an order keeps it consistent, and what leaves the hidden wallet share is exactly the
   wallet refund reported for it. `o` carries the new items and still the old amounts.
   */
  lemma RecalculationReportsWalletRefund(o: Order, ov: Overrides)
    requires 0 <= o.payable && 0 <= o.shipping && 0 <= o.packaging && 0 <= o.discount
    requires Recalculated(o, ov).Returns?
    ensures var m := Recalculated(o, ov).value;
            var after := WithMoney(o, m);
            Consistent(after) && MoneySnapshot(after) == m &&
            FinancialsWallet(after) == m.walletApplied ==
            FinancialsWallet(o) - ImpactOf(MoneySnapshot(o), m, true).walletRefundDue
  {
  }

  /** What the customer pays in all, at the gateway and from the wallet. */
  function Worth(m: Money): int { m.payable + m.walletApplied }

  /**
   An edited order that became cheaper is refunded by exactly what it became cheaper, the gateway's part first: the wallet
   only gets something back once nothing is left to pay at the gateway. One that did not become cheaper is not refunded.
   */
  predicate RefundedGatewayFirst(i: Impact) {
    if Worth(i.current) < Worth(i.previous)
    then i.gatewayRefundDue + i.walletRefundDue == Worth(i.previous) - Worth(i.current) &&
         (i.walletRefundDue > 0 ==> i.current.payable == 0) && 0 <= i.walletRefundDue && 0 <= i.gatewayRefundDue
    else i.gatewayRefundDue == 0 && i.walletRefundDue == 0
  }

  lemma RefundsAddUp(o: Order, ov: Overrides)
    requires 0 <= o.payable && 0 <= o.shipping && 0 <= o.packaging && 0 <= o.discount
    requires Recalculated(o, ov).Returns?
    ensures RefundedGatewayFirst(ImpactOf(MoneySnapshot(o), Recalculated(o, ov).value, true))
  {
  }

  // ----------------------------------------------------- Snapp Pay payload

  /** A toman amount, given in cents, as whole rials: `Math.round(toman * 10)`. */
  function Rial(cents: int): (r: int)
    ensures 10 * r - 5 <= cents < 10 * r + 5
    ensures cents % 10 == 0 ==> 10 * r == cents
  {
    RoundDiv(cents, 10)
  }

  datatype Payload = Payload(amount: int, discountAmount: int, externalSourceAmount: int, shippingAmount: int, cartTotal: int)

  /** Count times unit price over the live items, in rials. */
  function ItemsRial(items: seq<OrderItem>): int {
    if items == [] then 0
    else (if items[0].isDeleted then 0 else items[0].quantity * Rial(items[0].Unit())) + ItemsRial(items[1..])
  }

  /** `SnappPayService.buildOrderPayload`. */
  function BuildOrderPayload(o: Order): (r: Result<Payload>) {
    PayloadFor(o.items, o.discount, o.shipping, o.packaging, o.payable)
  }

  function PayloadFor(items: seq<OrderItem>, discount: int, shipping: int, packaging: int, payable: int): (r: Result<Payload>) {
    var shippingAmount := Rial(shipping + packaging);
    var cartTotal := ItemsRial(items) + shippingAmount;
    var discountAmount := Rial(discount);
    var external := Max(0, cartTotal - discountAmount - Rial(payable));
    var amount := cartTotal - discountAmount - external;
    if amount <= 0 then Throws
    else Returns(Payload(amount, discountAmount, external, shippingAmount, cartTotal))
  }

  /** Every unit price is a whole number of rials. */
  predicate WholeRialItems(items: seq<OrderItem>) {
    forall i :: 0 <= i < |items| ==> items[i].Unit() % 10 == 0
  }

  predicate WholeRial(o: Order) {
    WholeRialItems(o.items) && o.shipping % 10 == 0 && o.packaging % 10 == 0 && o.discount % 10 == 0 && o.payable % 10 == 0
  }

  /**
   The parts of a payload add up, the amount never exceeds what the order says is payable, and a payload
   is refused exactly when that leaves nothing to pay.
   */
  lemma PayloadBalances(o: Order)
    ensures BuildOrderPayload(o).Returns? ==>
              var p := BuildOrderPayload(o).value;
              p.amount + p.discountAmount + p.externalSourceAmount == p.cartTotal &&
              0 < p.amount <= Rial(o.payable) && p.externalSourceAmount >= 0 &&
              (p.externalSourceAmount > 0 ==> p.amount == Rial(o.payable))
    ensures BuildOrderPayload(o).Throws? <==>
              Rial(o.payable) <= 0 || ItemsRial(o.items) + Rial(o.shipping + o.packaging) <= Rial(o.discount)
  {
  }

  lemma {:induction false} WholeRialSubtotal(items: seq<OrderItem>)
    requires WholeRialItems(items)
    ensures 10 * ItemsRial(items) == Subtotal(items)
  {
    if items != [] {
      assert WholeRialItems(items[1..]);
      WholeRialSubtotal(items[1..]);
      var u := items[0].Unit();
      assert 10 * Rial(u) == u;
      assert 10 * (items[0].quantity * Rial(u)) == items[0].quantity * (10 * Rial(u));
    }
  }

  /** Nothing of a whole-rial order is lost when its parts are turned into rials. */
  lemma WholeRialGross(o: Order)
    requires Consistent(o) && WholeRial(o)
    ensures 10 * Rial(o.payable) == o.payable
    ensures 10 * (ItemsRial(o.items) + Rial(o.shipping + o.packaging) - Rial(o.discount) - Rial(o.payable)) ==
            Remaining(o.total, o.discount, o.shipping, o.packaging) - o.payable
  {
    WholeRialSubtotal(o.items);
    assert 10 * Rial(o.payable) == o.payable && 10 * Rial(o.discount) == o.discount;
    assert 10 * Rial(o.shipping + o.packaging) == o.shipping + o.packaging;
  }

  /**
   For whole-rial orders that satisfy the checkout identity, Snapp Pay is asked for exactly the payable
   amount and is told exactly the hidden wallet share.
   */
  lemma PayloadRevealsWalletShare(o: Order)
    requires Consistent(o) && WholeRial(o) && o.payable > 0
    ensures BuildOrderPayload(o).Returns?
    ensures 10 * BuildOrderPayload(o).value.amount == o.payable
    ensures 10 * BuildOrderPayload(o).value.externalSourceAmount == MoneySnapshot(o).walletApplied == FinancialsWallet(o)
  {
    WholeRialGross(o);
    PayloadBalances(o);
  }

  // --------------------------------------------------- Snapp Pay reduction

  /** Items after the quantities in `changes` (by position) are written; a zero also deletes the item. */
  function ApplyChanges(items: seq<OrderItem>, changes: map<nat, nat>): (r: seq<OrderItem>)
    ensures |r| == |items|
  {
    seq(|items|, i requires 0 <= i < |items| =>
      if i in changes then items[i].(quantity := changes[i], isDeleted := items[i].isDeleted || changes[i] == 0) else items[i])
  }

  /** The quantities asked for that differ from the ones the order had when it was read. */
  function ChangesOf(items: seq<OrderItem>, newQuantities: map<nat, nat>): map<nat, nat> {
    map i | i in newQuantities && i < |items| && newQuantities[i] != items[i].quantity :: newQuantities[i]
  }

  datatype Plan = Plan(changes: map<nat, nat>, newSubtotal: int, newPayable: int)

  predicate KnownReductions(items: seq<OrderItem>, newQuantities: map<nat, nat>) {
    forall i :: i in newQuantities ==> i < |items| && !items[i].isDeleted && newQuantities[i] <= items[i].quantity
  }

  predicate AnyLeft(items: seq<OrderItem>) {
    exists i :: 0 <= i < |items| && !items[i].isDeleted && items[i].quantity > 0
  }

  /** What `SnappPayController.update` decides before it calls the gateway. */
  function PlanReduction(o: Order, newQuantities: map<nat, nat>): (r: Result<Plan>) {
    var changes := ChangesOf(o.items, newQuantities);
    var next := ApplyChanges(o.items, changes);
    var newSubtotal := Subtotal(next);
    var reduction := Subtotal(o.items) - newSubtotal;
    var newPayable := o.payable - reduction;
    if !KnownReductions(o.items, newQuantities) || !AnyLeft(next) || reduction <= 0 || newPayable <= 0 then Throws
    else if PayloadFor(next, o.discount, o.shipping, o.packaging, newPayable).Throws? then Throws
    else Returns(Plan(changes, newSubtotal, newPayable))
  }

  /** The order once a plan is written over whatever it is by then. */
  function CommitPlan(o: Order, p: Plan): Order {
    o.(items := ApplyChanges(o.items, p.changes), total := p.newSubtotal, payable := p.newPayable)
  }

  /**
   A reduction written over the order it was planned for keeps the total equal to the items, keeps the
   wallet share, keeps an item to deliver, and lowers the payable amount by the value removed.
   */
  lemma ReductionKeepsWalletShare(o: Order, newQuantities: map<nat, nat>)
    requires Consistent(o) && PlanReduction(o, newQuantities).Returns?
    ensures var after := CommitPlan(o, PlanReduction(o, newQuantities).value);
            Consistent(after) && after.total < o.total && AnyLeft(after.items) && 0 < after.payable &&
            o.payable - after.payable == o.total - after.total &&
            MoneySnapshot(after).walletApplied == FinancialsWallet(after) == MoneySnapshot(o).walletApplied
  {
  }

  lemma DifferSomewhere(a: seq<OrderItem>, b: seq<OrderItem>)
    requires |a| == |b| && Subtotal(a) != Subtotal(b)
    ensures exists i :: 0 <= i < |a| && a[i] != b[i]
  {
    assert a != b;
  }

  /**
   An accepted plan only takes away from live items: none gets more units, a new price or comes back, and some gets fewer
   units. What it leaves can be sent to Snapp Pay.
   */
  lemma ReductionOnlyReduces(o: Order, newQuantities: map<nat, nat>)
    requires PlanReduction(o, newQuantities).Returns?
    ensures var items := CommitPlan(o, PlanReduction(o, newQuantities).value).items;
            |items| == |o.items| &&
            (forall i :: 0 <= i < |items| ==>
               items[i].variant == o.items[i].variant && items[i].Unit() == o.items[i].Unit() &&
               items[i].quantity == (if i in newQuantities then newQuantities[i] else o.items[i].quantity) <= o.items[i].quantity &&
               items[i].isDeleted == (o.items[i].isDeleted || (i in newQuantities && newQuantities[i] == 0 < o.items[i].quantity))) &&
            (forall i :: i in newQuantities ==> i < |items| && !o.items[i].isDeleted) &&
            (exists i :: 0 <= i < |items| && items[i].quantity < o.items[i].quantity) &&
            BuildOrderPayload(CommitPlan(o, PlanReduction(o, newQuantities).value)).Returns?
  {
    var p := PlanReduction(o, newQuantities).value;
    var items := CommitPlan(o, p).items;
    DifferSomewhere(items, o.items);
  }

  // ------------------------------------------- reductions written too late

  /** The value of the live items a plan leaves alone. */
  function LeftAloneValue(items: seq<OrderItem>, changes: map<nat, nat>, from: nat): (r: int)
    requires from <= |items|
    decreases |items| - from
  {
    if from == |items| then 0
    else (if from in changes || items[from].isDeleted then 0 else items[from].Unit() * items[from].quantity) +
         LeftAloneValue(items, changes, from + 1)
  }

  /** The value of the live items a plan changes, at the quantities it gives them. */
  function PlannedValue(items: seq<OrderItem>, changes: map<nat, nat>, from: nat): (r: int)
    requires from <= |items|
    decreases |items| - from
  {
    if from == |items| then 0
    else (if from !in changes || items[from].isDeleted then 0 else items[from].Unit() * changes[from]) +
         PlannedValue(items, changes, from + 1)
  }

  lemma {:induction false} ChangedSubtotal(items: seq<OrderItem>, changes: map<nat, nat>, from: nat)
    requires from <= |items|
    ensures Subtotal(ApplyChanges(items, changes)[from..]) ==
            LeftAloneValue(items, changes, from) + PlannedValue(items, changes, from)
    decreases |items| - from
  {
    var next := ApplyChanges(items, changes);
    if from < |items| {
      ChangedSubtotal(items, changes, from + 1);
      assert next[from..][0] == next[from] && next[from..][1..] == next[from + 1..];
    }
  }

  /** Some live item the plan leaves alone has units, or some live item it changes keeps units. */
  predicate KeepsAnItem(items: seq<OrderItem>, changes: map<nat, nat>) {
    exists i :: 0 <= i < |items| && !items[i].isDeleted &&
                (if i in changes then changes[i] > 0 else items[i].quantity > 0)
  }

  /**
   The plan is read outside the transaction that writes it. Written over whatever the order is by then, the total
   it writes is the total of the items exactly when the items it leaves alone and the items it changes are, at
   today's prices, together worth the subtotal it was planned with.
   */
  lemma LateTotalMatchesIff(now: Order, p: Plan)
    ensures CommitPlan(now, p).total == Subtotal(CommitPlan(now, p).items) <==>
            p.newSubtotal == LeftAloneValue(now.items, p.changes, 0) + PlannedValue(now.items, p.changes, 0)
  {
    ChangedSubtotal(now.items, p.changes, 0);
    assert ApplyChanges(now.items, p.changes)[0..] == ApplyChanges(now.items, p.changes);
  }

  /** And it leaves an item to deliver exactly when one of today's live items survives it. */
  lemma LateItemLeftIff(now: Order, p: Plan)
    ensures AnyLeft(CommitPlan(now, p).items) <==> KeepsAnItem(now.items, p.changes)
  {
    var next := ApplyChanges(now.items, p.changes);
    if KeepsAnItem(now.items, p.changes) {
      var i :| 0 <= i < |now.items| && !now.items[i].isDeleted &&
               (if i in p.changes then p.changes[i] > 0 else now.items[i].quantity > 0);
      assert !next[i].isDeleted && next[i].quantity > 0;
    }
    if AnyLeft(next) {
      var i :| 0 <= i < |next| && !next[i].isDeleted && next[i].quantity > 0;
      assert !now.items[i].isDeleted;
    }
  }

  /** The wallet share a plan leaves behind, by the order it was read from and the order it is written over. */
  function LateShare(read: Order, now: Order): int {
    Max(0, Subtotal(read.items) - read.payable - now.discount + now.shipping + now.packaging)
  }

  /**
   It leaves exactly this wallet share, and so keeps the share exactly when the gap between subtotal and payable is
   still the one it was planned on, or both shares are clamped at zero.
   */
  lemma StalePlanKeepsShareIff(read: Order, now: Order, newQuantities: map<nat, nat>)
    requires PlanReduction(read, newQuantities).Returns?
    ensures var after := CommitPlan(now, PlanReduction(read, newQuantities).value);
            FinancialsWallet(after) == LateShare(read, now) &&
            (FinancialsWallet(after) == FinancialsWallet(now) <==>
             Subtotal(read.items) - read.payable == now.total - now.payable ||
             (FinancialsWallet(now) == 0 &&
              Subtotal(read.items) - read.payable <= now.discount - now.shipping - now.packaging))
  {
  }

  /**
   An admin raises the shipping price between the read and the write: the edit keeps the wallet share, and the
   late write makes it grow by exactly what was added to shipping.
   */
  lemma StalePlanLosesShare(read: Order, newQuantities: map<nat, nat>, added: nat)
    requires Consistent(read) && read.discount <= read.total && PlanReduction(read, newQuantities).Returns?
    ensures var edited := Recalculated(read, Overrides(None, Some(read.shipping + added), None));
            edited.Returns? &&
            var now := WithMoney(read, edited.value);
            FinancialsWallet(now) == FinancialsWallet(read) &&
            FinancialsWallet(CommitPlan(now, PlanReduction(read, newQuantities).value)) == FinancialsWallet(read) + added
  {
  }

  /** A paid order of one unit each of two variants, without discount or wallet. */
  function TwoItemOrder(p: nat, q: nat): Order {
    Order(0, None, [OrderItem(0, 1, p, None, false), OrderItem(1, 1, q, None, false)],
          p + q, 0, 0, 0, p + q, Paid, OrderPaid, 0, false)
  }

  lemma TwoItems(a: OrderItem, b: OrderItem)
    ensures Subtotal([a, b]) ==
            (if a.isDeleted then 0 else a.Unit() * a.quantity) + (if b.isDeleted then 0 else b.Unit() * b.quantity)
    ensures ItemsRial([a, b]) ==
            (if a.isDeleted then 0 else a.quantity * Rial(a.Unit())) + (if b.isDeleted then 0 else b.quantity * Rial(b.Unit()))
  {
    assert [a, b][1..] == [b] && [b][1..] == [];
    assert Subtotal([b]) == if b.isDeleted then 0 else b.Unit() * b.quantity;
    assert ItemsRial([b]) == if b.isDeleted then 0 else b.quantity * Rial(b.Unit());
  }

  /** Taking out the first of two items is an acceptable plan. */
  lemma TakingOutTheFirst(p: nat, q: nat)
    requires p > 0 && q >= 5
    ensures Consistent(TwoItemOrder(p, q))
    ensures PlanReduction(TwoItemOrder(p, q), map[0 := 0]) == Returns(Plan(map[0 := 0], q, q))
  {
    var read := TwoItemOrder(p, q);
    var changes := ChangesOf(read.items, map[0 := 0]);
    assert changes == map[0 := 0];
    var gone := read.items[0].(quantity := 0, isDeleted := true);
    var next := ApplyChanges(read.items, changes);
    assert next == [gone, read.items[1]] && read.items == [read.items[0], read.items[1]];
    TwoItems(read.items[0], read.items[1]);
    TwoItems(gone, read.items[1]);
    assert next[1].quantity > 0;
  }

  /**
   An admin deletes the other item between the read and the write: nothing is left to deliver, the total is not
   that of the items, and the wallet share does not tell.
   */
  lemma StalePlanLeavesNothing(p: nat, q: nat)
    requires p > 0 && q >= 5
    ensures var read := TwoItemOrder(p, q);
            var left := read.items[1 := read.items[1].(isDeleted := true)];
            var now := read.(items := left, total := p, payable := p);
            var plan := PlanReduction(read, map[0 := 0]);
            Consistent(read) && plan.Returns? && Consistent(now) &&
            Recalculated(read.(items := left), NO_OVERRIDES) == Returns(MoneySnapshot(now)) &&
            var after := CommitPlan(now, plan.value);
            !AnyLeft(after.items) && after.total == q && Subtotal(after.items) == 0 &&
            FinancialsWallet(after) == FinancialsWallet(now) == 0
  {
    TakingOutTheFirst(p, q);
    var read := TwoItemOrder(p, q);
    var gone, dropped := read.items[0].(quantity := 0, isDeleted := true), read.items[1].(isDeleted := true);
    TwoItems(read.items[0], dropped);
    TwoItems(gone, dropped);
    var now := read.(items := read.items[1 := dropped], total := p, payable := p);
    assert now.items == [read.items[0], dropped];
    assert CommitPlan(now, Plan(map[0 := 0], q, q)).items == [gone, dropped];
  }
}
