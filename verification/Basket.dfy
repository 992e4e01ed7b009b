/** The basket: adding, changing and removing rows, and the move from basket to order (basket.controller.ts). */
module Basket {
  import opened Wrappers
  import opened Sums
  import opened ShopTables
  import opened OrderReservation
  import opened OrderMoney

  function Deadline(now: Time): Time { now + RESERVATION_TTL_MS }

  // --------------------------------------------------------- row writers

  /**
   The transaction of `upsertItem`. A soft-deleted row is revived with its old quantity still in it, so
   the new quantity is added to a stale one.
   */
  function Upserted(t: Tables, now: Time, b: BasketId, v: VariantId, quantity: int): (r: Result<Tables>)
    ensures r.Returns? ==> SameOrders(t, r.value) && SameSales(t, r.value)
  {
    if quantity < 1 || v !in t.stock || t.stock[v] < quantity then Throws
    else
      var before: nat := if (b, v) in t.rows then t.rows[(b, v)].quantity else 0;
      Returns(t.(stock := t.stock[v := t.stock[v] - quantity],
                 rows := t.rows[(b, v) := BasketRow(before + quantity, Some(Deadline(now)), false)]))
  }

  /** What a revived row brings back without taking it from stock. */
  function StaleQuantity(t: Tables, b: BasketId, v: VariantId): nat {
    if (b, v) in t.rows && t.rows[(b, v)].isDeleted then t.rows[(b, v)].quantity else 0
  }

  predicate LiveRow(t: Tables, b: BasketId, v: VariantId) {
    (b, v) in t.rows && !t.rows[(b, v)].isDeleted
  }

  /** The transaction of `updateItem`: the difference moves between stock and the row. */
  function Updated(t: Tables, now: Time, b: BasketId, v: VariantId, quantity: nat): (r: Result<Tables>)
    ensures r.Returns? ==> SameOrders(t, r.value) && SameSales(t, r.value)
  {
    if !LiveRow(t, b, v) then Throws
    else
      var delta := quantity - t.rows[(b, v)].quantity;
      if delta > 0 && (v !in t.stock || t.stock[v] < delta) then Throws
      else
        Returns(t.(stock := if v in t.stock then t.stock[v := t.stock[v] - delta] else t.stock,
                   rows := t.rows[(b, v) := BasketRow(quantity, Some(Deadline(now)), false)]))
  }

  /** The transaction of `removeItem`; a missing row is left alone. */
  function Removed(t: Tables, b: BasketId, v: VariantId): (r: Tables)
    ensures SameOrders(t, r) && SameSales(t, r)
  {
    if !LiveRow(t, b, v) then t
    else t.(stock := AddLines(t.stock, [Line(v, t.rows[(b, v)].quantity)]),
            rows := t.rows[(b, v) := t.rows[(b, v)].(isDeleted := true)])
  }

  /** The basket a user's items go to, created when none is active. */
  function WithActiveBasket(t: Tables, u: UserId): (r: (Tables, BasketId))
    ensures SameOrders(t, r.0) && SameSales(t, r.0) && r.0.stock == t.stock && r.0.rows == t.rows
  {
    var active := LatestBasket(t.baskets, u, true, |t.baskets|);
    if active.Some? then (t, active.value)
    else (t.(baskets := t.baskets + [Basket.Basket(u, false)]), |t.baskets|)
  }

  /** The newest basket the customer ever had, deleted or not. */
  predicate NewestBasket(baskets: seq<Basket>, u: UserId, b: BasketId) {
    b < |baskets| && baskets[b].owner == u && forall k :: b < k < |baskets| ==> baskets[k].owner != u
  }

  /** The basket the customer sees: the newest of theirs that is not deleted. */
  predicate SeenBasket(baskets: seq<Basket>, u: UserId, b: BasketId) {
    && b < |baskets| && baskets[b].owner == u && !baskets[b].isDeleted
    && forall k :: b < k < |baskets| ==> baskets[k].owner != u || baskets[k].isDeleted
  }

  lemma SeenIsActive(baskets: seq<Basket>, u: UserId, b: BasketId)
    ensures SeenBasket(baskets, u, b) <==> LatestBasket(baskets, u, true, |baskets|) == Some(b)
  {
  }

  /** The active basket is the one the customer sees; when there is none, a new one will be. */
  lemma ActiveOrNew(baskets: seq<Basket>, u: UserId)
    ensures var active := LatestBasket(baskets, u, true, |baskets|);
            if active.Some? then SeenBasket(baskets, u, active.value)
            else SeenBasket(baskets + [Basket.Basket(u, false)], u, |baskets|) && forall k :: !SeenBasket(baskets, u, k)
  {
  }

  /** A live row with so many units, held for ten minutes from `now`. */
  predicate HeldTenMinutes(t: Tables, now: Time, b: BasketId, v: VariantId, quantity: int) {
    (b, v) in t.rows && t.rows[(b, v)].quantity == quantity && !t.rows[(b, v)].isDeleted &&
    t.rows[(b, v)].reservedUntil == Some(now + 600_000)
  }

  function RowBefore(t: Tables, b: BasketId, v: VariantId): nat {
    if (b, v) in t.rows then t.rows[(b, v)].quantity else 0
  }

  /** The units are in the basket the customer sees: the one they saw before, or a new one if they saw none. */
  ghost predicate IsInBasket(t: Tables, t': Tables, now: Time, u: UserId, v: VariantId, quantity: int) {
    exists b: BasketId :: SeenBasket(t'.baskets, u, b) && HeldTenMinutes(t', now, b, v, RowBefore(t, b, v) + quantity) &&
                          (SeenBasket(t.baskets, u, b) || (b == |t.baskets| && forall k :: !SeenBasket(t.baskets, u, k)))
  }

  predicate Sellable(t: Tables, v: VariantId) {
    v in t.catalog && t.catalog[v].isActive
  }

  lemma UpsertedIsInBasket(t: Tables, now: Time, u: UserId, v: VariantId, quantity: int)
    requires Upserted(WithActiveBasket(t, u).0, now, WithActiveBasket(t, u).1, v, quantity).Returns?
    ensures IsInBasket(t, Upserted(WithActiveBasket(t, u).0, now, WithActiveBasket(t, u).1, v, quantity).value, now, u, v, quantity)
  {
    var b := WithActiveBasket(t, u).1;
    var r := Upserted(WithActiveBasket(t, u).0, now, b, v, quantity).value;
    ActiveOrNew(t.baskets, u);
    assert SeenBasket(r.baskets, u, b) && HeldTenMinutes(r, now, b, v, RowBefore(t, b, v) + quantity);
  }

  /** `getOrCreateActiveBasket`. */
  method GetOrCreateActiveBasket(db: Database, user: UserId) returns (b: BasketId)
    modifies db`baskets
    ensures (db.Snapshot(), b) == WithActiveBasket(old(db.Snapshot()), user)
  {
    var active := LatestBasket(db.baskets, user, true, |db.baskets|);
    if active.Some? {
      b := active.value;
    } else {
      b := |db.baskets|;
      db.baskets := db.baskets + [Basket.Basket(user, false)];
    }
  }

  method UpsertItem(db: Database, now: Time, user: UserId, v: VariantId, quantity: int) returns (ok: bool)
    modifies db
    ensures var (t, b) := WithActiveBasket(old(db.Snapshot()), user);
            var r := if Sellable(t, v) then Upserted(t, now, b, v, quantity) else Throws;
            ok == r.Returns? && db.Snapshot() == if ok then r.value else t
    ensures ok <==> 1 <= quantity && v in db.catalog && db.catalog[v].isActive &&
                    v in old(db.stock) && quantity <= old(db.stock)[v]
    ensures ok ==> IsInBasket(old(db.Snapshot()), db.Snapshot(), now, user, v, quantity)
  {
    ghost var before := db.Snapshot();
    var b := GetOrCreateActiveBasket(db, user);
    if quantity < 1 || v !in db.catalog || !db.catalog[v].isActive {
      return false;
    }
    var reserved := db.TakeUnits(v, quantity);
    if !reserved {
      return false;
    }
    if (b, v) in db.rows {
      db.rows := db.rows[(b, v) := BasketRow(db.rows[(b, v)].quantity + quantity, Some(Deadline(now)), false)];
    } else {
      db.rows := db.rows[(b, v) := BasketRow(quantity, Some(Deadline(now)), false)];
    }
    UpsertedIsInBasket(before, now, user, v, quantity);
    ok := true;
  }

  method UpdateItem(db: Database, now: Time, user: UserId, v: VariantId, quantity: nat) returns (ok: bool)
    modifies db
    ensures var active := LatestBasket(old(db.baskets), user, true, |old(db.baskets)|);
            var r := if active.Some? then Updated(old(db.Snapshot()), now, active.value, v, quantity) else Throws;
            ok == r.Returns? && db.Snapshot() == if ok then r.value else old(db.Snapshot())
    ensures ok ==> exists b: BasketId :: SeenBasket(db.baskets, user, b) && HeldTenMinutes(db.Snapshot(), now, b, v, quantity)
    ensures forall b: BasketId :: SeenBasket(old(db.baskets), user, b) && LiveRow(old(db.Snapshot()), b, v) ==>
              (ok <==> quantity <= old(db.rows)[(b, v)].quantity ||
                       (v in old(db.stock) && quantity - old(db.rows)[(b, v)].quantity <= old(db.stock)[v]))
  {
    var active := LatestBasket(db.baskets, user, true, |db.baskets|);
    forall k: BasketId { SeenIsActive(db.baskets, user, k); }
    if active.None? {
      return false;
    }
    var b := active.value;
    if (b, v) !in db.rows || db.rows[(b, v)].isDeleted {
      return false;
    }
    var delta := quantity - db.rows[(b, v)].quantity;
    if delta > 0 {
      var reserved := db.TakeUnits(v, delta);
      if !reserved {
        return false;
      }
    } else if delta < 0 {
      db.ReturnUnits(v, -delta);
    }
    assert db.stock == if v in old(db.stock) then old(db.stock)[v := old(db.stock)[v] - delta] else old(db.stock);
    db.rows := db.rows[(b, v) := db.rows[(b, v)].(quantity := quantity, reservedUntil := Some(Deadline(now)))];
    ok := true;
  }

  method RemoveItem(db: Database, user: UserId, v: VariantId)
    modifies db
    ensures var active := LatestBasket(old(db.baskets), user, true, |old(db.baskets)|);
            db.Snapshot() == if active.Some? then Removed(old(db.Snapshot()), active.value, v) else old(db.Snapshot())
    ensures forall b: BasketId :: SeenBasket(db.baskets, user, b) ==> !LiveRow(db.Snapshot(), b, v)
    ensures forall key :: key in old(db.rows) && !(key.1 == v && SeenBasket(db.baskets, user, key.0)) ==>
                            key in db.rows && db.rows[key] == old(db.rows)[key]
  {
    var active := LatestBasket(db.baskets, user, true, |db.baskets|);
    forall k: BasketId { SeenIsActive(db.baskets, user, k); }
    if active.None? {
      return;
    }
    var b := active.value;
    if (b, v) !in db.rows || db.rows[(b, v)].isDeleted {
      return;
    }
    var quantity := db.rows[(b, v)].quantity;
    db.rows := db.rows[(b, v) := db.rows[(b, v)].(isDeleted := true)];
    db.ReturnUnits(v, quantity);
    forall u ensures Units([Line(v, quantity)], u) == if u == v then quantity else 0 {
      UnitsOfOne(Line(v, quantity), u);
    }
  }

  // -------------------------------------------------------------- restore

  /** Every variant of the lines as a live row of basket `b`, whatever that row held before. */
  function RestoredRows(
      rows: map<(BasketId, VariantId), BasketRow>, b: BasketId, lines: seq<Line>, deadline: Time)
    : map<(BasketId, VariantId), BasketRow>
  {
    map key | key in rows.Keys + (set i | 0 <= i < |lines| :: (b, lines[i].variant)) ::
      if key.0 == b && Mentions(lines, key.1) then BasketRow(Units(lines, key.1), Some(deadline), false) else rows[key]
  }

  /** `restoreBasketItems`: the user's newest basket, deleted or not, comes back with the given lines. */
  function Restored(t: Tables, now: Time, u: UserId, lines: seq<Line>): (r: Tables)
    ensures r.stock == t.stock && SameOrders(t, r) && SameSales(t, r)
  {
    var latest := LatestBasket(t.baskets, u, false, |t.baskets|);
    if latest.None? then t
    else
      var b := latest.value;
      t.(baskets := t.baskets[b := t.baskets[b].(isDeleted := false)],
         rows := RestoredRows(t.rows, b, lines, Deadline(now)))
  }

  /** Each variant of the lines is a live row with all of its units, held for ten minutes; every other row is as it was. */
  ghost predicate RowsAreBack(
      rows: map<(BasketId, VariantId), BasketRow>, rows': map<(BasketId, VariantId), BasketRow>, now: Time, b: BasketId,
      lines: seq<Line>)
  {
    forall key: (BasketId, VariantId) ::
      if key.0 == b && Mentions(lines, key.1)
      then key in rows' && rows'[key] == BasketRow(Units(lines, key.1), Some(now + 600_000), false)
      else (key in rows' <==> key in rows) && (key in rows ==> rows'[key] == rows[key])
  }

  /** The customer sees the newest of their baskets, with the lines in it; nobody else's basket is touched. */
  ghost predicate BasketIsBack(t: Tables, t': Tables, now: Time, u: UserId, lines: seq<Line>) {
    && (forall b :: NewestBasket(t.baskets, u, b) ==>
                      SeenBasket(t'.baskets, u, b) && RowsAreBack(t.rows, t'.rows, now, b, lines))
    && |t'.baskets| == |t.baskets|
    && (forall b :: 0 <= b < |t.baskets| && !NewestBasket(t.baskets, u, b) ==> t'.baskets[b] == t.baskets[b])
    && ((forall b :: 0 <= b < |t.baskets| ==> t.baskets[b].owner != u) ==> t'.rows == t.rows)
  }

  lemma RestoredRowsAreBack(rows: map<(BasketId, VariantId), BasketRow>, b: BasketId, lines: seq<Line>, now: Time)
    ensures RowsAreBack(rows, RestoredRows(rows, b, lines, Deadline(now)), now, b, lines)
  {
    var rows' := RestoredRows(rows, b, lines, Deadline(now));
    forall key: (BasketId, VariantId) | key.0 == b && Mentions(lines, key.1) ensures key in rows' {
      var i :| 0 <= i < |lines| && lines[i].variant == key.1;
      assert key == (b, lines[i].variant);
    }
  }

  lemma NewestIsLatest(baskets: seq<Basket>, u: UserId, b: BasketId)
    requires NewestBasket(baskets, u, b)
    ensures LatestBasket(baskets, u, false, |baskets|) == Some(b)
  {
  }

  /** A restore gives the customer a basket to look at, and in it exactly the units of the lines. */
  lemma RestoreBringsBack(t: Tables, now: Time, u: UserId, lines: seq<Line>)
    ensures BasketIsBack(t, Restored(t, now, u, lines), now, u, lines)
  {
    var latest := LatestBasket(t.baskets, u, false, |t.baskets|);
    forall b: BasketId | NewestBasket(t.baskets, u, b) ensures latest == Some(b) { NewestIsLatest(t.baskets, u, b); }
    if latest.Some? {
      assert NewestBasket(t.baskets, u, latest.value);
      RestoredRowsAreBack(t.rows, latest.value, lines, now);
    }
  }

  /** The upsert loop of a restore: one row a variant. */
  method RestoreRows(
      db: Database, b: BasketId, ghost lines: seq<Line>, variants: seq<VariantId>, totals: map<VariantId, nat>, deadline: Time)
    requires forall v :: v in variants <==> Mentions(lines, v)
    requires forall v :: v in variants ==> v in totals && totals[v] == Units(lines, v)
    modifies db`rows
    ensures db.rows == RestoredRows(old(db.rows), b, lines, deadline)
  {
    for i := 0 to |variants|
      invariant forall key :: key in db.rows <==> key in old(db.rows) || (key.0 == b && key.1 in variants[..i])
      invariant forall key :: key in db.rows ==>
                                db.rows[key] == if key.0 == b && key.1 in variants[..i]
                                                then BasketRow(Units(lines, key.1), Some(deadline), false)
                                                else old(db.rows)[key]
    {
      assert variants[..i + 1] == variants[..i] + [variants[i]];
      db.rows := db.rows[(b, variants[i]) := BasketRow(totals[variants[i]], Some(deadline), false)];
    }
    assert variants[..|variants|] == variants;
    var all := RestoredRows(old(db.rows), b, lines, deadline);
    forall key ensures key in db.rows <==> key in all {
      if key.0 == b && Mentions(lines, key.1) {
        var k :| 0 <= k < |lines| && lines[k].variant == key.1;
        assert key == (b, lines[k].variant);
      }
    }
  }

  method RestoreBasketItems(db: Database, now: Time, u: UserId, lines: seq<Line>)
    modifies db
    ensures db.Snapshot() == Restored(old(db.Snapshot()), now, u, lines)
    ensures BasketIsBack(old(db.Snapshot()), db.Snapshot(), now, u, lines)
  {
    RestoreBringsBack(db.Snapshot(), now, u, lines);
    var variants, totals := TotalByVariant(lines);
    var latest := LatestBasket(db.baskets, u, false, |db.baskets|);
    if latest.None? {
      return;
    }
    var b := latest.value;
    db.baskets := db.baskets[b := db.baskets[b].(isDeleted := false)];
    RestoreRows(db, b, lines, variants, totals, Deadline(now));
  }

  // ------------------------------------------------------------- checkout

  datatype CodeChoice =
    | NoCode
    | TableCode(code: Code)   // found in the discount-code table
    | OtherCode(code: Code)   // a loyalty or referral code, or the welcome label

  datatype CheckoutRequest = CheckoutRequest(
    user: UserId, provider: Provider, newId: OrderId, choice: CodeChoice, quote: Quote)

  /** An unpaid order of this user and provider whose attempt is older than the reservation window. */
  predicate IsStale(t: Tables, now: Time, req: CheckoutRequest, id: OrderId) {
    && id in t.attempts && id in t.orders
    && t.attempts[id].provider == req.provider && t.attempts[id].status == Initiated
    && t.attempts[id].createdAt < now - RESERVATION_TTL_MS
    && !t.orders[id].isDeleted && t.orders[id].owner == req.user
    && t.orders[id].paymentStatus == Pending && t.orders[id].orderStatus == PendingPayment
  }

  ghost predicate IsStaleAnswer(t: Tables, now: Time, req: CheckoutRequest, ids: seq<OrderId>) {
    forall id :: id in ids <==> IsStale(t, now, req, id)
  }

  /** The variants of the live rows of a basket, each once, in whatever order the query returns them. */
  ghost predicate IsRowsAnswer(t: Tables, b: BasketId, picked: seq<VariantId>) {
    && (forall i, j :: 0 <= i < j < |picked| ==> picked[i] != picked[j])
    && (forall v :: v in picked <==> LiveRow(t, b, v))
  }

  function ProductOf(t: Tables, v: VariantId): Product {
    if v in t.catalog then t.catalog[v] else Product(0, None, false)
  }

  /** The order items made from the picked rows, at today's prices. */
  function ItemsOf(t: Tables, b: BasketId, picked: seq<VariantId>): (r: seq<OrderItem>)
    ensures |r| == |picked|
  {
    if picked == [] then []
    else
      var p := ProductOf(t, picked[0]);
      [OrderItem(picked[0], RowUnits(t.rows, (b, picked[0])), p.finalPrice, p.discountPrice, false)]
      + ItemsOf(t, b, picked[1..])
  }

  /** What one unit costs today: the discount price if the product has one. */
  function PriceToday(t: Tables, v: VariantId): nat {
    if v !in t.catalog then 0
    else if t.catalog[v].discountPrice.Some? then t.catalog[v].discountPrice.value
    else t.catalog[v].finalPrice
  }

  /** What the live rows of a basket cost, row by row. */
  function RowValues(t: Tables, b: BasketId): map<(BasketId, VariantId), int> {
    map key | key in t.rows && key.0 == b && !t.rows[key].isDeleted :: t.rows[key].quantity * PriceToday(t, key.1)
  }

  /** And together, in whatever order they are read. */
  ghost function BasketValue(t: Tables, b: BasketId): int {
    Sum(RowValues(t, b))
  }

  function PickedValues(t: Tables, b: BasketId, picked: seq<VariantId>): map<(BasketId, VariantId), int> {
    map key | key in RowValues(t, b) && key.1 in picked :: RowValues(t, b)[key]
  }

  lemma PickedValuesStep(t: Tables, b: BasketId, picked: seq<VariantId>)
    requires picked != [] && picked[0] !in picked[1..] && LiveRow(t, b, picked[0])
    ensures var key := (b, picked[0]);
            key in PickedValues(t, b, picked) && PickedValues(t, b, picked) - {key} == PickedValues(t, b, picked[1..]) &&
            PickedValues(t, b, picked)[key] == t.rows[key].quantity * PriceToday(t, picked[0])
  {
    forall key ensures key in PickedValues(t, b, picked) - {(b, picked[0])} <==> key in PickedValues(t, b, picked[1..]) {
      assert key.1 in picked <==> key.1 == picked[0] || key.1 in picked[1..];
    }
  }

  lemma FirstItemIsWorth(t: Tables, b: BasketId, picked: seq<VariantId>)
    requires picked != [] && LiveRow(t, b, picked[0])
    ensures Subtotal(ItemsOf(t, b, picked)) ==
            t.rows[(b, picked[0])].quantity * PriceToday(t, picked[0]) + Subtotal(ItemsOf(t, b, picked[1..]))
  {
    var items := ItemsOf(t, b, picked);
    assert items[1..] == ItemsOf(t, b, picked[1..]);
    SubtotalFirst(items, PriceToday(t, picked[0]), t.rows[(b, picked[0])].quantity);
  }

  lemma SubtotalFirst(items: seq<OrderItem>, unit: nat, quantity: nat)
    requires items != [] && !items[0].isDeleted && items[0].Unit() == unit && items[0].quantity == quantity
    ensures Subtotal(items) == quantity * unit + Subtotal(items[1..])
  {
  }

  lemma {:induction false} PickedAreWorth(t: Tables, b: BasketId, picked: seq<VariantId>)
    requires forall i, j :: 0 <= i < j < |picked| ==> picked[i] != picked[j]
    requires forall v :: v in picked ==> LiveRow(t, b, v)
    ensures Subtotal(ItemsOf(t, b, picked)) == Sum(PickedValues(t, b, picked))
  {
    if picked == [] {
      assert PickedValues(t, b, picked) == map[];
    } else {
      PickedValuesStep(t, b, picked);
      PickedAreWorth(t, b, picked[1..]);
      FirstItemIsWorth(t, b, picked);
      SumRemove(PickedValues(t, b, picked), (b, picked[0]));
    }
  }

  /** The items of an order are worth what the basket they are made from is worth. */
  lemma ItemsAreWorthTheBasket(t: Tables, b: BasketId, picked: seq<VariantId>)
    requires IsRowsAnswer(t, b, picked)
    ensures Subtotal(ItemsOf(t, b, picked)) == BasketValue(t, b)
  {
    PickedAreWorth(t, b, picked);
    forall key | key in RowValues(t, b) ensures key.1 in picked {
      assert LiveRow(t, b, key.1);
    }
    assert PickedValues(t, b, picked) == RowValues(t, b);
  }

  /** The product is still sold and the row's hold has not run out. */
  predicate StillHeld(t: Tables, now: Time, b: BasketId, v: VariantId) {
    Sellable(t, v) && (b, v) in t.rows && t.rows[(b, v)].reservedUntil.Some? && now < t.rows[(b, v)].reservedUntil.value
  }

  predicate CodeAccepted(codes: map<Code, CodeRow>, choice: CodeChoice) {
    match choice
    case NoCode => true
    case TableCode(c) => c in codes && (codes[c].maxTotalUses.Some? ==> codes[c].usedCount < codes[c].maxTotalUses.value)
    case OtherCode(c) => c !in codes
  }

  function OrderCode(choice: CodeChoice): Option<Code> {
    if choice.NoCode? then None else Some(choice.code)
  }

  function DeletedRows(rows: map<(BasketId, VariantId), BasketRow>, b: BasketId): map<(BasketId, VariantId), BasketRow> {
    map key | key in rows :: if key.0 == b then rows[key].(isDeleted := true) else rows[key]
  }

  function NewOrder(req: CheckoutRequest, items: seq<OrderItem>, now: Time): Order {
    var subtotal := Subtotal(items);
    var q := req.quote;
    Order(req.user, OrderCode(req.choice), items, subtotal, q.discount, q.shipping, q.packaging,
          Remaining(subtotal, q.discount, q.shipping, q.packaging) - q.wallet,
          Pending, PendingPayment, now, false)
  }

  /**
   A new order that waits for its payment: it says what the quote says, and the gateway will be asked for exactly what
   is left to pay.
   */
  predicate AwaitsPayment(t: Tables, now: Time, req: CheckoutRequest, subtotal: int) {
    && req.newId in t.orders && req.newId in t.attempts
    && var (o, a, q) := (t.orders[req.newId], t.attempts[req.newId], req.quote);
       && o.owner == req.user && o.total == subtotal && o.discount == q.discount
       && o.shipping == q.shipping && o.packaging == q.packaging
       && a.amount == o.payable == subtotal - q.discount + q.shipping + q.packaging - q.wallet
       && (if req.choice.NoCode? then o.code.None? else o.code == Some(req.choice.code))
       && o.paymentStatus == Pending && o.orderStatus == PendingPayment && !o.isDeleted
       && a.provider == req.provider && a.status == Initiated && a.gatewayStatus.None? && !a.hasToken
       && a.reference == NoReference && o.createdAt == now && a.createdAt == now
  }

  /** The basket is used up: it is deleted with all of its rows, and the other baskets and rows are as they were. */
  ghost predicate BasketIsUsedUp(t: Tables, t': Tables, b: BasketId)
    requires b < |t.baskets|
  {
    && t'.baskets == t.baskets[b := Basket.Basket(t.baskets[b].owner, true)]
    && forall key :: (key in t'.rows <==> key in t.rows) &&
                     (key in t.rows ==> if key.0 == b then t'.rows[key].isDeleted && t'.rows[key].quantity == t.rows[key].quantity
                                        else t'.rows[key] == t.rows[key])
  }

  /** The order and its attempt replace basket `b`. */
  function Ordered(t: Tables, now: Time, req: CheckoutRequest, b: BasketId, items: seq<OrderItem>): Tables
    requires b < |t.baskets|
  {
    var o := NewOrder(req, items, now);
    t.(codes := if req.choice.TableCode? then UseCode(t.codes, Some(req.choice.code)) else t.codes,
       orders := t.orders[req.newId := o],
       rows := DeletedRows(t.rows, b),
       baskets := t.baskets[b := t.baskets[b].(isDeleted := true)],
       attempts := t.attempts[req.newId := Attempt(req.provider, Initiated, o.payable, false, NoReference, None, now)])
  }

  lemma OrderedAwaitsPayment(t: Tables, now: Time, req: CheckoutRequest, b: BasketId, items: seq<OrderItem>)
    requires b < |t.baskets|
    ensures AwaitsPayment(Ordered(t, now, req, b, items), now, req, Subtotal(items))
    ensures BasketIsUsedUp(t, Ordered(t, now, req, b, items), b)
  {
  }

  /** The whole checkout transaction, given the answers of its two list queries. */
  function CheckedOut(t: Tables, now: Time, req: CheckoutRequest, stale: seq<OrderId>, picked: seq<VariantId>)
    : (r: Result<Tables>)
  {
    var t1 := ReleasedAll(t, stale);
    var basket := LatestBasket(t1.baskets, req.user, true, |t1.baskets|);
    if basket.None? || picked == [] then Throws
    else if !CodeAccepted(t1.codes, req.choice) then Throws
    else if exists i :: 0 <= i < |picked| && !StillHeld(t1, now, basket.value, picked[i]) then Throws
    else Returns(Ordered(t1, now, req, basket.value, ItemsOf(t1, basket.value, picked)))
  }

  /** Every product in the basket is still sold, and none of its holds has run out. */
  predicate NothingRanOut(t: Tables, now: Time, b: BasketId) {
    forall key :: key in t.rows && key.0 == b && !t.rows[key].isDeleted ==>
                    key.1 in t.catalog && t.catalog[key.1].isActive &&
                    t.rows[key].reservedUntil.Some? && now < t.rows[key].reservedUntil.value
  }

  lemma HeldHasNotRunOut(t: Tables, now: Time, b: BasketId, picked: seq<VariantId>)
    requires IsRowsAnswer(t, b, picked) && forall i :: 0 <= i < |picked| ==> StillHeld(t, now, b, picked[i])
    ensures NothingRanOut(t, now, b)
  {
    forall key | key in t.rows && key.0 == b && !t.rows[key].isDeleted ensures StillHeld(t, now, b, key.1) {
      assert LiveRow(t, b, key.1) && key == (b, key.1);
      assert key.1 in picked;
    }
  }

  /**
   Of the orders there were, exactly those are given up that are the customer's own, wait unpaid for a payment with the
   provider asked for, and whose attempt is more than ten minutes old. No other order or attempt is touched.
   */
  ghost predicate OnlyStaleGivenUp(t: Tables, t': Tables, now: Time, req: CheckoutRequest) {
    forall id :: id in t.orders && id in t.attempts ==>
      id in t'.orders && id in t'.attempts &&
      if t.orders[id].owner == req.user && !t.orders[id].isDeleted && t.orders[id].paymentStatus == Pending &&
         t.orders[id].orderStatus == PendingPayment && t.attempts[id].provider == req.provider &&
         t.attempts[id].status == Initiated && t.attempts[id].createdAt + 600_000 < now
      then t'.orders[id].paymentStatus == Failed && t'.orders[id].orderStatus == Canceled && t'.attempts[id].status == Dropped
      else t'.orders[id] == t.orders[id] && t'.attempts[id] == t.attempts[id]
  }

  lemma StaleAreGivenUp(t: Tables, now: Time, req: CheckoutRequest, stale: seq<OrderId>)
    requires IsStaleAnswer(t, now, req, stale)
    ensures OnlyStaleGivenUp(t, ReleasedAll(t, stale), now, req)
  {
    forall id | id in t.orders && id in t.attempts
      ensures var r := ReleasedAll(t, stale);
              id in r.orders && id in r.attempts &&
              if IsStale(t, now, req, id)
              then r.orders[id] == ReleasedOrder(t.orders[id]) && r.attempts[id] == DroppedAttempt(t.attempts[id])
              else r.orders[id] == t.orders[id] && r.attempts[id] == t.attempts[id]
    {
      ReleasedAllOrder(t, stale, id);
      assert id in stale <==> IsStale(t, now, req, id);
    }
  }

  /** The basket the customer saw has become an order over what its rows cost, and the stale orders are given up. */
  ghost predicate IsOrdered(t: Tables, t': Tables, now: Time, req: CheckoutRequest) {
    exists b: BasketId :: SeenBasket(t.baskets, req.user, b) && NothingRanOut(t, now, b) && BasketIsUsedUp(t, t', b) &&
                          AwaitsPayment(t', now, req, BasketValue(t, b)) && OnlyStaleGivenUp(t, t', now, req)
  }

  lemma CheckoutCommits(t: Tables, now: Time, req: CheckoutRequest, stale: seq<OrderId>, picked: seq<VariantId>)
    requires req.newId !in t.orders && CheckedOut(t, now, req, stale, picked).Returns? && IsStaleAnswer(t, now, req, stale)
    requires IsRowsAnswer(t, LatestBasket(t.baskets, req.user, true, |t.baskets|).value, picked)
    ensures IsOrdered(t, CheckedOut(t, now, req, stale, picked).value, now, req)
  {
    var t1, b := ReleasedAll(t, stale), LatestBasket(t.baskets, req.user, true, |t.baskets|).value;
    SeenIsActive(t.baskets, req.user, b);
    OrderedAsSeen(t, t1, now, req, b, picked);
    OrderedGivesUpNone(t, now, req, stale, b, ItemsOf(t1, b, picked));
  }

  /** The order made from a basket, on tables whose baskets and rows are those the customer saw. */
  lemma OrderedAsSeen(t: Tables, t1: Tables, now: Time, req: CheckoutRequest, b: BasketId, picked: seq<VariantId>)
    requires SameBaskets(t, t1) && b < |t.baskets| && IsRowsAnswer(t, b, picked)
    requires forall i :: 0 <= i < |picked| ==> StillHeld(t1, now, b, picked[i])
    ensures var t' := Ordered(t1, now, req, b, ItemsOf(t1, b, picked));
            NothingRanOut(t, now, b) && BasketIsUsedUp(t, t', b) && AwaitsPayment(t', now, req, BasketValue(t, b))
  {
    assert IsRowsAnswer(t1, b, picked) && RowValues(t1, b) == RowValues(t, b);
    ItemsAreWorthTheBasket(t1, b, picked);
    HeldHasNotRunOut(t1, now, b, picked);
    OrderedAwaitsPayment(t1, now, req, b, ItemsOf(t1, b, picked));
  }

  /**
   Checkout is refused only for a reason: there is no basket to see, nothing in it, something in it ran out or is not sold
   any more, or its code is not accepted once the stale orders have given theirs back.
   */
  lemma CheckoutGoesThroughIff(t: Tables, now: Time, req: CheckoutRequest, stale: seq<OrderId>, picked: seq<VariantId>)
    requires forall b: BasketId :: SeenBasket(t.baskets, req.user, b) ==> IsRowsAnswer(t, b, picked)
    ensures CheckedOut(t, now, req, stale, picked).Returns? <==>
            CodeAccepted(ReleasedAll(t, stale).codes, req.choice) &&
            exists b: BasketId :: SeenBasket(t.baskets, req.user, b) && NothingRanOut(t, now, b) && exists v :: LiveRow(t, b, v)
  {
    var t1, active := ReleasedAll(t, stale), LatestBasket(t.baskets, req.user, true, |t.baskets|);
    forall b: BasketId { SeenIsActive(t.baskets, req.user, b); }
    if active.Some? {
      var b := active.value;
      assert SeenBasket(t.baskets, req.user, b) && IsRowsAnswer(t1, b, picked);
      HeldHasNotRunOutIff(t1, now, b, picked);
      assert NothingRanOut(t1, now, b) == NothingRanOut(t, now, b);
      assert picked != [] ==> LiveRow(t, b, picked[0]);
    }
  }

  lemma HeldHasNotRunOutIff(t: Tables, now: Time, b: BasketId, picked: seq<VariantId>)
    requires IsRowsAnswer(t, b, picked)
    ensures NothingRanOut(t, now, b) <==> forall i :: 0 <= i < |picked| ==> StillHeld(t, now, b, picked[i])
  {
    if NothingRanOut(t, now, b) {
      forall i | 0 <= i < |picked| ensures StillHeld(t, now, b, picked[i]) {
        assert LiveRow(t, b, picked[i]) && (b, picked[i]).0 == b;
      }
    }
    if forall i :: 0 <= i < |picked| ==> StillHeld(t, now, b, picked[i]) { HeldHasNotRunOut(t, now, b, picked); }
  }

  lemma OrderedGivesUpNone(t: Tables, now: Time, req: CheckoutRequest, stale: seq<OrderId>, b: BasketId, items: seq<OrderItem>)
    requires req.newId !in t.orders && IsStaleAnswer(t, now, req, stale) && b < |t.baskets|
    ensures OnlyStaleGivenUp(t, Ordered(ReleasedAll(t, stale), now, req, b, items), now, req)
  {
    StaleAreGivenUp(t, now, req, stale);
  }

  method FindStale(db: Database, now: Time, req: CheckoutRequest) returns (ids: seq<OrderId>)
    ensures IsStaleAnswer(db.Snapshot(), now, req, ids)
  {
    var t := db.Snapshot();
    var todo := t.attempts.Keys;
    ids := [];
    while todo != {}
      invariant todo <= t.attempts.Keys
      invariant forall id :: id in ids <==> id !in todo && IsStale(t, now, req, id)
      decreases todo
    {
      var id :| id in todo;
      if IsStale(t, now, req, id) {
        ids := ids + [id];
      }
      todo := todo - {id};
    }
  }

  method FindRows(db: Database, b: BasketId) returns (picked: seq<VariantId>)
    ensures IsRowsAnswer(db.Snapshot(), b, picked)
  {
    var t := db.Snapshot();
    var todo := t.rows.Keys;
    picked := [];
    while todo != {}
      invariant todo <= t.rows.Keys
      invariant forall i, j :: 0 <= i < j < |picked| ==> picked[i] != picked[j]
      invariant forall v :: v in picked <==> (b, v) !in todo && LiveRow(t, b, v)
      decreases todo
    {
      var key :| key in todo;
      if key.0 == b && !t.rows[key].isDeleted {
        assert key == (b, key.1);
        picked := picked + [key.1];
      }
      todo := todo - {key};
    }
  }

  /** The guard before an order is created: every product still sold, every hold still running. */
  method AllStillHeld(db: Database, now: Time, b: BasketId, picked: seq<VariantId>) returns (held: bool)
    ensures held <==> !exists i :: 0 <= i < |picked| && !StillHeld(db.Snapshot(), now, b, picked[i])
  {
    for i := 0 to |picked|
      invariant forall k :: 0 <= k < i ==> StillHeld(db.Snapshot(), now, b, picked[k])
    {
      if !StillHeld(db.Snapshot(), now, b, picked[i]) {
        return false;
      }
    }
    held := true;
  }

  method PlaceOrder(db: Database, now: Time, req: CheckoutRequest, b: BasketId, picked: seq<VariantId>)
    requires b < |db.baskets| && CodeAccepted(db.codes, req.choice)
    modifies db
    ensures db.Snapshot() ==
            Ordered(old(db.Snapshot()), now, req, b, ItemsOf(old(db.Snapshot()), b, picked))
    ensures AwaitsPayment(db.Snapshot(), now, req, Subtotal(ItemsOf(old(db.Snapshot()), b, picked)))
  {
    OrderedAwaitsPayment(db.Snapshot(), now, req, b, ItemsOf(db.Snapshot(), b, picked));
    var order := NewOrder(req, ItemsOf(db.Snapshot(), b, picked), now);
    if req.choice.TableCode? {
      var row := db.codes[req.choice.code];
      db.codes := db.codes[req.choice.code := row.(usedCount := row.usedCount + 1)];
    }
    db.orders := db.orders[req.newId := order];
    db.rows := DeletedRows(db.rows, b);
    db.baskets := db.baskets[b := db.baskets[b].(isDeleted := true)];
    db.attempts := db.attempts[req.newId :=
                                 Attempt(req.provider, Initiated, order.payable, false, NoReference, None, now)];
  }

  /** `checkout` up to the commit of its transaction; the answers of its queries are handed back. */
  method Checkout(db: Database, now: Time, req: CheckoutRequest)
    returns (ok: bool, stale: seq<OrderId>, picked: seq<VariantId>)
    requires req.newId !in db.orders && req.newId !in db.attempts
    modifies db
    ensures IsStaleAnswer(old(db.Snapshot()), now, req, stale)
    ensures var basket := LatestBasket(old(db.baskets), req.user, true, |old(db.baskets)|);
            basket.Some? ==> IsRowsAnswer(old(db.Snapshot()), basket.value, picked)
    ensures var r := CheckedOut(old(db.Snapshot()), now, req, stale, picked);
            ok == r.Returns? && db.Snapshot() == if ok then r.value else old(db.Snapshot())
    ensures ok ==> IsOrdered(old(db.Snapshot()), db.Snapshot(), now, req)
  {
    var saved := db.Snapshot();
    picked := [];
    stale := FindStale(db, now, req);
    ReleaseOrders(db, stale);
    var basket := LatestBasket(db.baskets, req.user, true, |db.baskets|);
    if basket.None? {
      db.RollBack(saved);
      return false, stale, picked;
    }
    picked := FindRows(db, basket.value);
    forall v ensures LiveRow(saved, basket.value, v) == LiveRow(db.Snapshot(), basket.value, v) {}
    var held := AllStillHeld(db, now, basket.value, picked);
    if picked == [] || !CodeAccepted(db.codes, req.choice) || !held {
      db.RollBack(saved);
      return false, stale, picked;
    }
    PlaceOrder(db, now, req, basket.value, picked);
    CheckoutCommits(saved, now, req, stale, picked);
    ok := true;
  }

  // --------------------------------------------------- after the checkout

  /**
   The gateway refused to open a payment: the order is released if it still can be, and the basket is
   restored whether or not that release did anything.
   */
  function Refused(t: Tables, now: Time, id: OrderId): (r: Tables)
    requires id in t.orders
    ensures SameOrders(Released(t, id), r) && SameSales(t, r)
  {
    Restored(Released(t, id), now, t.orders[id].owner, LiveLines(t.orders[id].items))
  }

  method RefuseOrder(db: Database, now: Time, id: OrderId)
    requires id in db.orders
    modifies db
    ensures db.Snapshot() == Refused(old(db.Snapshot()), now, id)
    ensures BasketIsBack(old(db.Snapshot()), db.Snapshot(), now, old(db.orders)[id].owner, LiveLines(old(db.orders)[id].items))
  {
    RestoreBringsBack(Released(db.Snapshot(), id), now, db.orders[id].owner, LiveLines(db.orders[id].items));
    var _ := ReleaseOrder(db, id);
    assert db.orders[id].items == old(db.orders)[id].items && db.orders[id].owner == old(db.orders)[id].owner;
    RestoreBasketItems(db, now, db.orders[id].owner, LiveLines(db.orders[id].items));
  }

  function LocallyPaidOrder(o: Order): Order {
    if o.paymentStatus == Pending then PaidOrder(o) else o
  }

  function LocallyPaidAttempt(a: Attempt, voucher: Reference): Attempt {
    if a.status == Initiated then a.(status := Captured, reference := voucher) else a
  }

  /** The two guarded writes that pay an order without a gateway (nothing left to pay, or mock mode). */
  function PaidLocally(t: Tables, id: OrderId, voucher: Reference): (r: Tables)
    ensures SameBaskets(t, r) && SameSales(t, r) && r.stock == t.stock && r.codes == t.codes
  {
    t.(attempts := if id in t.attempts
                   then t.attempts[id := LocallyPaidAttempt(t.attempts[id], voucher)] else t.attempts,
       orders := if id in t.orders then t.orders[id := LocallyPaidOrder(t.orders[id])] else t.orders)
  }

  method PayLocally(db: Database, id: OrderId, voucher: Reference)
    modifies db
    ensures db.Snapshot() == PaidLocally(old(db.Snapshot()), id, voucher)
    ensures id in old(db.orders) && id in old(db.attempts) ==>
              if old(db.orders)[id].paymentStatus == Pending && old(db.attempts)[id].status == Initiated
              then NowPaid(old(db.Snapshot()), db.Snapshot(), id, voucher)
              else old(db.orders)[id].paymentStatus == Pending || db.orders == old(db.orders)
  {
    if id in db.attempts {
      if db.attempts[id].status == Initiated {
        db.attempts := db.attempts[id := db.attempts[id].(status := Captured, reference := voucher)];
      }
      assert db.attempts == old(db.attempts)[id := LocallyPaidAttempt(old(db.attempts)[id], voucher)];
    }
    if id in db.orders {
      if db.orders[id].paymentStatus == Pending {
        db.orders := db.orders[id := db.orders[id].(paymentStatus := Paid, orderStatus := OrderPaid)];
      }
      assert db.orders == old(db.orders)[id := LocallyPaidOrder(old(db.orders)[id])];
    }
  }

  /** No gateway is asked when the payable amount rounds to zero tomans. */
  predicate NothingToPay(payable: int) { RoundDiv(payable, 100) == 0 }

  /** That is when less than half a toman is left. */
  lemma NothingToPayIff(payable: int)
    ensures NothingToPay(payable) <==> -50 <= payable < 50
  {
  }
}
