/**
 The background sweeper (stock-reservation-sweeper.service.ts). It reads the expired rows outside any
 transaction and claims them one by one later, returning the quantity it read then.
 */
module Sweeper {
  import opened ShopTables
  import opened OrderReservation

  /** One row of the sweeper's read: whose it was, what it held, and the clock of that sweep. */
  datatype ExpiredRow = ExpiredRow(basket: BasketId, variant: VariantId, quantity: nat, now: Time)

  predicate Expired(rows: map<(BasketId, VariantId), BasketRow>, key: (BasketId, VariantId), now: Time) {
    key in rows && !rows[key].isDeleted && rows[key].reservedUntil.Some? && rows[key].reservedUntil.value <= now
  }

  /** The tables after the claim of one row read earlier. */
  function Swept(t: Tables, e: ExpiredRow): (r: Tables)
    ensures SameOrders(t, r) && SameSales(t, r)
  {
    var key := (e.basket, e.variant);
    if !Expired(t.rows, key, e.now) then t
    else t.(rows := t.rows[key := t.rows[key].(isDeleted := true)],
            stock := AddLines(t.stock, [Line(e.variant, e.quantity)]))
  }

  function ExpiredKeys(rows: map<(BasketId, VariantId), BasketRow>, now: Time): set<(BasketId, VariantId)> {
    set key | key in rows && Expired(rows, key, now)
  }

  /** The row as a sweep reads it. */
  predicate ReadAt(rows: map<(BasketId, VariantId), BasketRow>, now: Time, e: ExpiredRow) {
    var key := (e.basket, e.variant);
    e.now == now && Expired(rows, key, now) && e.quantity == rows[key].quantity
  }

  function KeyOf(e: ExpiredRow): (BasketId, VariantId) { (e.basket, e.variant) }

  /** Two different reads of one sweep are of different rows. */
  lemma ReadsOfDifferentRows(rows: map<(BasketId, VariantId), BasketRow>, now: Time, expired: seq<ExpiredRow>)
    requires forall e :: e in expired ==> ReadAt(rows, now, e)
    requires forall i, j :: 0 <= i < j < |expired| ==> expired[i] != expired[j]
    ensures forall i, j :: 0 <= i < j < |expired| ==> KeyOf(expired[i]) != KeyOf(expired[j])
  {
    forall i, j | 0 <= i < j < |expired| ensures KeyOf(expired[i]) != KeyOf(expired[j]) {
      assert expired[i] in expired && expired[j] in expired;
    }
  }

  /** The rows once those with the given keys are claimed. */
  function ClaimedRows(rows: map<(BasketId, VariantId), BasketRow>, done: set<(BasketId, VariantId)>)
    : map<(BasketId, VariantId), BasketRow>
  {
    map key | key in rows :: if key in done then rows[key].(isDeleted := true) else rows[key]
  }

  /** A claim made on a read that nobody came in between. */
  lemma ClaimOneMore(t: Tables, rows: map<(BasketId, VariantId), BasketRow>, done: set<(BasketId, VariantId)>, e: ExpiredRow)
    requires t.rows == ClaimedRows(rows, done) && ReadAt(rows, e.now, e) && KeyOf(e) !in done
    ensures Expired(t.rows, KeyOf(e), e.now) && Swept(t, e).rows == ClaimedRows(rows, done + {KeyOf(e)})
    ensures forall v :: v in t.stock ==> v in Swept(t, e).stock && Ledger(Swept(t, e), v) == Ledger(t, v)
  {
    forall v | v in t.stock ensures v in Swept(t, e).stock && Ledger(Swept(t, e), v) == Ledger(t, v) {
      SweptConserves(t, e, v);
    }
  }

  /** Once every expired row is claimed, none is left. */
  lemma NothingExpiredIsLeft(rows: map<(BasketId, VariantId), BasketRow>, done: set<(BasketId, VariantId)>, now: Time)
    requires forall key :: Expired(rows, key, now) ==> key in done
    ensures forall key :: !Expired(ClaimedRows(rows, done), key, now)
  {
  }

  /** Taking one more key out of those still to do adds it to those done, if it counts. */
  lemma OneLessToDo<T>(all: set<T>, todo: set<T>, key: T)
    requires key in todo
    ensures |all - (todo - {key})| == |all - todo| + if key in all then 1 else 0
  {
    assert all - (todo - {key}) == all - todo + if key in all then {key} else {};
  }

  /** The read of `sweepExpiredBasketItems`: each expired row once. */
  method FindExpired(db: Database, now: Time) returns (expired: seq<ExpiredRow>)
    ensures forall e :: e in expired <==> ReadAt(db.rows, now, e)
    ensures forall i, j :: 0 <= i < j < |expired| ==> expired[i] != expired[j]
    ensures |expired| == |ExpiredKeys(db.rows, now)|
  {
    var todo := db.rows.Keys;
    expired := [];
    while todo != {}
      invariant todo <= db.rows.Keys
      invariant forall e :: e in expired <==> (e.basket, e.variant) !in todo && ReadAt(db.rows, now, e)
      invariant forall i, j :: 0 <= i < j < |expired| ==> expired[i] != expired[j]
      invariant |expired| == |ExpiredKeys(db.rows, now) - todo|
      decreases todo
    {
      var key :| key in todo;
      OneLessToDo(ExpiredKeys(db.rows, now), todo, key);
      if Expired(db.rows, key, now) {
        assert key == (key.0, key.1);
        expired := expired + [ExpiredRow(key.0, key.1, db.rows[key].quantity, now)];
      }
      todo := todo - {key};
    }
    assert ExpiredKeys(db.rows, now) - todo == ExpiredKeys(db.rows, now);
  }

  method ClaimRow(db: Database, e: ExpiredRow) returns (claimed: bool)
    modifies db
    ensures claimed == Expired(old(db.rows), (e.basket, e.variant), e.now)
    ensures db.Snapshot() == Swept(old(db.Snapshot()), e)
  {
    var key := (e.basket, e.variant);
    claimed := Expired(db.rows, key, e.now);
    if claimed {
      db.rows := db.rows[key := db.rows[key].(isDeleted := true)];
      db.ReturnUnits(e.variant, e.quantity);
      forall u ensures Units([Line(e.variant, e.quantity)], u) == if u == e.variant then e.quantity else 0 {
        UnitsOfOne(Line(e.variant, e.quantity), u);
      }
    }
  }

  /** A claim that finds the quantity it read earlier still in the row moves exactly that row's units. */
  lemma SweptConserves(t: Tables, e: ExpiredRow, v: VariantId)
    requires v in t.stock
    requires Expired(t.rows, (e.basket, e.variant), e.now) ==> t.rows[(e.basket, e.variant)].quantity == e.quantity
    ensures v in Swept(t, e).stock && Ledger(Swept(t, e), v) == Ledger(t, v)
  {
    if Expired(t.rows, (e.basket, e.variant), e.now) {
      UnitsOfOne(Line(e.variant, e.quantity), v);
      BasketUnitsChange(t.rows, Swept(t, e).rows, e.basket, v);
    }
  }

  /**
   A sweep nobody interrupts: every hold that had run out is gone, every other row is as it was, and each
   variant got back exactly the units its rows lost. `released` counts the holds that had run out.
   */
  method SweepExpiredBasketItems(db: Database, now: Time) returns (released: nat)
    modifies db
    ensures forall key :: key in db.rows && !db.rows[key].isDeleted && db.rows[key].reservedUntil.Some? ==>
                            now < db.rows[key].reservedUntil.value
    ensures forall key :: key in old(db.rows) &&
                          (old(db.rows)[key].reservedUntil.None? || now < old(db.rows)[key].reservedUntil.value) ==>
                            key in db.rows && db.rows[key] == old(db.rows)[key]
    ensures db.Snapshot() == old(db.Snapshot()).(rows := db.rows, stock := db.stock)
    ensures released == |ExpiredKeys(old(db.rows), now)|
    ensures db.stock.Keys == old(db.stock.Keys)
    ensures forall v :: v in db.stock ==> Ledger(db.Snapshot(), v) == old(Ledger(db.Snapshot(), v))
  {
    var expired := FindExpired(db, now);
    ghost var before := db.Snapshot();
    ghost var done: set<(BasketId, VariantId)> := {};
    forall k | 0 <= k < |expired| ensures ReadAt(before.rows, now, expired[k]) { assert expired[k] in expired; }
    ReadsOfDifferentRows(before.rows, now, expired);
    released := 0;
    assert db.rows == ClaimedRows(before.rows, done);
    for i := 0 to |expired|
      invariant db.Snapshot() == before.(rows := ClaimedRows(before.rows, done), stock := db.stock)
      invariant forall key :: key in done ==> Expired(before.rows, key, now)
      invariant forall k :: 0 <= k < i ==> KeyOf(expired[k]) in done
      invariant forall k :: i <= k < |expired| ==> KeyOf(expired[k]) !in done
      invariant released == i
      invariant db.stock.Keys == before.stock.Keys
      invariant forall v :: v in db.stock ==> Ledger(db.Snapshot(), v) == Ledger(before, v)
    {
      ClaimOneMore(db.Snapshot(), before.rows, done, expired[i]);
      done := done + {KeyOf(expired[i])};
      var claimed := ClaimRow(db, expired[i]);
      if claimed {
        released := released + 1;
      }
    }
    forall key | Expired(before.rows, key, now) ensures key in done {
      assert ExpiredRow(key.0, key.1, before.rows[key].quantity, now) in expired;
    }
    NothingExpiredIsLeft(before.rows, done, now);
  }

  // -------------------------------------------------------- pending orders

  /** An unpaid order nobody has moved on, older than the reservation window. */
  predicate ExpiredOrder(t: Tables, now: Time, id: OrderId) {
    && id in t.orders && !t.orders[id].isDeleted && t.orders[id].orderStatus == PendingPayment
    && t.orders[id].paymentStatus == Pending && t.orders[id].createdAt <= now - RESERVATION_TTL_MS
  }

  method FindExpiredOrders(db: Database, now: Time) returns (ids: seq<OrderId>)
    ensures forall id :: id in ids <==> ExpiredOrder(db.Snapshot(), now, id)
    ensures forall i, j :: 0 <= i < j < |ids| ==> ids[i] != ids[j]
  {
    var t := db.Snapshot();
    var todo := t.orders.Keys;
    ids := [];
    while todo != {}
      invariant todo <= t.orders.Keys
      invariant forall id :: id in ids <==> id !in todo && ExpiredOrder(t, now, id)
      invariant forall i, j :: 0 <= i < j < |ids| ==> ids[i] != ids[j]
      decreases todo
    {
      var id :| id in todo;
      if ExpiredOrder(t, now, id) {
        ids := ids + [id];
      }
      todo := todo - {id};
    }
  }

  /** A sweep of the orders nobody interrupts: exactly the expired ones are released, each once. */
  method SweepExpiredPendingOrders(db: Database, now: Time) returns (ids: seq<OrderId>, released: nat)
    modifies db
    ensures forall id :: id in ids <==> ExpiredOrder(old(db.Snapshot()), now, id)
    ensures db.Snapshot() == ReleasedAll(old(db.Snapshot()), ids)
    ensures released == |ids|
    ensures forall id :: !ExpiredOrder(db.Snapshot(), now, id)
    ensures forall id :: id in old(db.orders) && id in old(db.attempts) ==>
              id in db.orders &&
              var o := old(db.orders)[id];
              if !o.isDeleted && o.paymentStatus == Pending && o.orderStatus == PendingPayment && o.createdAt + 600_000 <= now
              then db.orders[id] == o.(paymentStatus := Failed, orderStatus := Canceled) else db.orders[id] == o
  {
    ids := FindExpiredOrders(db, now);
    released := 0;
    for i := 0 to |ids|
      invariant ReleasedAll(old(db.Snapshot()), ids) == ReleasedAll(db.Snapshot(), ids[i..])
      invariant released == i
      invariant forall id :: ExpiredOrder(db.Snapshot(), now, id) <==> id in ids[i..]
    {
      var rest := ids[i + 1..];
      assert ids[i..] == [ids[i]] + rest && ids[i] !in rest;
      assert ExpiredOrder(db.Snapshot(), now, ids[i]);
      ghost var before := db.Snapshot();
      forall id ensures ExpiredOrder(Released(before, ids[i]), now, id) <==> id in rest {
        assert ExpiredOrder(before, now, id) <==> id in ids[i..];
      }
      var ok := ReleaseOrder(db, ids[i]);
      if ok {
        released := released + 1;
      }
    }
    forall id | id in old(db.orders) && id in old(db.attempts)
      ensures id in db.orders &&
              db.orders[id] == if ExpiredOrder(old(db.Snapshot()), now, id) then ReleasedOrder(old(db.orders)[id])
                               else old(db.orders)[id]
    {
      ReleasedAllOrder(old(db.Snapshot()), ids, id);
    }
  }
}
