/** Releasing an unpaid order and bringing a released order back (order-reservation.service.ts). */
module OrderReservation {
  import opened Wrappers
  import opened ShopTables

  // ------------------------------------------------------- specification

  /** The attempt once the `INITIATED -> FAILED` write for its order has run. */
  function DroppedAttempt(a: Attempt): Attempt {
    if a.status == Initiated then a.(status := Dropped) else a
  }

  function ReleasedOrder(o: Order): Order {
    o.(paymentStatus := Failed, orderStatus := Canceled)
  }

  predicate Releasable(t: Tables, id: OrderId) {
    id in t.orders && !t.orders[id].isDeleted && t.orders[id].paymentStatus == Pending
  }

  /** The tables after `releaseOrder`; it acts exactly on releasable orders. */
  function Released(t: Tables, id: OrderId): (r: Tables)
    ensures SameBaskets(t, r) && SameSales(t, r)
  {
    if !Releasable(t, id) then t else
      var o := t.orders[id];
      t.(orders := t.orders[id := ReleasedOrder(o)],
         attempts := if id in t.attempts then t.attempts[id := DroppedAttempt(t.attempts[id])] else t.attempts,
         codes := UnuseCode(t.codes, o.code),
         stock := AddLines(t.stock, LiveLines(o.items)))
  }

  predicate Confirmable(t: Tables, id: OrderId) {
    id in t.orders && !t.orders[id].isDeleted && t.orders[id].paymentStatus != Paid
  }

  predicate Short(stock: map<VariantId, int>, lines: seq<Line>, v: VariantId) {
    v !in stock || stock[v] < Units(lines, v)
  }

  /** Stock after the best-effort second reservation: a variant that is short keeps what it has. */
  function Retaken(stock: map<VariantId, int>, lines: seq<Line>): (r: map<VariantId, int>) {
    map v | v in stock :: if Short(stock, lines, v) then stock[v] else stock[v] - Units(lines, v)
  }

  /** The tables after `confirmPaidAfterRelease`; marking the order paid is left to the caller. */
  function Reapplied(t: Tables, id: OrderId): (r: Tables) {
    if !Confirmable(t, id) then t else
      var o := t.orders[id];
      t.(stock := Retaken(t.stock, LiveLines(o.items)), codes := UseCode(t.codes, o.code))
  }

  /** Releases a list of orders one after the other. */
  function ReleasedAll(t: Tables, ids: seq<OrderId>): (r: Tables)
    ensures SameBaskets(t, r) && SameSales(t, r)
    decreases |ids|
  {
    if ids == [] then t else ReleasedAll(Released(t, ids[0]), ids[1..])
  }

  lemma {:induction false} ReleasedAllKeys(t: Tables, ids: seq<OrderId>)
    ensures var r := ReleasedAll(t, ids);
            r.orders.Keys == t.orders.Keys && r.attempts.Keys == t.attempts.Keys && r.codes.Keys == t.codes.Keys
    decreases |ids|
  {
    if ids != [] {
      ReleasedKeys(t, ids[0]);
      ReleasedAllKeys(Released(t, ids[0]), ids[1..]);
    }
  }

  lemma ReleasedKeys(t: Tables, id: OrderId)
    ensures var r := Released(t, id);
            r.orders.Keys == t.orders.Keys && r.attempts.Keys == t.attempts.Keys && r.codes.Keys == t.codes.Keys
  {
  }

  // ------------------------------------------------------- the service

  /** Adds the totals of `variants` back to stock, one guarded write a variant. */
  method ReturnTotals(db: Database, ghost lines: seq<Line>, variants: seq<VariantId>, totals: map<VariantId, nat>)
    requires forall i, j :: 0 <= i < j < |variants| ==> variants[i] != variants[j]
    requires forall v :: v in variants <==> Mentions(lines, v)
    requires forall v :: v in variants ==> v in totals && totals[v] == Units(lines, v)
    modifies db`stock
    ensures db.stock == AddLines(old(db.stock), lines)
  {
    for i := 0 to |variants|
      invariant db.stock.Keys == old(db.stock.Keys)
      invariant forall v :: v in db.stock ==>
                              db.stock[v] == old(db.stock)[v] + if v in variants[..i] then Units(lines, v) else 0
    {
      assert variants[i] !in variants[..i];
      assert variants[..i + 1] == variants[..i] + [variants[i]];
      db.ReturnUnits(variants[i], totals[variants[i]]);
    }
    assert variants[..|variants|] == variants;
    forall v | v in db.stock ensures db.stock[v] == old(db.stock)[v] + Units(lines, v) {
      if v !in variants { UnmentionedIsZero(lines, v); }
    }
  }

  method ReleaseOrder(db: Database, id: OrderId) returns (released: bool)
    modifies db
    ensures released == Releasable(old(db.Snapshot()), id)
    ensures db.Snapshot() == Released(old(db.Snapshot()), id)
    ensures released <==> id in old(db.orders) && !old(db.orders)[id].isDeleted && old(db.orders)[id].paymentStatus == Pending
  {
    if id !in db.orders || db.orders[id].isDeleted {
      return false;
    }
    var order := db.orders[id];
    if order.paymentStatus != Pending {
      return false;
    }
    db.orders := db.orders[id := order.(paymentStatus := Failed, orderStatus := Canceled)];
    if id in db.attempts {
      if db.attempts[id].status == Initiated {
        db.attempts := db.attempts[id := db.attempts[id].(status := Dropped)];
      }
      assert db.attempts == old(db.attempts)[id := DroppedAttempt(old(db.attempts)[id])];
    }
    if order.code.Some? && order.code.value in db.codes && db.codes[order.code.value].usedCount > 0 {
      var row := db.codes[order.code.value];
      db.codes := db.codes[order.code.value := row.(usedCount := row.usedCount - 1)];
    }
    var lines := LiveLines(order.items);
    var variants, totals := TotalByVariant(lines);
    ReturnTotals(db, lines, variants, totals);
    released := true;
  }

  method ReleaseOrders(db: Database, ids: seq<OrderId>)
    modifies db
    ensures db.Snapshot() == ReleasedAll(old(db.Snapshot()), ids)
  {
    for i := 0 to |ids|
      invariant ReleasedAll(old(db.Snapshot()), ids) == ReleasedAll(db.Snapshot(), ids[i..])
    {
      assert ids[i..][0] == ids[i] && ids[i..][1..] == ids[i + 1..];
      var _ := ReleaseOrder(db, ids[i]);
    }
  }

  /** Takes the totals of `variants` from stock, best effort, and lists the variants that were short. */
  method TakeTotals(db: Database, ghost lines: seq<Line>, variants: seq<VariantId>, totals: map<VariantId, nat>)
    returns (shortages: seq<VariantId>)
    requires forall i, j :: 0 <= i < j < |variants| ==> variants[i] != variants[j]
    requires forall v :: v in variants <==> Mentions(lines, v)
    requires forall v :: v in variants ==> v in totals && totals[v] == Units(lines, v)
    modifies db`stock
    ensures db.stock == Retaken(old(db.stock), lines)
    ensures forall v :: v in shortages <==> Mentions(lines, v) && Short(old(db.stock), lines, v)
  {
    shortages := [];
    for i := 0 to |variants|
      invariant db.stock.Keys == old(db.stock.Keys)
      invariant forall v :: v in db.stock ==>
                              db.stock[v] == if v in variants[..i] && !Short(old(db.stock), lines, v)
                                             then old(db.stock)[v] - Units(lines, v) else old(db.stock)[v]
      invariant forall v :: v in shortages <==> v in variants[..i] && Short(old(db.stock), lines, v)
    {
      var v := variants[i];
      assert v !in variants[..i];
      assert variants[..i + 1] == variants[..i] + [v];
      var matched := db.TakeUnits(v, totals[v]);
      if !matched {
        shortages := shortages + [v];
      }
    }
    assert variants[..|variants|] == variants;
    forall v | v in db.stock ensures db.stock[v] == Retaken(old(db.stock), lines)[v] {
      if v !in variants { UnmentionedIsZero(lines, v); }
    }
  }

  method ConfirmPaidAfterRelease(db: Database, id: OrderId)
    returns (resurrected: bool, shortages: seq<VariantId>)
    modifies db
    ensures resurrected == Confirmable(old(db.Snapshot()), id)
    ensures db.Snapshot() == Reapplied(old(db.Snapshot()), id)
    ensures !resurrected ==> shortages == []
    ensures resurrected ==>
              var lines := LiveLines(old(db.orders)[id].items);
              forall v :: v in shortages <==> Mentions(lines, v) && Short(old(db.stock), lines, v)
  {
    if id !in db.orders || db.orders[id].isDeleted || db.orders[id].paymentStatus == Paid {
      return false, [];
    }
    var order := db.orders[id];
    var lines := LiveLines(order.items);
    var variants, totals := TotalByVariant(lines);
    shortages := TakeTotals(db, lines, variants, totals);
    if order.code.Some? && order.code.value in db.codes {
      var row := db.codes[order.code.value];
      db.codes := db.codes[order.code.value := row.(usedCount := row.usedCount + 1)];
    }
    resurrected := true;
  }

  // ---------------------------------------------------------- properties

  /** Releasing many orders leaves each listed one as its own release leaves it, and every other one as it was. */
  lemma {:induction false} ReleasedAllOrder(t: Tables, ids: seq<OrderId>, id: OrderId)
    requires id in t.orders && id in t.attempts
    ensures var r := ReleasedAll(t, ids);
            id in r.orders && id in r.attempts &&
            (if id in ids && Releasable(t, id)
             then r.orders[id] == ReleasedOrder(t.orders[id]) && r.attempts[id] == DroppedAttempt(t.attempts[id])
             else r.orders[id] == t.orders[id] && r.attempts[id] == t.attempts[id])
    decreases |ids|
  {
    if ids != [] {
      ReleasedOneOrder(t, ids[0], id);
      ReleasedAllOrder(Released(t, ids[0]), ids[1..], id);
      assert id in ids <==> id == ids[0] || id in ids[1..];
    }
  }

  lemma ReleasedOneOrder(t: Tables, i: OrderId, id: OrderId)
    requires id in t.orders && id in t.attempts
    ensures var r := Released(t, i);
            id in r.orders && id in r.attempts &&
            (if id == i && Releasable(t, id)
             then r.orders[id] == ReleasedOrder(t.orders[id]) && r.attempts[id] == DroppedAttempt(t.attempts[id])
             else r.orders[id] == t.orders[id] && r.attempts[id] == t.attempts[id])
  {
  }

  /** A second release finds nothing to do. */
  lemma ReleaseTwiceIsOnce(t: Tables, id: OrderId)
    ensures !Releasable(Released(t, id), id)
    ensures Released(Released(t, id), id) == Released(t, id)
  {
  }

  /** Releasing moves the order's units back to the shelf: no unit of any variant appears or vanishes. */
  lemma ReleaseConserves(t: Tables, id: OrderId, v: VariantId)
    requires v in t.stock
    ensures v in Released(t, id).stock && Ledger(Released(t, id), v) == Ledger(t, v)
  {
    if Releasable(t, id) {
      var o := t.orders[id];
      OrderUnitsChange(t.orders, id, ReleasedOrder(o), v);
    }
  }

  /** What a callback writes on an order it settles or resurrects. */
  function PaidOrder(o: Order): Order {
    o.(paymentStatus := Paid, orderStatus := OrderPaid)
  }

  /** The order is paid and shown as PAID, its attempt is paid and says who vouches for it; no other row of either changes. */
  predicate NowPaid(t: Tables, t': Tables, id: OrderId, voucher: Reference) {
    && id in t.orders && id in t'.orders && id in t.attempts && id in t'.attempts
    && t'.orders == t.orders[id := t.orders[id].(paymentStatus := Paid, orderStatus := OrderPaid)]
    && t'.attempts == t.attempts[id := t'.attempts[id]]
    && t'.attempts[id].status == Captured && t'.attempts[id].reference == voucher
    && t'.attempts[id].amount == t.attempts[id].amount && t'.attempts[id].provider == t.attempts[id].provider
  }

  /**
   Resurrecting a released order takes its units back; each unit of a variant that is short is
   counted once more than exists, and nothing else is created.
   */
  lemma ResurrectionCreatesOnlyShortages(t: Tables, id: OrderId, v: VariantId)
    requires v in t.stock && Confirmable(t, id) && t.orders[id].paymentStatus == Failed
    ensures v in Reapplied(t, id).stock
    ensures var lines := LiveLines(t.orders[id].items);
            Ledger(Reapplied(t, id).(orders := t.orders[id := PaidOrder(t.orders[id])]), v) ==
            Ledger(t, v) + if Short(t.stock, lines, v) then Units(lines, v) else 0
  {
    OrderUnitsChange(t.orders, id, PaidOrder(t.orders[id]), v);
  }

  /** A release that took a use off the code's count, so that the next resurrection puts it back. */
  predicate Counted(codes: map<Code, CodeRow>, code: Option<Code>) {
    code.Some? && code.value in codes ==> codes[code.value].usedCount > 0
  }

  /**
   With nothing in between, release followed by resurrection takes back every unit without a shortage and
   restores every variant's stock. It restores the codes exactly when the order's code had been counted: a
   row at or below zero loses nothing on release and gains one on resurrection.
   */
  lemma ReleaseThenResurrectIsIdentity(t: Tables, id: OrderId)
    requires Releasable(t, id)
    requires forall v :: v in t.stock ==> t.stock[v] >= 0
    ensures var r := Released(t, id);
            Confirmable(r, id) &&
            (forall v :: v in t.stock ==> !Short(r.stock, LiveLines(t.orders[id].items), v)) &&
            Reapplied(r, id).stock == t.stock
    ensures Reapplied(Released(t, id), id).codes == t.codes <==> Counted(t.codes, t.orders[id].code)
  {
  }
}
