/**
 The exact stock law. For every variant, shelf + live baskets + live unreleased orders + live sales changes
 only at five kinds of step, each by a quantity that can be read off the tables before the step.
 */
module StockLaw {
  import opened Wrappers
  import opened ShopTables
  import opened OrderReservation
  import opened OrderMoney
  import opened Basket
  import opened Sweeper
  import opened Payment
  import opened OrderAdmin
  import opened Sales
  import opened ShopRuns
  import opened SweepLaw
  import opened SnappPay

  predicate StockNonNegative(t: Tables) {
    forall v :: v in t.stock ==> t.stock[v] >= 0
  }

  // ------------------------------------------------------- basket writers

  lemma UpsertLedger(t: Tables, now: Time, b: BasketId, u: VariantId, quantity: int, v: VariantId)
    requires v in t.stock && Upserted(t, now, b, u, quantity).Returns?
    ensures var r := Upserted(t, now, b, u, quantity).value;
            v in r.stock && Ledger(r, v) == Ledger(t, v) + if v == u then StaleQuantity(t, b, u) else 0
  {
    BasketUnitsChange(t.rows, Upserted(t, now, b, u, quantity).value.rows, b, v);
  }

  lemma UpdateLedger(t: Tables, now: Time, b: BasketId, u: VariantId, quantity: nat, v: VariantId)
    requires v in t.stock && Updated(t, now, b, u, quantity).Returns?
    ensures var r := Updated(t, now, b, u, quantity).value;
            v in r.stock && Ledger(r, v) == Ledger(t, v)
  {
    BasketUnitsChange(t.rows, Updated(t, now, b, u, quantity).value.rows, b, v);
  }

  lemma RemoveLedger(t: Tables, b: BasketId, u: VariantId, v: VariantId)
    requires v in t.stock
    ensures v in Removed(t, b, u).stock && Ledger(Removed(t, b, u), v) == Ledger(t, v)
  {
    if LiveRow(t, b, u) {
      UnitsOfOne(Line(u, t.rows[(b, u)].quantity), v);
      BasketUnitsChange(t.rows, Removed(t, b, u).rows, b, v);
    }
  }

  /** A restore holds the restored quantity without taking it, and forgets what the row held before. */
  function RestoreCorrection(t: Tables, u: UserId, lines: seq<Line>, v: VariantId): int {
    var latest := LatestBasket(t.baskets, u, false, |t.baskets|);
    if latest.None? || !Mentions(lines, v) then 0 else Units(lines, v) - RowUnits(t.rows, (latest.value, v))
  }

  lemma RestoreLedger(t: Tables, now: Time, u: UserId, lines: seq<Line>, v: VariantId)
    requires v in t.stock
    ensures v in Restored(t, now, u, lines).stock
    ensures Ledger(Restored(t, now, u, lines), v) == Ledger(t, v) + RestoreCorrection(t, u, lines, v)
  {
    var latest := LatestBasket(t.baskets, u, false, |t.baskets|);
    if latest.Some? {
      var rows' := Restored(t, now, u, lines).rows;
      if Mentions(lines, v) {
        var k :| 0 <= k < |lines| && lines[k].variant == v;
        assert (latest.value, lines[k].variant) in rows';
      }
      BasketUnitsChange(t.rows, rows', latest.value, v);
    }
  }

  function AbandonCorrection(t: Tables, id: OrderId, v: VariantId): int {
    if Releasable(t, id) then RestoreCorrection(t, t.orders[id].owner, LiveLines(t.orders[id].items), v) else 0
  }

  lemma AbandonLedger(t: Tables, now: Time, id: OrderId, v: VariantId)
    requires v in t.stock
    ensures v in Abandoned(t, now, id).stock
    ensures Ledger(Abandoned(t, now, id), v) ==
            Ledger(t, v) + AbandonCorrection(t, id, v)
  {
    if Releasable(t, id) {
      ReleaseConserves(t, id, v);
      RestoreLedger(Released(t, id), now, t.orders[id].owner, LiveLines(t.orders[id].items), v);
    }
  }

  lemma RefuseLedger(t: Tables, now: Time, id: OrderId, v: VariantId)
    requires v in t.stock && id in t.orders
    ensures v in Refused(t, now, id).stock
    ensures Ledger(Refused(t, now, id), v) ==
            Ledger(t, v) + RestoreCorrection(t, t.orders[id].owner, LiveLines(t.orders[id].items), v)
  {
    ReleaseConserves(t, id, v);
    RestoreLedger(Released(t, id), now, t.orders[id].owner, LiveLines(t.orders[id].items), v);
  }

  // ------------------------------------------------------------- checkout

  lemma {:induction false} ReleasedAllLedger(t: Tables, ids: seq<OrderId>, v: VariantId)
    requires v in t.stock
    ensures v in ReleasedAll(t, ids).stock && Ledger(ReleasedAll(t, ids), v) == Ledger(t, v)
    decreases |ids|
  {
    if ids != [] {
      ReleaseConserves(t, ids[0], v);
      ReleasedAllLedger(Released(t, ids[0]), ids[1..], v);
    }
  }

  lemma {:induction false} ItemsOfUnits(t: Tables, b: BasketId, picked: seq<VariantId>, v: VariantId)
    requires forall i, j :: 0 <= i < j < |picked| ==> picked[i] != picked[j]
    ensures Units(LiveLines(ItemsOf(t, b, picked)), v) == if v in picked then RowUnits(t.rows, (b, v)) else 0
  {
    if picked != [] {
      var items := ItemsOf(t, b, picked);
      ItemsOfUnits(t, b, picked[1..], v);
      assert items[1..] == ItemsOf(t, b, picked[1..]);
      UnitsConcat([Line(items[0].variant, items[0].quantity)], LiveLines(items[1..]), v);
      UnitsOfOne(Line(items[0].variant, items[0].quantity), v);
      assert v in picked[1..] ==> v != picked[0];
    }
  }

  lemma OrderedLedger(t: Tables, now: Time, req: CheckoutRequest, b: BasketId, picked: seq<VariantId>, v: VariantId)
    requires v in t.stock && b < |t.baskets| && req.newId !in t.orders && IsRowsAnswer(t, b, picked)
    ensures Ledger(Ordered(t, now, req, b, ItemsOf(t, b, picked)), v) == Ledger(t, v)
  {
    var items := ItemsOf(t, b, picked);
    ItemsOfUnits(t, b, picked, v);
    OrderUnitsChange(t.orders, req.newId, NewOrder(req, items, now), v);
    BasketUnitsChange(t.rows, DeletedRows(t.rows, b), b, v);
  }

  lemma CheckoutLedger(w: World, req: CheckoutRequest, stale: seq<OrderId>, picked: seq<VariantId>, v: VariantId)
    requires v in w.t.stock && CheckoutEnabled(w, req, stale, picked)
    requires CheckedOut(w.t, w.now, req, stale, picked).Returns?
    ensures var r := CheckedOut(w.t, w.now, req, stale, picked).value;
            v in r.stock && Ledger(r, v) == Ledger(w.t, v)
  {
    var t1 := ReleasedAll(w.t, stale);
    ReleasedAllLedger(w.t, stale, v);
    var b := LatestBasket(t1.baskets, req.user, true, |t1.baskets|).value;
    forall u ensures LiveRow(t1, b, u) == LiveRow(w.t, b, u) {}
    ReleasedAllKeys(w.t, stale);
    assert req.newId !in t1.orders.Keys;
    OrderedLedger(t1, w.now, req, b, picked, v);
  }

  lemma PaidLocallyLedger(t: Tables, id: OrderId, voucher: Reference, v: VariantId)
    requires v in t.stock
    ensures v in PaidLocally(t, id, voucher).stock && Ledger(PaidLocally(t, id, voucher), v) == Ledger(t, v)
  {
    if id in t.orders { OrderUnitsChange(t.orders, id, LocallyPaidOrder(t.orders[id]), v); }
  }

  // -------------------------------------------------------------- settling

  /** The units a settle counts without taking them from the shelf. */
  function ShortUnits(t: Tables, id: OrderId, v: VariantId): int {
    if id in t.orders && !t.orders[id].isDeleted && t.orders[id].paymentStatus == Failed
       && Short(t.stock, LiveLines(t.orders[id].items), v)
    then Units(LiveLines(t.orders[id].items), v) else 0
  }

  /** Attempts and codes are no part of the ledger. */
  lemma SameUnits(t: Tables, t': Tables, v: VariantId)
    requires v in t.stock
    requires t'.stock == t.stock && t'.rows == t.rows && t'.orders == t.orders && t'.sales == t.sales
    ensures Ledger(t', v) == Ledger(t, v)
  {
  }

  lemma SettledLedger(t: Tables, id: OrderId, status: Option<GatewayStatus>, v: VariantId)
    requires v in t.stock && id in t.orders && id in t.attempts
    ensures v in Settled(t, id, status).stock
    ensures Ledger(Settled(t, id, status), v) == Ledger(t, v) + ShortUnits(t, id, v)
  {
    OrderUnitsChange(t.orders, id, SettledOrder(t.orders[id]), v);
  }

  // ----------------------------------------------------------------- admin

  /** The units of `v` one item accounts for. */
  function ItemUnits(item: OrderItem, v: VariantId): nat {
    if !item.isDeleted && item.variant == v then item.quantity else 0
  }

  lemma LiveLinesStep(items: seq<OrderItem>, v: VariantId)
    requires items != []
    ensures Units(LiveLines(items), v) == ItemUnits(items[0], v) + Units(LiveLines(items[1..]), v)
  {
    var line := Line(items[0].variant, items[0].quantity);
    UnitsOfOne(line, v);
    if items[0].isDeleted {
      assert LiveLines(items) == LiveLines(items[1..]);
    } else {
      UnitsConcat([line], LiveLines(items[1..]), v);
    }
  }

  lemma {:induction false} ItemChangeUnits(items: seq<OrderItem>, i: nat, item: OrderItem, v: VariantId)
    requires i < |items|
    ensures Units(LiveLines(items[i := item]), v) ==
            Units(LiveLines(items), v) - ItemUnits(items[i], v) + ItemUnits(item, v)
  {
    LiveLinesStep(items, v);
    LiveLinesStep(items[i := item], v);
    if i == 0 {
      assert items[i := item][1..] == items[1..];
    } else {
      ItemChangeUnits(items[1..], i - 1, item, v);
      assert items[i := item][1..] == items[1..][i - 1 := item];
    }
  }

  /** Units an admin edit of an item adds to the order without moving them from the shelf. */
  function EditCorrection(t: Tables, id: OrderId, i: nat, e: ItemEdit, v: VariantId): int {
    if ItemUpdated(t, id, i, e).Throws? then 0
    else
      var item := t.orders[id].items[i];
      if item.variant == v && e.quantity.Some? && !e.returnToStock then e.quantity.value - item.quantity else 0
  }

  lemma EditItemLedger(t: Tables, id: OrderId, i: nat, e: ItemEdit, v: VariantId)
    requires v in t.stock && ItemUpdated(t, id, i, e).Returns?
    ensures var r := ItemUpdated(t, id, i, e).value.0;
            v in r.stock && Ledger(r, v) == Ledger(t, v) + EditCorrection(t, id, i, e, v)
  {
    var o := t.orders[id];
    var item := o.items[i];
    var edited := WithItem(o, i, EditedItem(item, e));
    ItemChangeUnits(o.items, i, EditedItem(item, e), v);
    OrderUnitsChange(t.orders, id, WithMoney(edited, Recalculated(edited, NO_OVERRIDES).value), v);
    if StockDelta(item, e) >= 0 { UnitsOfOne(Line(item.variant, StockDelta(item, e)), v); }
  }

  /** Units of a deleted item that were not returned to the shelf. */
  function DropItemCorrection(t: Tables, id: OrderId, i: nat, returnToStock: bool, v: VariantId): int {
    if returnToStock || ItemDeleted(t, id, i, returnToStock).Throws? then 0 else 0 - ItemUnits(t.orders[id].items[i], v)
  }

  lemma DropItemLedger(t: Tables, id: OrderId, i: nat, returnToStock: bool, v: VariantId)
    requires v in t.stock && ItemDeleted(t, id, i, returnToStock).Returns?
    ensures var r := ItemDeleted(t, id, i, returnToStock).value.0;
            v in r.stock && Ledger(r, v) == Ledger(t, v) + DropItemCorrection(t, id, i, returnToStock, v)
  {
    var o := t.orders[id];
    var edited := WithItem(o, i, o.items[i].(isDeleted := true));
    ItemChangeUnits(o.items, i, o.items[i].(isDeleted := true), v);
    OrderUnitsChange(t.orders, id, WithMoney(edited, Recalculated(edited, NO_OVERRIDES).value), v);
    UnitsOfOne(Line(o.items[i].variant, o.items[i].quantity), v);
  }

  /** Units of a deleted paid order that were not returned to the shelf. */
  function DropOrderCorrection(t: Tables, id: OrderId, returnToStock: bool, v: VariantId): int {
    if returnToStock || OrderDeleted(t, id, returnToStock).Throws? then 0 else 0 - HeldUnits(t.orders[id], v)
  }

  lemma DropOrderLedger(t: Tables, id: OrderId, returnToStock: bool, v: VariantId)
    requires v in t.stock && OrderDeleted(t, id, returnToStock).Returns?
    ensures var r := OrderDeleted(t, id, returnToStock).value.0;
            v in r.stock && Ledger(r, v) == Ledger(t, v) + DropOrderCorrection(t, id, returnToStock, v)
  {
    var o := t.orders[id];
    OrderUnitsChange(t.orders, id, o.(items := AllDeleted(o.items), isDeleted := true), v);
  }

  /** The signed change a reduction makes to the units of an order that holds any; it never touches the shelf. */
  function ReductionCorrection(t: Tables, id: OrderId, p: Plan, v: VariantId): int {
    if id in t.orders && Holds(t.orders[id])
    then Units(LiveLines(ApplyChanges(t.orders[id].items, p.changes)), v) - Units(LiveLines(t.orders[id].items), v) else 0
  }

  lemma ReductionLedger(t: Tables, id: OrderId, p: Plan, v: VariantId)
    requires v in t.stock && id in t.orders && id in t.attempts
    ensures var r := ReductionCommitted(t, id, p);
            v in r.stock && Ledger(r, v) == Ledger(t, v) + ReductionCorrection(t, id, p, v)
  {
    OrderUnitsChange(t.orders, id, CommitPlan(t.orders[id], p), v);
  }

  lemma OrderWriteLedger(t: Tables, id: OrderId, o: Order, v: VariantId)
    requires v in t.stock && id in t.orders && HeldUnits(o, v) == HeldUnits(t.orders[id], v)
    ensures Ledger(t.(orders := t.orders[id := o]), v) == Ledger(t, v)
  {
    OrderUnitsChange(t.orders, id, o, v);
  }

  // ------------------------------------------------------------- the law

  function BasketCorrection(w: World, b: BasketStep, v: VariantId): int {
    match b
    case UpsertRow(k, u, q) => if v == u && Upserted(w.t, w.now, k, u, q).Returns? then StaleQuantity(w.t, k, u) else 0
    case _ => 0
  }

  function CheckoutCorrection(w: World, c: CheckoutStep, v: VariantId): int {
    match c
    case RefuseCheckout(id) =>
      if id in w.t.orders then RestoreCorrection(w.t, w.t.orders[id].owner, LiveLines(w.t.orders[id].items), v) else 0
    case _ => 0
  }

  function PaymentCorrection(w: World, p: PaymentStep, v: VariantId): int {
    match p
    case CallbackFail(id) => if Known(w, id) && id in w.callbacks then AbandonCorrection(w.t, id, v) else 0
    case SnappFail(id, status) =>
      if Known(w, id) && HasVerdict(w, id, Fail(status)) then AbandonCorrection(w.t, id, v) else 0
    case CallbackSettle(id) => if SettleEnabled(w, id) then ShortUnits(w.t, id, v) else 0
    case SnappFinalize(id) =>
      if Known(w, id) && HasVerdict(w, id, Finalize) && !AlreadyPaid(w.t, id) then ShortUnits(w.t, id, v) else 0
    case _ => 0
  }

  function AdminCorrection(w: World, a: AdminStep, v: VariantId): int {
    match a
    case EditItem(id, i, edit) => EditCorrection(w.t, id, i, edit, v)
    case DropItem(id, i, returnToStock) => DropItemCorrection(w.t, id, i, returnToStock, v)
    case DropOrder(id, returnToStock) => DropOrderCorrection(w.t, id, returnToStock, v)
    case WriteReduction(pending) =>
      if pending in w.plans && Known(w, pending.id) then ReductionCorrection(w.t, pending.id, pending.plan, v) else 0
    case _ => 0
  }

  /** How far one step moves the ledger of a variant; zero for every step not listed. */
  function StepCorrection(w: World, e: Step, v: VariantId): int {
    match e
    case Tick(_) => 0
    case OnBasket(b) => BasketCorrection(w, b, v)
    case OnCheckout(c) => CheckoutCorrection(w, c, v)
    case OnPayment(p) => PaymentCorrection(w, p, v)
    case OnAdmin(a) => AdminCorrection(w, a, v)
    case OnSale(_) => 0
  }

  lemma UpsertStepLedger(w: World, k: BasketId, u: VariantId, q: int, v: VariantId)
    requires v in w.t.stock
    ensures var n := NextBasket(w, UpsertRow(k, u, q));
            v in n.t.stock && Ledger(n.t, v) == Ledger(w.t, v) + BasketCorrection(w, UpsertRow(k, u, q), v)
  {
    if Upserted(w.t, w.now, k, u, q).Returns? { UpsertLedger(w.t, w.now, k, u, q, v); }
  }

  lemma UpdateStepLedger(w: World, k: BasketId, u: VariantId, q: nat, v: VariantId)
    requires v in w.t.stock
    ensures var n := NextBasket(w, UpdateRow(k, u, q)); v in n.t.stock && Ledger(n.t, v) == Ledger(w.t, v)
  {
    if Updated(w.t, w.now, k, u, q).Returns? { UpdateLedger(w.t, w.now, k, u, q, v); }
  }

  lemma SweepStepLedger(w: World, row: ExpiredRow, v: VariantId)
    requires v in w.t.stock && SweepsFresh(w)
    ensures var n := NextBasket(w, SweepClaim(row)); v in n.t.stock && Ledger(n.t, v) == Ledger(w.t, v)
  {
    if row in w.sweeps { SweptConserves(w.t, row, v); }
  }

  lemma BasketStepLedger(w: World, b: BasketStep, v: VariantId)
    requires v in w.t.stock && SweepsFresh(w)
    ensures v in NextBasket(w, b).t.stock
    ensures Ledger(NextBasket(w, b).t, v) == Ledger(w.t, v) + BasketCorrection(w, b, v)
  {
    match b
    case UpsertRow(k, u, q) => UpsertStepLedger(w, k, u, q, v);
    case UpdateRow(k, u, q) => UpdateStepLedger(w, k, u, q, v);
    case RemoveRow(k, u) => RemoveLedger(w.t, k, u, v);
    case SweepClaim(row) => SweepStepLedger(w, row, v);
    case OpenBasket(u) =>
    case SweepRead(k, u) =>
    case Reprice(u, product) =>
  }

  lemma PlacedLedger(w: World, req: CheckoutRequest, stale: seq<OrderId>, picked: seq<VariantId>, v: VariantId)
    requires v in w.t.stock
    ensures var n := Placed(w, req, stale, picked); v in n.t.stock && Ledger(n.t, v) == Ledger(w.t, v)
  {
    if CheckoutEnabled(w, req, stale, picked) && CheckedOut(w.t, w.now, req, stale, picked).Returns? {
      CheckoutLedger(w, req, stale, picked, v);
    }
  }

  lemma CheckoutStepLedger(w: World, c: CheckoutStep, v: VariantId)
    requires v in w.t.stock
    ensures v in NextCheckout(w, c).t.stock
    ensures Ledger(NextCheckout(w, c).t, v) == Ledger(w.t, v) + CheckoutCorrection(w, c, v)
  {
    match c
    case SweepOrder(id) => ReleaseConserves(w.t, id, v);
    case PlaceCheckout(req, stale, picked) => PlacedLedger(w, req, stale, picked, v);
    case RefuseCheckout(id) => if id in w.t.orders { RefuseLedger(w.t, w.now, id, v); }
    case CompleteLocally(id, voucher) => PaidLocallyLedger(w.t, id, voucher, v);
    case StoreToken(id) => SameUnits(w.t, NextCheckout(w, c).t, v);
  }

  lemma FinalizedLedger(t: Tables, id: OrderId, v: VariantId)
    requires v in t.stock && id in t.orders && id in t.attempts
    ensures v in Finalized(t, id).stock
    ensures Ledger(Finalized(t, id), v) == Ledger(t, v) + if AlreadyPaid(t, id) then 0 else ShortUnits(t, id, v)
  {
    if AlreadyPaid(t, id) {
      SameUnits(t, WithGatewayStatus(t, id, RemoteSettle), v);
    } else {
      SettledLedger(t, id, Some(RemoteSettle), v);
    }
  }

  lemma SnappFailedLedger(t: Tables, now: Time, id: OrderId, status: GatewayStatus, v: VariantId)
    requires v in t.stock
    ensures v in SnappFailed(t, now, id, status).stock
    ensures Ledger(SnappFailed(t, now, id, status), v) == Ledger(t, v) + AbandonCorrection(t, id, v)
  {
    AbandonLedger(t, now, id, v);
    SameUnits(Abandoned(t, now, id), SnappFailed(t, now, id, status), v);
  }

  lemma SettleStepLedger(w: World, id: OrderId, v: VariantId)
    requires v in w.t.stock
    ensures var p := CallbackSettle(id);
            v in NextPayment(w, p).t.stock &&
            Ledger(NextPayment(w, p).t, v) == Ledger(w.t, v) + PaymentCorrection(w, p, v)
  {
    if Known(w, id) { SettledLedger(w.t, id, None, v); }
  }

  lemma FinalizeStepLedger(w: World, id: OrderId, v: VariantId)
    requires v in w.t.stock
    ensures var p := SnappFinalize(id);
            v in NextPayment(w, p).t.stock &&
            Ledger(NextPayment(w, p).t, v) == Ledger(w.t, v) + PaymentCorrection(w, p, v)
  {
    if Known(w, id) { FinalizedLedger(w.t, id, v); }
  }

  lemma CallbackFailLedger(w: World, id: OrderId, v: VariantId)
    requires v in w.t.stock
    ensures var p := CallbackFail(id);
            v in NextPayment(w, p).t.stock &&
            Ledger(NextPayment(w, p).t, v) == Ledger(w.t, v) + PaymentCorrection(w, p, v)
  {
    if Known(w, id) && id in w.callbacks { AbandonLedger(w.t, w.now, id, v); }
  }

  lemma SnappFailLedger(w: World, id: OrderId, status: GatewayStatus, v: VariantId)
    requires v in w.t.stock
    ensures var p := SnappFail(id, status);
            v in NextPayment(w, p).t.stock &&
            Ledger(NextPayment(w, p).t, v) == Ledger(w.t, v) + PaymentCorrection(w, p, v)
  {
    if Known(w, id) && HasVerdict(w, id, Fail(status)) { SnappFailedLedger(w.t, w.now, id, status, v); }
  }

  /** Claims, talks and marks write attempts at most. */
  lemma TalkStepLedger(w: World, p: PaymentStep, v: VariantId)
    requires v in w.t.stock && !p.CallbackSettle? && !p.CallbackFail? && !p.SnappFinalize? && !p.SnappFail?
    ensures v in NextPayment(w, p).t.stock
    ensures Ledger(NextPayment(w, p).t, v) == Ledger(w.t, v) && PaymentCorrection(w, p, v) == 0
  {
    SameUnits(w.t, NextPayment(w, p).t, v);
  }

  lemma PaymentStepLedger(w: World, p: PaymentStep, v: VariantId)
    requires v in w.t.stock
    ensures v in NextPayment(w, p).t.stock
    ensures Ledger(NextPayment(w, p).t, v) == Ledger(w.t, v) + PaymentCorrection(w, p, v)
  {
    match p
    case CallbackSettle(id) => SettleStepLedger(w, id, v);
    case SnappFinalize(id) => FinalizeStepLedger(w, id, v);
    case CallbackFail(id) => CallbackFailLedger(w, id, v);
    case SnappFail(id, status) => SnappFailLedger(w, id, status, v);
    case _ => TalkStepLedger(w, p, v);
  }

  lemma EditOrderLedger(t: Tables, id: OrderId, ov: Overrides, v: VariantId)
    requires v in t.stock && OrderUpdated(t, id, ov).Returns?
    ensures var r := OrderUpdated(t, id, ov).value.0; v in r.stock && Ledger(r, v) == Ledger(t, v)
  {
    OrderWriteLedger(t, id, WithMoney(t.orders[id], Recalculated(t.orders[id], ov).value), v);
  }

  lemma CancelLedger(t: Tables, id: OrderId, v: VariantId)
    requires v in t.stock && id in t.attempts
    ensures Ledger(CanceledRemotely(t, id), v) == Ledger(t, v)
  {
    if id in t.orders { OrderUnitsChange(t.orders, id, t.orders[id].(orderStatus := Canceled), v); }
  }

  lemma StatusLedger(t: Tables, id: OrderId, to: OrderStatus, v: VariantId)
    requires v in t.stock
    ensures Ledger(StatusWritten(t, id, to), v) == Ledger(t, v)
  {
    if id in t.orders { OrderUnitsChange(t.orders, id, t.orders[id].(orderStatus := to), v); }
  }

  lemma EditOrderStepLedger(w: World, id: OrderId, ov: Overrides, v: VariantId)
    requires v in w.t.stock
    ensures var n := NextAdmin(w, EditOrder(id, ov)); v in n.t.stock && Ledger(n.t, v) == Ledger(w.t, v)
  {
    if OrderUpdated(w.t, id, ov).Returns? { EditOrderLedger(w.t, id, ov, v); }
  }

  lemma EditStepLedger(w: World, id: OrderId, i: nat, edit: ItemEdit, v: VariantId)
    requires v in w.t.stock
    ensures var a := EditItem(id, i, edit);
            v in NextAdmin(w, a).t.stock &&
            Ledger(NextAdmin(w, a).t, v) == Ledger(w.t, v) + AdminCorrection(w, a, v)
  {
    if ItemUpdated(w.t, id, i, edit).Returns? { EditItemLedger(w.t, id, i, edit, v); }
  }

  lemma DropItemStepLedger(w: World, id: OrderId, i: nat, returned: bool, v: VariantId)
    requires v in w.t.stock
    ensures var a := DropItem(id, i, returned);
            v in NextAdmin(w, a).t.stock &&
            Ledger(NextAdmin(w, a).t, v) == Ledger(w.t, v) + AdminCorrection(w, a, v)
  {
    if ItemDeleted(w.t, id, i, returned).Returns? { DropItemLedger(w.t, id, i, returned, v); }
  }

  lemma DropOrderStepLedger(w: World, id: OrderId, returned: bool, v: VariantId)
    requires v in w.t.stock
    ensures var a := DropOrder(id, returned);
            v in NextAdmin(w, a).t.stock &&
            Ledger(NextAdmin(w, a).t, v) == Ledger(w.t, v) + AdminCorrection(w, a, v)
  {
    if OrderDeleted(w.t, id, returned).Returns? { DropOrderLedger(w.t, id, returned, v); }
  }

  lemma ReductionStepLedger(w: World, pending: PendingPlan, v: VariantId)
    requires v in w.t.stock
    ensures var a := WriteReduction(pending);
            v in NextAdmin(w, a).t.stock &&
            Ledger(NextAdmin(w, a).t, v) == Ledger(w.t, v) + AdminCorrection(w, a, v)
  {
    if pending in w.plans && Known(w, pending.id) {
      ReductionLedger(w.t, pending.id, pending.plan, v);
    } else {
      assert NextAdmin(w, WriteReduction(pending)) == w;
    }
  }

  lemma AdminStepLedger(w: World, a: AdminStep, v: VariantId)
    requires v in w.t.stock
    ensures v in NextAdmin(w, a).t.stock
    ensures Ledger(NextAdmin(w, a).t, v) == Ledger(w.t, v) + AdminCorrection(w, a, v)
  {
    match a
    case CheckStatus(id, to) =>
    case WriteStatus(id, to) => StatusLedger(w.t, id, to, v);
    case EditOrder(id, ov) => EditOrderStepLedger(w, id, ov, v);
    case EditItem(id, i, edit) => EditStepLedger(w, id, i, edit, v);
    case DropItem(id, i, returned) => DropItemStepLedger(w, id, i, returned, v);
    case DropOrder(id, returned) => DropOrderStepLedger(w, id, returned, v);
    case CancelRead(id) =>
    case CancelCall(id, _) =>
    case CancelWrite(id) => if Known(w, id) { CancelLedger(w.t, id, v); }
    case ReadReduction(id, q) =>
    case WriteReduction(pending) => ReductionStepLedger(w, pending, v);
  }

  lemma NewSaleLedger(t: Tables, sale: SaleId, items: seq<SaleItem>, discount: nat, v: VariantId)
    requires v in t.stock && StockNonNegative(t) && sale !in t.sales && SaleCreated(t, sale, items, discount).Returns?
    ensures var r := SaleCreated(t, sale, items, discount).value; v in r.stock && Ledger(r, v) == Ledger(t, v)
  {
    assert AddLines(t.stock, SaleLines([])) == t.stock;
    TakingConserves(t, items, [], sale, SaleOf(items, discount), v);
  }

  lemma ChangeSaleLedger(t: Tables, sale: SaleId, items: seq<SaleItem>, discount: nat, v: VariantId)
    requires v in t.stock && StockNonNegative(t) && SaleUpdated(t, sale, items, discount).Returns?
    ensures var r := SaleUpdated(t, sale, items, discount).value; v in r.stock && Ledger(r, v) == Ledger(t, v)
  {
    TakingConserves(t, items, t.sales[sale].items, sale, SaleOf(items, discount), v);
  }

  lemma DropSaleLedger(t: Tables, sale: SaleId, v: VariantId)
    requires v in t.stock && SaleRemoved(t, sale).Returns?
    ensures var r := SaleRemoved(t, sale).value; v in r.stock && Ledger(r, v) == Ledger(t, v)
  {
    SaleUnitsChange(t.sales, sale, t.sales[sale].(isDeleted := true), v);
  }

  lemma EventPaidLedger(t: Tables, payment: EventPaymentId, sale: SaleId, v: VariantId)
    requires v in t.stock && sale !in t.sales
    ensures v in EventPaid(t, payment, sale).stock && Ledger(EventPaid(t, payment, sale), v) == Ledger(t, v)
  {
    if payment in t.eventPayments && t.eventPayments[payment].status != Captured && t.eventPayments[payment].sale.None? {
      var empty := Sale([], t.eventPayments[payment].amount, 0, t.eventPayments[payment].amount, false);
      assert SoldUnits(empty, v) == 0;
      SaleUnitsChange(t.sales, sale, empty, v);
    } else {
      SameUnits(t, EventPaid(t, payment, sale), v);
    }
  }

  lemma AssignLedger(t: Tables, payment: EventPaymentId, items: seq<SaleItem>, sale: SaleId, v: VariantId)
    requires v in t.stock && StockNonNegative(t) && sale !in t.sales && Assigned(t, payment, items, sale).Returns?
    ensures var r := Assigned(t, payment, items, sale).value; v in r.stock && Ledger(r, v) == Ledger(t, v)
  {
    var id := HeldSale(t, payment).GetOr(sale);
    TakingConserves(t, items, HeldItems(t, payment), id, AssignedSale(items, t.eventPayments[payment].amount), v);
  }

  lemma SaleStepLedger(w: World, s: SaleStep, v: VariantId)
    requires v in w.t.stock && StockNonNegative(w.t)
    ensures v in NextSale(w, s).t.stock
    ensures Ledger(NextSale(w, s).t, v) == Ledger(w.t, v)
  {
    match s
    case NewSale(sale, items, discount) =>
      if sale !in w.t.sales && SaleCreated(w.t, sale, items, discount).Returns? {
        NewSaleLedger(w.t, sale, items, discount, v);
      }
    case ChangeSale(sale, items, discount) =>
      if SaleUpdated(w.t, sale, items, discount).Returns? { ChangeSaleLedger(w.t, sale, items, discount, v); }
    case DropSale(sale) => if SaleRemoved(w.t, sale).Returns? { DropSaleLedger(w.t, sale, v); }
    case OpenEventPayment(payment, amount) =>
    case PayEvent(payment, sale) => if sale !in w.t.sales { EventPaidLedger(w.t, payment, sale, v); }
    case FailEvent(payment) =>
    case AssignSale(payment, items, sale) =>
      if sale !in w.t.sales && Assigned(w.t, payment, items, sale).Returns? {
        AssignLedger(w.t, payment, items, sale, v);
      }
  }

  // --------------------------------------------------- stock stays non-negative

  lemma {:induction false} ReleasedAllNonNegative(t: Tables, ids: seq<OrderId>)
    requires StockNonNegative(t)
    ensures StockNonNegative(ReleasedAll(t, ids))
    decreases |ids|
  {
    if ids != [] { ReleasedAllNonNegative(Released(t, ids[0]), ids[1..]); }
  }

  lemma TakenNonNegative(stock: map<VariantId, int>, lines: seq<Line>)
    requires forall v :: v in stock ==> stock[v] >= 0
    ensures TakenInOrder(stock, lines).Returns? ==>
              forall v :: v in TakenInOrder(stock, lines).value ==> TakenInOrder(stock, lines).value[v] >= 0
  {
  }

  lemma BasketStepNonNegative(w: World, b: BasketStep)
    requires StockNonNegative(w.t)
    ensures StockNonNegative(NextBasket(w, b).t)
  {
  }

  lemma CheckoutStepNonNegative(w: World, c: CheckoutStep)
    requires StockNonNegative(w.t)
    ensures StockNonNegative(NextCheckout(w, c).t)
  {
    if c.PlaceCheckout? { ReleasedAllNonNegative(w.t, c.stale); }
  }

  lemma SettledNonNegative(t: Tables, id: OrderId, status: Option<GatewayStatus>)
    requires StockNonNegative(t) && id in t.orders && id in t.attempts
    ensures StockNonNegative(Settled(t, id, status))
  {
  }

  lemma ReleasedNonNegative(t: Tables, id: OrderId)
    requires StockNonNegative(t)
    ensures StockNonNegative(Released(t, id))
  {
  }

  lemma PaymentStepNonNegative(w: World, p: PaymentStep)
    requires StockNonNegative(w.t)
    ensures StockNonNegative(NextPayment(w, p).t)
  {
    match p
    case CallbackSettle(id) => if Known(w, id) { SettledNonNegative(w.t, id, None); }
    case SnappFinalize(id) => if Known(w, id) { SettledNonNegative(w.t, id, Some(RemoteSettle)); }
    case CallbackFail(id) => ReleasedNonNegative(w.t, id);
    case SnappFail(id, _) => ReleasedNonNegative(w.t, id);
    case _ => assert NextPayment(w, p).t.stock == w.t.stock;
  }

  lemma AdminStepNonNegative(w: World, a: AdminStep)
    requires StockNonNegative(w.t)
    ensures StockNonNegative(NextAdmin(w, a).t)
  {
  }

  lemma SaleStepNonNegative(w: World, s: SaleStep)
    requires StockNonNegative(w.t)
    ensures StockNonNegative(NextSale(w, s).t)
  {
    match s
    case NewSale(sale, items, discount) => TakenNonNegative(w.t.stock, SaleLines(items));
    case ChangeSale(sale, items, discount) =>
      if LiveSale(w.t, sale) {
        TakenNonNegative(AddLines(w.t.stock, SaleLines(w.t.sales[sale].items)), SaleLines(items));
      }
    case AssignSale(payment, items, sale) =>
      TakenNonNegative(AddLines(w.t.stock, SaleLines(HeldItems(w.t, payment))), SaleLines(items));
    case _ =>
  }

  // --------------------------------------------------------------- whole runs

  ghost predicate StockSafe(w: World) {
    StockNonNegative(w.t) && SweepsFresh(w)
  }

  lemma StepKeepsStockSafe(w: World, e: Step)
    requires StockSafe(w)
    ensures StockSafe(Next(w, e))
  {
    StepKeepsSweepsFresh(w, e);
    match e
    case Tick(ms) =>
    case OnBasket(b) => BasketStepNonNegative(w, b);
    case OnCheckout(c) => CheckoutStepNonNegative(w, c);
    case OnPayment(p) => PaymentStepNonNegative(w, p);
    case OnAdmin(a) => AdminStepNonNegative(w, a);
    case OnSale(s) => SaleStepNonNegative(w, s);
  }

  lemma StepLedger(w: World, e: Step, v: VariantId)
    requires v in w.t.stock && StockSafe(w)
    ensures v in Next(w, e).t.stock && Ledger(Next(w, e).t, v) == Ledger(w.t, v) + StepCorrection(w, e, v)
  {
    match e
    case Tick(ms) =>
    case OnBasket(b) => BasketStepLedger(w, b, v);
    case OnCheckout(c) => CheckoutStepLedger(w, c, v);
    case OnPayment(p) => PaymentStepLedger(w, p, v);
    case OnAdmin(a) => AdminStepLedger(w, a, v);
    case OnSale(s) => SaleStepLedger(w, s, v);
  }

  /** No stock ever goes below zero. */
  lemma {:induction false} StockStaysSafe(w: World, es: seq<Step>)
    requires StockSafe(w)
    ensures StockSafe(Run(w, es))
    decreases |es|
  {
    if es != [] {
      StepKeepsStockSafe(w, es[0]);
      StockStaysSafe(Next(w, es[0]), es[1..]);
    }
  }

  /** The corrections of a run, added up. */
  ghost function Correction(w: World, es: seq<Step>, v: VariantId): int
    decreases |es|
  {
    if es == [] then 0 else StepCorrection(w, es[0], v) + Correction(Next(w, es[0]), es[1..], v)
  }

  /**
   After any run, the units of every variant the shop knows of are those it started with plus the run's
   corrections, and no stock is negative.
   */
  lemma {:induction false} ExactStockLaw(w: World, es: seq<Step>, v: VariantId)
    requires v in w.t.stock && StockSafe(w)
    ensures StockSafe(Run(w, es)) && v in Run(w, es).t.stock
    ensures Ledger(Run(w, es).t, v) == Ledger(w.t, v) + Correction(w, es, v)
    decreases |es|
  {
    if es != [] {
      StepKeepsStockSafe(w, es[0]);
      StepLedger(w, es[0], v);
      ExactStockLaw(Next(w, es[0]), es[1..], v);
    }
  }

  /**
   A step that revives no deleted row, restores no basket, resurrects no order that is short, and edits no
   quantity behind the shelf's back.
   */
  ghost predicate Conserving(w: World, e: Step) {
    match e
    case OnBasket(UpsertRow(b, v, _)) => (b, v) in w.t.rows ==> !w.t.rows[(b, v)].isDeleted
    case OnCheckout(RefuseCheckout(id)) => id !in w.t.orders
    case OnPayment(CallbackFail(id)) => !Releasable(w.t, id)
    case OnPayment(SnappFail(id, _)) => !Releasable(w.t, id)
    case OnPayment(CallbackSettle(id)) => forall v :: v in w.t.stock ==> ShortUnits(w.t, id, v) == 0
    case OnPayment(SnappFinalize(id)) => forall v :: v in w.t.stock ==> ShortUnits(w.t, id, v) == 0
    case OnAdmin(EditItem(_, _, edit)) => edit.quantity.None? || edit.returnToStock
    case OnAdmin(DropItem(_, _, returnToStock)) => returnToStock
    case OnAdmin(DropOrder(_, returnToStock)) => returnToStock
    case OnAdmin(WriteReduction(_)) => false
    case _ => true
  }

  ghost predicate ConservingRun(w: World, es: seq<Step>)
    decreases |es|
  {
    es == [] || (Conserving(w, es[0]) && ConservingRun(Next(w, es[0]), es[1..]))
  }

  lemma ConservingStep(w: World, e: Step, v: VariantId)
    requires v in w.t.stock && Conserving(w, e)
    ensures StepCorrection(w, e, v) == 0
  {
  }

  /** Runs of conserving steps conserve every variant exactly. */
  lemma {:induction false} ConservingRunsConserve(w: World, es: seq<Step>, v: VariantId)
    requires v in w.t.stock && StockSafe(w) && ConservingRun(w, es)
    ensures v in Run(w, es).t.stock && Ledger(Run(w, es).t, v) == Ledger(w.t, v)
    decreases |es|
  {
    if es != [] {
      StepKeepsStockSafe(w, es[0]);
      StepLedger(w, es[0], v);
      ConservingStep(w, es[0], v);
      ConservingRunsConserve(Next(w, es[0]), es[1..], v);
    }
  }
}
