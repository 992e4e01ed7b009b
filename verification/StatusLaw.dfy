/**
 Order and payment statuses over whole runs: they always agree, paid is final, a verified payment is never
 lost, no order is announced as paid twice, and a Snapp Pay order is only paid once Snapp Pay settled it.
 */
module StatusLaw {
  import opened Wrappers
  import opened ShopTables
  import opened OrderReservation
  import opened OrderMoney
  import opened Basket
  import opened Payment
  import opened OrderAdmin
  import opened ShopRuns
  import opened SnappPay

  /** What holds of every order and its attempt at any time. */
  predicate SoundOrder(o: Order, a: Attempt) {
    && Agree(o, a)
    && (o.isDeleted ==> o.paymentStatus != Pending)
    && (o.orderStatus == OrderPaid ==> o.paymentStatus == Paid)
    && (o.paymentStatus != Paid ==> a.amount == o.payable)
  }

  ghost predicate Sound(t: Tables) {
    && (forall id :: id in t.orders <==> id in t.attempts)
    && (forall id :: id in t.orders ==> SoundOrder(t.orders[id], t.attempts[id]))
  }

  /** What one step may do to an order: paid is final, and an unpaid order keeps its price, also for the gateway. */
  predicate OrderMoves(o: Order, a: Attempt, o': Order, a': Attempt) {
    && a'.provider == a.provider && o'.owner == o.owner && o'.code == o.code
    && (a.gatewayStatus.Some? ==> a'.gatewayStatus.Some?)
    && (if o.paymentStatus == Paid then o'.paymentStatus == Paid && a'.reference == a.reference
        else o'.payable == o.payable && a'.amount == a.amount && (o'.paymentStatus == Paid ==> a'.reference != NoReference))
  }

  ghost predicate Moves(t: Tables, t': Tables)
    requires Sound(t)
  {
    && Sound(t')
    && (forall id :: id in t.orders ==>
                       id in t'.orders && OrderMoves(t.orders[id], t.attempts[id], t'.orders[id], t'.attempts[id]))
  }

  /** It is enough to look at the one order that was written. */
  lemma OneOrderMoves(t: Tables, t': Tables, id: OrderId)
    requires Sound(t) && id in t.orders && id in t'.orders && id in t'.attempts
    requires t'.orders == t.orders[id := t'.orders[id]] && t'.attempts == t.attempts[id := t'.attempts[id]]
    requires SoundOrder(t'.orders[id], t'.attempts[id])
    requires OrderMoves(t.orders[id], t.attempts[id], t'.orders[id], t'.attempts[id])
    ensures Moves(t, t')
  {
  }

  lemma SameOrdersMove(t: Tables, t': Tables)
    requires Sound(t) && t'.orders == t.orders && t'.attempts == t.attempts
    ensures Moves(t, t')
  {
  }

  // ------------------------------------------------------------ table writers

  lemma ReleasedMoves(t: Tables, id: OrderId)
    requires Sound(t)
    ensures Moves(t, Released(t, id))
  {
    if Releasable(t, id) { OneOrderMoves(t, Released(t, id), id); } else { SameOrdersMove(t, Released(t, id)); }
  }

  lemma ReleasedAllMoves(t: Tables, ids: seq<OrderId>)
    requires Sound(t)
    ensures Moves(t, ReleasedAll(t, ids))
  {
    var r := ReleasedAll(t, ids);
    ReleasedAllKeys(t, ids);
    forall id ensures id in r.orders <==> id in r.attempts {
      assert id in r.orders.Keys <==> id in t.orders.Keys;
      assert id in r.attempts.Keys <==> id in t.attempts.Keys;
    }
    forall id | id in t.orders
      ensures SoundOrder(r.orders[id], r.attempts[id])
      ensures OrderMoves(t.orders[id], t.attempts[id], r.orders[id], r.attempts[id])
    {
      assert SoundOrder(t.orders[id], t.attempts[id]);
      ReleasedAllOrder(t, ids, id);
    }
    forall id | id in r.orders ensures SoundOrder(r.orders[id], r.attempts[id]) {
      assert id in r.orders.Keys;
    }
  }

  lemma AbandonedMoves(t: Tables, now: Time, id: OrderId)
    requires Sound(t)
    ensures Moves(t, Abandoned(t, now, id))
  {
    var r := Abandoned(t, now, id);
    if Releasable(t, id) {
      assert r.orders == Released(t, id).orders && r.attempts == Released(t, id).attempts;
      OneOrderMoves(t, r, id);
    } else {
      SameOrdersMove(t, r);
    }
  }

  lemma RefusedMoves(t: Tables, now: Time, id: OrderId)
    requires Sound(t) && id in t.orders
    ensures Moves(t, Refused(t, now, id))
  {
    var r := Refused(t, now, id);
    assert r.orders == Released(t, id).orders && r.attempts == Released(t, id).attempts;
    if Releasable(t, id) { OneOrderMoves(t, r, id); } else { SameOrdersMove(t, r); }
  }

  lemma CheckedOutMoves(t: Tables, now: Time, req: CheckoutRequest, stale: seq<OrderId>, picked: seq<VariantId>)
    requires Sound(t) && req.newId !in t.orders && CheckedOut(t, now, req, stale, picked).Returns?
    ensures Moves(t, CheckedOut(t, now, req, stale, picked).value)
  {
    ReleasedAllMoves(t, stale);
  }

  lemma PaidLocallyMoves(t: Tables, id: OrderId, voucher: Reference)
    requires Sound(t) && id in t.orders && voucher != NoReference
    ensures Moves(t, PaidLocally(t, id, voucher))
  {
  }

  lemma SettledMoves(t: Tables, id: OrderId, status: Option<GatewayStatus>)
    requires Sound(t) && id in t.orders
    ensures Moves(t, Settled(t, id, status))
  {
    var o, a := t.orders[id], t.attempts[id];
    assert SoundOrder(o, a);
    assert SoundOrder(SettledOrder(o), SettledAttempt(o, a, status));
    OneOrderMoves(t, Settled(t, id, status), id);
  }

  lemma GatewayStatusMoves(t: Tables, id: OrderId, status: GatewayStatus)
    requires Sound(t)
    ensures Moves(t, WithGatewayStatus(t, id, status))
  {
    if id in t.attempts { OneOrderMoves(t, WithGatewayStatus(t, id, status), id); }
    else { SameOrdersMove(t, WithGatewayStatus(t, id, status)); }
  }

  lemma SnappFailedMoves(t: Tables, now: Time, id: OrderId, status: GatewayStatus)
    requires Sound(t) && id in t.orders
    ensures Moves(t, SnappFailed(t, now, id, status))
  {
    AbandonedMoves(t, now, id);
    GatewayWriteMoves(t, Abandoned(t, now, id), id, status);
  }

  lemma GatewayWriteMoves(t: Tables, t1: Tables, id: OrderId, status: GatewayStatus)
    requires Sound(t) && Moves(t, t1)
    ensures Moves(t, WithGatewayStatus(t1, id, status))
  {
  }

  // ---------------------------------------------------------------- steps

  /** A status change past its check: PAID was only allowed for an order that was already paid. */
  predicate ChecksHold(w: World) {
    forall c :: c in w.statusChecks ==>
                  c.0 in w.t.orders && (c.1 == OrderPaid ==> w.t.orders[c.0].paymentStatus == Paid)
  }

  ghost predicate StatusSafe(w: World) {
    Sound(w.t) && ChecksHold(w)
  }

  lemma BasketStepMoves(w: World, b: BasketStep)
    requires StatusSafe(w)
    ensures Moves(w.t, NextBasket(w, b).t)
  {
  }

  lemma PlacedMoves(w: World, req: CheckoutRequest, stale: seq<OrderId>, picked: seq<VariantId>)
    requires StatusSafe(w)
    ensures Moves(w.t, Placed(w, req, stale, picked).t)
  {
    if CheckoutEnabled(w, req, stale, picked) && CheckedOut(w.t, w.now, req, stale, picked).Returns? {
      CheckedOutMoves(w.t, w.now, req, stale, picked);
    } else {
      SameOrdersMove(w.t, w.t);
    }
  }

  lemma CheckoutStepMoves(w: World, c: CheckoutStep)
    requires StatusSafe(w)
    ensures Moves(w.t, NextCheckout(w, c).t)
  {
    SameOrdersMove(w.t, w.t);
    match c
    case SweepOrder(id) => ReleasedMoves(w.t, id);
    case PlaceCheckout(req, stale, picked) => PlacedMoves(w, req, stale, picked);
    case RefuseCheckout(id) => if id in w.t.orders { RefusedMoves(w.t, w.now, id); }
    case CompleteLocally(id, voucher) => if LocalVoucherAllowed(w, id, voucher) { PaidLocallyMoves(w.t, id, voucher); }
    case StoreToken(id) => if id in w.t.attempts { OneOrderMoves(w.t, NextCheckout(w, c).t, id); }
  }

  lemma ClaimMoves(t: Tables, id: OrderId)
    requires Sound(t)
    ensures Moves(t, ClaimWritten(t, id))
  {
    if Claimable(t, id) { OneOrderMoves(t, ClaimWritten(t, id), id); } else { SameOrdersMove(t, t); }
  }

  lemma FinalizedMoves(t: Tables, id: OrderId)
    requires Sound(t) && id in t.orders
    ensures Moves(t, Finalized(t, id))
  {
    if AlreadyPaid(t, id) { GatewayStatusMoves(t, id, RemoteSettle); } else { SettledMoves(t, id, Some(RemoteSettle)); }
  }

  lemma SnappFinalizeMoves(w: World, id: OrderId)
    requires StatusSafe(w)
    ensures Moves(w.t, NextPayment(w, SnappFinalize(id)).t)
  {
    if Known(w, id) { FinalizedMoves(w.t, id); }
    SameOrdersMove(w.t, w.t);
  }

  lemma SnappFailMoves(w: World, id: OrderId, status: GatewayStatus)
    requires StatusSafe(w)
    ensures Moves(w.t, NextPayment(w, SnappFail(id, status)).t)
  {
    if Known(w, id) { SnappFailedMoves(w.t, w.now, id, status); }
    SameOrdersMove(w.t, w.t);
  }

  lemma SnappMarkMoves(w: World, id: OrderId, status: GatewayStatus)
    requires StatusSafe(w)
    ensures Moves(w.t, NextPayment(w, SnappMark(id, status)).t)
  {
    GatewayStatusMoves(w.t, id, status);
    SameOrdersMove(w.t, w.t);
  }

  lemma PaymentStepMoves(w: World, p: PaymentStep)
    requires StatusSafe(w)
    ensures Moves(w.t, NextPayment(w, p).t)
  {
    match p
    case CallbackSettle(id) => if SettleEnabled(w, id) { SettledMoves(w.t, id, None); } else { SameOrdersMove(w.t, w.t); }
    case CallbackFail(id) => if id in w.callbacks { AbandonedMoves(w.t, w.now, id); } else { SameOrdersMove(w.t, w.t); }
    case SnappClaim(id, _) => ClaimMoves(w.t, id);
    case SnappFinalize(id) => SnappFinalizeMoves(w, id);
    case SnappFail(id, status) => SnappFailMoves(w, id, status);
    case SnappMark(id, status) => SnappMarkMoves(w, id, status);
    case _ => SameOrdersMove(w.t, w.t);
  }

  lemma ReductionMoves(w: World, pending: PendingPlan)
    requires StatusSafe(w) && PlansOnPaid(w) && pending in w.plans && Known(w, pending.id)
    ensures Moves(w.t, ReductionCommitted(w.t, pending.id, pending.plan))
  {
    assert SoundOrder(w.t.orders[pending.id], w.t.attempts[pending.id]);
    OneOrderMoves(w.t, ReductionCommitted(w.t, pending.id, pending.plan), pending.id);
  }

  /** Reductions are only planned for paid orders. */
  predicate PlansOnPaid(w: World) {
    forall p :: p in w.plans ==> p.id in w.t.orders && w.t.orders[p.id].paymentStatus == Paid
  }

  lemma CancelMoves(t: Tables, id: OrderId)
    requires Sound(t) && id in t.orders
    ensures Moves(t, CanceledRemotely(t, id))
  {
  }

  lemma EditOrderMoves(t: Tables, id: OrderId, ov: Overrides)
    requires Sound(t) && OrderUpdated(t, id, ov).Returns?
    ensures Moves(t, OrderUpdated(t, id, ov).value.0)
  {
  }

  lemma EditItemMoves(t: Tables, id: OrderId, i: nat, edit: ItemEdit)
    requires Sound(t) && ItemUpdated(t, id, i, edit).Returns?
    ensures Moves(t, ItemUpdated(t, id, i, edit).value.0)
  {
  }

  lemma DropItemMoves(t: Tables, id: OrderId, i: nat, returned: bool)
    requires Sound(t) && ItemDeleted(t, id, i, returned).Returns?
    ensures Moves(t, ItemDeleted(t, id, i, returned).value.0)
  {
  }

  lemma DropOrderMoves(t: Tables, id: OrderId, returned: bool)
    requires Sound(t) && OrderDeleted(t, id, returned).Returns?
    ensures Moves(t, OrderDeleted(t, id, returned).value.0)
  {
  }

  lemma StatusWrittenMoves(t: Tables, id: OrderId, to: OrderStatus)
    requires Sound(t) && id in t.orders && (to == OrderPaid ==> t.orders[id].paymentStatus == Paid)
    ensures Moves(t, StatusWritten(t, id, to))
  {
  }

  /** An edit that throws writes nothing. */
  lemma EditStepMoves(w: World, a: AdminStep)
    requires StatusSafe(w) && (a.EditOrder? || a.EditItem? || a.DropItem? || a.DropOrder?)
    ensures Moves(w.t, NextAdmin(w, a).t)
  {
    SameOrdersMove(w.t, w.t);
    match a
    case EditOrder(id, ov) => if OrderUpdated(w.t, id, ov).Returns? { EditOrderMoves(w.t, id, ov); }
    case EditItem(id, i, edit) => if ItemUpdated(w.t, id, i, edit).Returns? { EditItemMoves(w.t, id, i, edit); }
    case DropItem(id, i, returned) => if ItemDeleted(w.t, id, i, returned).Returns? { DropItemMoves(w.t, id, i, returned); }
    case DropOrder(id, returned) => if OrderDeleted(w.t, id, returned).Returns? { DropOrderMoves(w.t, id, returned); }
    case _ =>
  }

  lemma WriteStatusMoves(w: World, id: OrderId, to: OrderStatus)
    requires StatusSafe(w)
    ensures Moves(w.t, NextAdmin(w, WriteStatus(id, to)).t)
  {
    if (id, to) in w.statusChecks { StatusWrittenMoves(w.t, id, to); } else { SameOrdersMove(w.t, w.t); }
  }

  lemma CancelWriteMoves(w: World, id: OrderId)
    requires StatusSafe(w)
    ensures Moves(w.t, NextAdmin(w, CancelWrite(id)).t)
  {
    if Known(w, id) { CancelMoves(w.t, id); }
    SameOrdersMove(w.t, w.t);
  }

  lemma WriteReductionMoves(w: World, pending: PendingPlan)
    requires StatusSafe(w) && PlansOnPaid(w)
    ensures Moves(w.t, NextAdmin(w, WriteReduction(pending)).t)
  {
    var t' := NextAdmin(w, WriteReduction(pending)).t;
    if pending in w.plans && Known(w, pending.id) {
      assert t' == ReductionCommitted(w.t, pending.id, pending.plan);
      ReductionMoves(w, pending);
    } else {
      assert t' == w.t;
      SameOrdersMove(w.t, w.t);
    }
  }

  /** Reads and calls write no table. */
  predicate WritesNothing(a: AdminStep) {
    a.CheckStatus? || a.CancelRead? || a.CancelCall? || a.ReadReduction?
  }

  lemma ReadsMoveNothing(w: World, a: AdminStep)
    requires StatusSafe(w) && WritesNothing(a)
    ensures Moves(w.t, NextAdmin(w, a).t)
  {
    SameOrdersMove(w.t, w.t);
  }

  lemma AdminStepMoves(w: World, a: AdminStep)
    requires StatusSafe(w) && PlansOnPaid(w)
    ensures Moves(w.t, NextAdmin(w, a).t)
  {
    match a
    case WriteStatus(id, to) => WriteStatusMoves(w, id, to);
    case CancelWrite(id) => CancelWriteMoves(w, id);
    case WriteReduction(pending) => WriteReductionMoves(w, pending);
    case _ => if WritesNothing(a) { ReadsMoveNothing(w, a); } else { EditStepMoves(w, a); }
  }

  ghost predicate Safe(w: World) {
    StatusSafe(w) && PlansOnPaid(w)
  }

  lemma StepMoves(w: World, e: Step)
    requires Safe(w)
    ensures Moves(w.t, Next(w, e).t)
  {
    match e
    case Tick(ms) => SameOrdersMove(w.t, w.t);
    case OnBasket(b) => BasketStepMoves(w, b);
    case OnCheckout(c) => CheckoutStepMoves(w, c);
    case OnPayment(p) => PaymentStepMoves(w, p);
    case OnAdmin(a) => AdminStepMoves(w, a);
    case OnSale(s) => SameOrdersMove(w.t, NextSale(w, s).t);
  }

  /** The reads a step adds to the world were made on the tables it started from. */
  lemma StepAddsOnlyCheckedReads(w: World, e: Step)
    ensures forall c :: c in Next(w, e).statusChecks && c !in w.statusChecks ==> StatusAllowed(w.t, c.0, c.1)
    ensures forall p :: p in Next(w, e).plans && p !in w.plans ==> Reducible(w.t, p.id)
  {
  }

  lemma StepKeepsSafe(w: World, e: Step)
    requires Safe(w)
    ensures Safe(Next(w, e))
  {
    StepMoves(w, e);
    StepAddsOnlyCheckedReads(w, e);
    var n := Next(w, e);
    forall c | c in n.statusChecks
      ensures c.0 in n.t.orders && (c.1 == OrderPaid ==> n.t.orders[c.0].paymentStatus == Paid)
    {
      assert c.0 in w.t.orders;
      assert OrderMoves(w.t.orders[c.0], w.t.attempts[c.0], n.t.orders[c.0], n.t.attempts[c.0]);
    }
    forall p | p in n.plans ensures p.id in n.t.orders && n.t.orders[p.id].paymentStatus == Paid {
      assert p.id in w.t.orders && SoundOrder(w.t.orders[p.id], w.t.attempts[p.id]);
      assert OrderMoves(w.t.orders[p.id], w.t.attempts[p.id], n.t.orders[p.id], n.t.attempts[p.id]);
    }
  }
}
