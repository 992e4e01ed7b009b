/**
 Discount codes over whole runs. A code's count moves exactly with the live, unreleased orders carrying it,
 and only resurrections can push it over its cap.
 */
module CodeLaw {
  import opened Wrappers
  import opened ShopTables
  import opened OrderReservation
  import opened OrderMoney
  import opened Basket
  import opened Payment
  import opened OrderAdmin
  import opened ShopRuns
  import opened SnappPay

  /** Uses counted beyond the orders that carry the code now. */
  ghost function Spare(t: Tables, c: Code): int
    requires c in t.codes
  {
    t.codes[c].usedCount - Carriers(t.orders, c)
  }

  /** The code is still there with its cap, and its count moved with its carriers. */
  ghost predicate KeepsCode(t: Tables, t': Tables, c: Code)
    requires c in t.codes
  {
    c in t'.codes && t'.codes[c].maxTotalUses == t.codes[c].maxTotalUses && Spare(t', c) == Spare(t, c)
  }

  lemma SameCarriers(t: Tables, t': Tables, c: Code)
    requires c in t.codes && t'.orders == t.orders && t'.codes == t.codes
    ensures KeepsCode(t, t', c)
  {
  }

  lemma OrderWriteKeepsCode(t: Tables, t': Tables, id: OrderId, c: Code)
    requires c in t.codes && id in t.orders && id in t'.orders
    requires t'.orders == t.orders[id := t'.orders[id]] && t'.codes == t.codes
    requires Carries(t'.orders[id], c) == Carries(t.orders[id], c)
    ensures KeepsCode(t, t', c)
  {
    CarriersChange(t.orders, id, t'.orders[id], c);
  }

  lemma ReleaseKeepsCode(t: Tables, id: OrderId, c: Code)
    requires c in t.codes && Spare(t, c) >= 0
    ensures KeepsCode(t, Released(t, id), c) && Released(t, id).codes[c].usedCount <= t.codes[c].usedCount
  {
    if Releasable(t, id) { CarriersChange(t.orders, id, ReleasedOrder(t.orders[id]), c); }
  }

  lemma {:induction false} ReleasesKeepCode(t: Tables, ids: seq<OrderId>, c: Code)
    requires c in t.codes && Spare(t, c) >= 0
    ensures KeepsCode(t, ReleasedAll(t, ids), c) && ReleasedAll(t, ids).codes[c].usedCount <= t.codes[c].usedCount
    decreases |ids|
  {
    if ids != [] {
      ReleaseKeepsCode(t, ids[0], c);
      ReleasesKeepCode(Released(t, ids[0]), ids[1..], c);
    }
  }

  lemma OrderedKeepsCode(t: Tables, now: Time, req: CheckoutRequest, b: BasketId, items: seq<OrderItem>, c: Code)
    requires c in t.codes && b < |t.baskets| && req.newId !in t.orders && CodeAccepted(t.codes, req.choice)
    ensures KeepsCode(t, Ordered(t, now, req, b, items), c)
  {
    CarriersChange(t.orders, req.newId, NewOrder(req, items, now), c);
  }

  lemma PlacedKeepsCode(w: World, req: CheckoutRequest, stale: seq<OrderId>, picked: seq<VariantId>, c: Code)
    requires c in w.t.codes && Spare(w.t, c) >= 0
    ensures KeepsCode(w.t, Placed(w, req, stale, picked).t, c)
  {
    SameCarriers(w.t, w.t, c);
    if CheckoutEnabled(w, req, stale, picked) && CheckedOut(w.t, w.now, req, stale, picked).Returns? {
      var t1 := ReleasedAll(w.t, stale);
      ReleasesKeepCode(w.t, stale, c);
      ReleasedAllKeys(w.t, stale);
      assert req.newId !in t1.orders.Keys;
      var b := LatestBasket(t1.baskets, req.user, true, |t1.baskets|).value;
      OrderedKeepsCode(t1, w.now, req, b, ItemsOf(t1, b, picked), c);
    }
  }

  lemma SettledKeepsCode(t: Tables, id: OrderId, status: Option<GatewayStatus>, c: Code)
    requires c in t.codes && id in t.orders && id in t.attempts
    ensures KeepsCode(t, Settled(t, id, status), c)
  {
    CarriersChange(t.orders, id, SettledOrder(t.orders[id]), c);
  }

  lemma PaidLocallyKeepsCode(t: Tables, id: OrderId, voucher: Reference, c: Code)
    requires c in t.codes
    ensures KeepsCode(t, PaidLocally(t, id, voucher), c)
  {
    if id in t.orders { CarriersChange(t.orders, id, LocallyPaidOrder(t.orders[id]), c); }
  }

  lemma DeleteKeepsCode(t: Tables, id: OrderId, returned: bool, c: Code)
    requires c in t.codes && Spare(t, c) >= 0 && OrderDeleted(t, id, returned).Returns?
    ensures KeepsCode(t, OrderDeleted(t, id, returned).value.0, c)
  {
    var o := t.orders[id];
    CarriersChange(t.orders, id, o.(items := AllDeleted(o.items), isDeleted := true), c);
  }

  // ---------------------------------------------------------------- steps

  lemma CheckoutStepKeepsCode(w: World, s: CheckoutStep, c: Code)
    requires c in w.t.codes && Spare(w.t, c) >= 0
    ensures KeepsCode(w.t, NextCheckout(w, s).t, c)
  {
    match s
    case SweepOrder(id) => ReleaseKeepsCode(w.t, id, c);
    case PlaceCheckout(req, stale, picked) => PlacedKeepsCode(w, req, stale, picked, c);
    case RefuseCheckout(id) => ReleaseKeepsCode(w.t, id, c);
    case CompleteLocally(id, voucher) => PaidLocallyKeepsCode(w.t, id, voucher, c);
    case StoreToken(id) => SameCarriers(w.t, NextCheckout(w, s).t, c);
  }

  lemma AbandonKeepsCode(t: Tables, now: Time, id: OrderId, c: Code)
    requires c in t.codes && Spare(t, c) >= 0
    ensures KeepsCode(t, Abandoned(t, now, id), c)
  {
    ReleaseKeepsCode(t, id, c);
  }

  lemma FinalizedKeepsCode(t: Tables, id: OrderId, c: Code)
    requires c in t.codes && id in t.orders && id in t.attempts
    ensures KeepsCode(t, Finalized(t, id), c)
  {
    if AlreadyPaid(t, id) { SameCarriers(t, Finalized(t, id), c); } else { SettledKeepsCode(t, id, Some(RemoteSettle), c); }
  }

  lemma PaymentStepKeepsCode(w: World, p: PaymentStep, c: Code)
    requires c in w.t.codes && Spare(w.t, c) >= 0
    ensures KeepsCode(w.t, NextPayment(w, p).t, c)
  {
    SameCarriers(w.t, w.t, c);
    match p
    case CallbackSettle(id) => if Known(w, id) { SettledKeepsCode(w.t, id, None, c); }
    case CallbackFail(id) => AbandonKeepsCode(w.t, w.now, id, c);
    case SnappFinalize(id) => if Known(w, id) { FinalizedKeepsCode(w.t, id, c); }
    case SnappFail(id, status) =>
      AbandonKeepsCode(w.t, w.now, id, c);
      SameCarriers(Abandoned(w.t, w.now, id), SnappFailed(w.t, w.now, id, status), c);
    case _ => SameCarriers(w.t, NextPayment(w, p).t, c);
  }

  predicate WritesSameCode(o: Order, o': Order) {
    Holds(o') == Holds(o) && o'.code == o.code
  }

  /** The order an admin step writes, if it writes one. */
  function EditedId(a: AdminStep): OrderId {
    if a.WriteReduction? then a.pending.id else a.id
  }

  /** Every other admin step writes one order at most, with the code and the statuses that make it count. */
  lemma AdminWritesOneOrder(w: World, a: AdminStep)
    requires !a.DropOrder?
    ensures var t', id := NextAdmin(w, a).t, EditedId(a);
            t'.codes == w.t.codes &&
            (t'.orders == w.t.orders ||
             (id in w.t.orders && id in t'.orders && t'.orders == w.t.orders[id := t'.orders[id]] &&
              WritesSameCode(w.t.orders[id], t'.orders[id])))
  {
  }

  lemma AdminStepKeepsCode(w: World, a: AdminStep, c: Code)
    requires c in w.t.codes && Spare(w.t, c) >= 0
    ensures KeepsCode(w.t, NextAdmin(w, a).t, c)
  {
    var t' := NextAdmin(w, a).t;
    if a.DropOrder? {
      if OrderDeleted(w.t, a.id, a.returnToStock).Returns? { DeleteKeepsCode(w.t, a.id, a.returnToStock, c); }
    } else {
      AdminWritesOneOrder(w, a);
      if t'.orders == w.t.orders {
        SameCarriers(w.t, t', c);
      } else {
        OrderWriteKeepsCode(w.t, t', EditedId(a), c);
      }
    }
  }

  lemma StepKeepsCode(w: World, e: Step, c: Code)
    requires c in w.t.codes && Spare(w.t, c) >= 0
    ensures KeepsCode(w.t, Next(w, e).t, c)
  {
    match e
    case Tick(_) =>
    case OnBasket(b) => SameCarriers(w.t, NextBasket(w, b).t, c);
    case OnCheckout(s) => CheckoutStepKeepsCode(w, s, c);
    case OnPayment(p) => PaymentStepKeepsCode(w, p, c);
    case OnAdmin(a) => AdminStepKeepsCode(w, a, c);
    case OnSale(s) => SameCarriers(w.t, NextSale(w, s).t, c);
  }

  lemma ReleasesAddNoCode(t: Tables, ids: seq<OrderId>, c: Code)
    requires c !in t.codes
    ensures c !in ReleasedAll(t, ids).codes
  {
    ReleasedAllKeys(t, ids);
    assert c !in ReleasedAll(t, ids).codes.Keys;
  }

  lemma CheckoutAddsNoCode(w: World, s: CheckoutStep, c: Code)
    requires c !in w.t.codes
    ensures c !in NextCheckout(w, s).t.codes
  {
    if s.PlaceCheckout? { ReleasesAddNoCode(w.t, s.stale, c); }
  }

  lemma PaymentAddsNoCode(w: World, p: PaymentStep, c: Code)
    requires c !in w.t.codes
    ensures c !in NextPayment(w, p).t.codes
  {
  }

  lemma AdminAddsNoCode(w: World, a: AdminStep, c: Code)
    requires c !in w.t.codes
    ensures c !in NextAdmin(w, a).t.codes
  {
  }

  lemma {:induction false} NoNewCodes(w: World, es: seq<Step>, c: Code)
    requires c !in w.t.codes
    ensures c !in Run(w, es).t.codes
    decreases |es|
  {
    if es != [] {
      match es[0] {
        case OnCheckout(s) => CheckoutAddsNoCode(w, s, c);
        case OnPayment(p) => PaymentAddsNoCode(w, p, c);
        case OnAdmin(a) => AdminAddsNoCode(w, a, c);
        case _ =>
      }
      NoNewCodes(Next(w, es[0]), es[1..], c);
    }
  }

  // ------------------------------------------------------------ whole runs

  /**
   After any run, a code's count is its count at the start plus the change in the number of live, unreleased
   orders carrying it.
   */
  lemma {:induction false} CodeLedger(w: World, es: seq<Step>, c: Code)
    requires c in w.t.codes && Spare(w.t, c) >= 0
    ensures c in Run(w, es).t.codes
    ensures Run(w, es).t.codes[c].usedCount ==
            w.t.codes[c].usedCount + Carriers(Run(w, es).t.orders, c) - Carriers(w.t.orders, c)
    decreases |es|
  {
    if es != [] {
      StepKeepsCode(w, es[0], c);
      CodeLedger(Next(w, es[0]), es[1..], c);
    }
  }

  /** A settle that brings back a released order carrying the code, whatever the code's cap. */
  predicate Resurrects(w: World, e: Step, c: Code) {
    match e
    case OnPayment(CallbackSettle(id)) => SettleEnabled(w, id) && Resurrectable(w.t.orders[id]) && w.t.orders[id].code == Some(c)
    case OnPayment(SnappFinalize(id)) =>
      Known(w, id) && HasVerdict(w, id, Finalize) && Resurrectable(w.t.orders[id]) && w.t.orders[id].code == Some(c)
    case _ => false
  }

  ghost function Resurrections(w: World, es: seq<Step>, c: Code): nat
    decreases |es|
  {
    if es == [] then 0 else (if Resurrects(w, es[0], c) then 1 else 0) + Resurrections(Next(w, es[0]), es[1..], c)
  }

  lemma PlacedRespectsCap(w: World, req: CheckoutRequest, stale: seq<OrderId>, picked: seq<VariantId>, c: Code, cap: nat)
    requires c in w.t.codes && Spare(w.t, c) >= 0 && w.t.codes[c].maxTotalUses == Some(cap)
    ensures c in Placed(w, req, stale, picked).t.codes
    ensures Placed(w, req, stale, picked).t.codes[c].usedCount <= Max(cap, w.t.codes[c].usedCount)
  {
    ReleasesKeepCode(w.t, stale, c);
  }

  lemma PaymentStepUses(w: World, p: PaymentStep, c: Code)
    requires c in w.t.codes && c in NextPayment(w, p).t.codes
    ensures NextPayment(w, p).t.codes[c].usedCount <=
            w.t.codes[c].usedCount + if Resurrects(w, OnPayment(p), c) then 1 else 0
  {
  }

  lemma AdminStepUses(w: World, a: AdminStep, c: Code)
    requires c in w.t.codes && c in NextAdmin(w, a).t.codes
    ensures NextAdmin(w, a).t.codes[c].usedCount <= w.t.codes[c].usedCount
  {
  }

  lemma CheckoutStepUses(w: World, s: CheckoutStep, c: Code, cap: nat)
    requires c in w.t.codes && Spare(w.t, c) >= 0 && w.t.codes[c].maxTotalUses == Some(cap)
    requires c in NextCheckout(w, s).t.codes
    ensures NextCheckout(w, s).t.codes[c].usedCount <= Max(cap, w.t.codes[c].usedCount)
  {
    if s.PlaceCheckout? { PlacedRespectsCap(w, s.req, s.stale, s.picked, c, cap); }
  }

  lemma StepRespectsCap(w: World, e: Step, c: Code, cap: nat)
    requires c in w.t.codes && Spare(w.t, c) >= 0 && w.t.codes[c].maxTotalUses == Some(cap)
    ensures c in Next(w, e).t.codes
    ensures Next(w, e).t.codes[c].usedCount <= Max(cap, w.t.codes[c].usedCount) + if Resurrects(w, e, c) then 1 else 0
  {
    StepKeepsCode(w, e, c);
    match e
    case Tick(_) =>
    case OnBasket(b) =>
    case OnCheckout(s) => CheckoutStepUses(w, s, c, cap);
    case OnPayment(p) => PaymentStepUses(w, p, c);
    case OnAdmin(a) => AdminStepUses(w, a, c);
    case OnSale(s) =>
  }

  /**
   Whatever happens, a capped code is never used more often than its cap (or its count at the start, if that
   was already higher) plus the number of released orders carrying it that were brought back.
   */
  lemma {:induction false} CodeCap(w: World, es: seq<Step>, c: Code, cap: nat, bound: int)
    requires c in w.t.codes && Spare(w.t, c) >= 0 && w.t.codes[c].maxTotalUses == Some(cap)
    requires cap <= bound && w.t.codes[c].usedCount <= bound
    ensures c in Run(w, es).t.codes && Run(w, es).t.codes[c].usedCount <= bound + Resurrections(w, es, c)
    decreases |es|
  {
    if es != [] {
      StepKeepsCode(w, es[0], c);
      StepRespectsCap(w, es[0], c, cap);
      CodeCap(Next(w, es[0]), es[1..], c, cap, bound + if Resurrects(w, es[0], c) then 1 else 0);
    }
  }
}
