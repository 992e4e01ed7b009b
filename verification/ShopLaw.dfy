/** What holds in every state the shop can reach from its opening: the laws of the other modules put together. */
module ShopLaw {
  import opened Wrappers
  import opened ShopTables
  import opened OrderReservation
  import opened OrderMoney
  import opened Payment
  import opened ShopRuns
  import opened StockLaw
  import opened StatusLaw
  import opened PaymentLaw
  import opened SnappPay
  import opened SnappLaw
  import opened CodeLaw
  import opened MoneyLaw

  /** A shop that has sold nothing yet: goods on the shelf, prices and discount codes. */
  function Opening(
      supply: map<VariantId, nat>, catalog: map<VariantId, Product>, codes: map<Code, CodeRow>, now: Time, mockMode: bool): World
  {
    World(Tables(map v | v in supply :: supply[v], catalog, [], map[], map[], map[], codes, map[], map[]),
          now, mockMode, {}, {}, {}, {}, map[], {}, {}, {}, {})
  }

  lemma OpeningIsSound(
      supply: map<VariantId, nat>, catalog: map<VariantId, Product>, codes: map<Code, CodeRow>, now: Time, mockMode: bool)
    ensures var w := Opening(supply, catalog, codes, now, mockMode);
            StockSafe(w) && Safe(w) && PlansMade(w) && RemoteKnown(w) &&
            (forall v :: v in supply ==> Ledger(w.t, v) == supply[v]) &&
            (forall c :: c in codes ==> Spare(w.t, c) == codes[c].usedCount)
  {
    var w := Opening(supply, catalog, codes, now, mockMode);
    forall v | v in supply ensures Ledger(w.t, v) == supply[v] {
      assert HeldByRow(w.t.rows, v) == map[] && HeldByOrder(w.t.orders, v) == map[] && SoldBySale(w.t.sales, v) == map[];
    }
    forall c | c in codes ensures Carriers(w.t.orders, c) == 0 {
      assert CarriedBy(w.t.orders, c) == map[];
    }
  }

  /**
   Whatever the shop does from its opening on: no stock is negative, and the units of each variant on the
   shelf, in baskets, in orders and in sales are the opening supply plus the corrections of the run.
   */
  lemma UnitsInEveryState(
      supply: map<VariantId, nat>, catalog: map<VariantId, Product>, codes: map<Code, CodeRow>, now: Time, mockMode: bool,
      es: seq<Step>, v: VariantId)
    requires v in supply
    ensures var w := Opening(supply, catalog, codes, now, mockMode);
            var t := Run(w, es).t;
            v in t.stock && t.stock[v] >= 0 &&
            t.stock[v] + BasketUnits(t.rows, v) + OrderUnits(t.orders, v) + SaleUnits(t.sales, v) ==
            supply[v] + Correction(w, es, v)
  {
    OpeningIsSound(supply, catalog, codes, now, mockMode);
    ExactStockLaw(Opening(supply, catalog, codes, now, mockMode), es, v);
  }

  /**
   In every state, each order and its payment attempt agree (pending with initiated, paid with paid, failed with
   failed), a deleted order is not pending, an order shown as PAID has been paid for, and what the gateway is asked for
   an order that is not paid is what the order says is payable.
   */
  lemma StatusesInEveryState(
      supply: map<VariantId, nat>, catalog: map<VariantId, Product>, codes: map<Code, CodeRow>, now: Time, mockMode: bool,
      es: seq<Step>, id: OrderId)
    ensures var t := Run(Opening(supply, catalog, codes, now, mockMode), es).t;
            (id in t.orders <==> id in t.attempts) &&
            (id in t.orders ==>
               (t.orders[id].paymentStatus == Pending <==> t.attempts[id].status == Initiated) &&
               (t.orders[id].paymentStatus == Paid <==> t.attempts[id].status == Captured) &&
               (t.orders[id].paymentStatus == Failed <==> t.attempts[id].status == Dropped) &&
               (t.orders[id].isDeleted ==> t.orders[id].paymentStatus != Pending) &&
               (t.orders[id].orderStatus == OrderPaid ==> t.orders[id].paymentStatus == Paid) &&
               (t.orders[id].paymentStatus != Paid ==> t.attempts[id].amount == t.orders[id].payable))
  {
    var w := Opening(supply, catalog, codes, now, mockMode);
    OpeningIsSound(supply, catalog, codes, now, mockMode);
    StatusesAgreeForever(w, es);
    var t := Run(w, es).t;
    if id in t.orders { assert SoundOrder(t.orders[id], t.attempts[id]); }
  }

  /**
   In every state, a code has been counted once for each live, unreleased order that carries it, on top of what
   it was opened with, and a cap is exceeded by at most the orders that were brought back after a release.
   */
  lemma CodesInEveryState(
      supply: map<VariantId, nat>, catalog: map<VariantId, Product>, codes: map<Code, CodeRow>, now: Time, mockMode: bool,
      es: seq<Step>, c: Code)
    requires c in codes && codes[c].usedCount >= 0
    ensures var w := Opening(supply, catalog, codes, now, mockMode);
            var t := Run(w, es).t;
            c in t.codes && t.codes[c].usedCount == codes[c].usedCount + Carriers(t.orders, c) &&
            (codes[c].maxTotalUses.Some? ==>
               t.codes[c].usedCount <= Max(codes[c].maxTotalUses.value, codes[c].usedCount) + Resurrections(w, es, c))
  {
    var w := Opening(supply, catalog, codes, now, mockMode);
    OpeningIsSound(supply, catalog, codes, now, mockMode);
    assert w.t.codes[c] == codes[c] && Carriers(w.t.orders, c) == 0;
    CodeLedger(w, es, c);
    if codes[c].maxTotalUses.Some? {
      CodeCap(w, es, c, codes[c].maxTotalUses.value, Max(codes[c].maxTotalUses.value, codes[c].usedCount));
    }
  }

  /** In every state, a purchase that was ever settled, or holds money now, belongs to an attempt with a token. */
  lemma TokensInEveryState(
      supply: map<VariantId, nat>, catalog: map<VariantId, Product>, codes: map<Code, CodeRow>, now: Time, mockMode: bool,
      es: seq<Step>, id: OrderId)
    ensures var w := Run(Opening(supply, catalog, codes, now, mockMode), es);
            id in w.everSettled || HoldsMoney(RemoteOf(w, id)) ==> TokenIn(w.t, id)
  {
    var w := Opening(supply, catalog, codes, now, mockMode);
    OpeningIsSound(supply, catalog, codes, now, mockMode);
    assert forall i :: RemoteOf(w, i) == RemotePending;
    TokensHeldForever(w, es);
  }

  /** In every state, failing a purchase with a status under which it holds money is not possible and does nothing. */
  lemma HeldMoneyInEveryState(
      supply: map<VariantId, nat>, catalog: map<VariantId, Product>, codes: map<Code, CodeRow>, now: Time, mockMode: bool,
      es: seq<Step>, id: OrderId, status: GatewayStatus)
    requires HoldsMoney(status)
    ensures var w := Run(Opening(supply, catalog, codes, now, mockMode), es); Next(w, OnPayment(SnappFail(id, status))) == w
  {
    HeldMoneyNeverFails(Opening(supply, catalog, codes, now, mockMode), es, id, status);
  }

  /** In every state, the code of a pending order has been counted for it. */
  lemma PendingCodesAreCounted(
      supply: map<VariantId, nat>, catalog: map<VariantId, Product>, codes: map<Code, CodeRow>, now: Time, mockMode: bool,
      es: seq<Step>, id: OrderId)
    requires forall c :: c in codes ==> codes[c].usedCount >= 0
    requires Releasable(Run(Opening(supply, catalog, codes, now, mockMode), es).t, id)
    ensures var t := Run(Opening(supply, catalog, codes, now, mockMode), es).t; Counted(t.codes, t.orders[id].code)
  {
    var w := Opening(supply, catalog, codes, now, mockMode);
    var t := Run(w, es).t;
    var code := t.orders[id].code;
    if code.Some? && code.value in t.codes {
      if code.value !in codes { NoNewCodes(w, es, code.value); }
      CodesInEveryState(supply, catalog, codes, now, mockMode, es, code.value);
      CarriersChange(t.orders, id, t.orders[id], code.value);
    }
  }

  /**
   In every state, releasing a pending order and then being told after all that it was paid leaves exactly the tables
   that settling it at once would have left: every unit is back in the order, no variant is short, and the code is
   counted as before.
   */
  lemma LateConfirmationLosesNothing(
      supply: map<VariantId, nat>, catalog: map<VariantId, Product>, codes: map<Code, CodeRow>, now: Time, mockMode: bool,
      es: seq<Step>, id: OrderId, status: Option<GatewayStatus>)
    requires forall c :: c in codes ==> codes[c].usedCount >= 0
    requires Releasable(Run(Opening(supply, catalog, codes, now, mockMode), es).t, id)
    ensures var t := Run(Opening(supply, catalog, codes, now, mockMode), es).t;
            var r := Released(t, id);
            id in t.attempts &&
            (forall v :: v in t.stock ==> !Short(r.stock, LiveLines(t.orders[id].items), v)) &&
            Reapplied(r, id).stock == t.stock && Reapplied(r, id).codes == t.codes &&
            Settled(r, id, status) == Settled(t, id, status)
  {
    var w := Opening(supply, catalog, codes, now, mockMode);
    var t := Run(w, es).t;
    StatusesInEveryState(supply, catalog, codes, now, mockMode, es, id);
    PendingCodesAreCounted(supply, catalog, codes, now, mockMode, es, id);
    OpeningIsSound(supply, catalog, codes, now, mockMode);
    StockStaysSafe(w, es);
    ReleaseThenResurrectIsIdentity(t, id);
    SettlingAfterReleaseIsSettling(t, id, status);
  }
}
