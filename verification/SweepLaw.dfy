/**
 The sweeper returns a quantity it read outside the transaction that claims the row. That is safe: every
 write of a row's quantity also moves its hold past the clock of any earlier sweep.
 */
module SweepLaw {
  import opened ShopTables
  import opened OrderReservation
  import opened Basket
  import opened Sweeper
  import opened Payment
  import opened ShopRuns

  /** What a sweep read and may still claim: if the hold has run out, the row still holds what was read. */
  predicate SweepsFresh(w: World) {
    forall e :: e in w.sweeps ==>
                  e.now <= w.now &&
                  (Expired(w.t.rows, (e.basket, e.variant), e.now) ==>
                     w.t.rows[(e.basket, e.variant)].quantity == e.quantity)
  }

  /** Any row whose hold had run out by `now` afterwards had already run out before, with the same quantity. */
  ghost predicate OnlyRenewed(
      rows: map<(BasketId, VariantId), BasketRow>, rows': map<(BasketId, VariantId), BasketRow>, now: Time)
  {
    forall key, at :: at <= now && Expired(rows', key, at) ==>
                        Expired(rows, key, at) && rows'[key].quantity == rows[key].quantity
  }

  /** At most the row `key` was written, with a hold into the future or as deleted. */
  lemma RowWriteRenews(
      rows: map<(BasketId, VariantId), BasketRow>, rows': map<(BasketId, VariantId), BasketRow>,
      key: (BasketId, VariantId), now: Time)
    requires rows' == rows || (key in rows' && rows' == rows[key := rows'[key]])
    requires rows' != rows ==>
               rows'[key].isDeleted || (rows'[key].reservedUntil.Some? && rows'[key].reservedUntil.value > now)
    ensures OnlyRenewed(rows, rows', now)
  {
  }

  lemma UpsertRenews(t: Tables, now: Time, b: BasketId, v: VariantId, q: int)
    requires Upserted(t, now, b, v, q).Returns?
    ensures OnlyRenewed(t.rows, Upserted(t, now, b, v, q).value.rows, now)
  {
    RowWriteRenews(t.rows, Upserted(t, now, b, v, q).value.rows, (b, v), now);
  }

  lemma UpdateRenews(t: Tables, now: Time, b: BasketId, v: VariantId, q: nat)
    requires Updated(t, now, b, v, q).Returns?
    ensures OnlyRenewed(t.rows, Updated(t, now, b, v, q).value.rows, now)
  {
    RowWriteRenews(t.rows, Updated(t, now, b, v, q).value.rows, (b, v), now);
  }

  lemma BasketStepRenews(w: World, b: BasketStep)
    ensures OnlyRenewed(w.t.rows, NextBasket(w, b).t.rows, w.now)
  {
    var rows' := NextBasket(w, b).t.rows;
    match b
    case UpsertRow(k, v, q) => if Upserted(w.t, w.now, k, v, q).Returns? { UpsertRenews(w.t, w.now, k, v, q); }
    case UpdateRow(k, v, q) => if Updated(w.t, w.now, k, v, q).Returns? { UpdateRenews(w.t, w.now, k, v, q); }
    case RemoveRow(k, v) => RowWriteRenews(w.t.rows, rows', (k, v), w.now);
    case SweepClaim(row) => RowWriteRenews(w.t.rows, rows', (row.basket, row.variant), w.now);
    case _ => assert rows' == w.t.rows;
  }

  lemma CheckoutStepRenews(w: World, c: CheckoutStep)
    ensures OnlyRenewed(w.t.rows, NextCheckout(w, c).t.rows, w.now)
  {
    match c
    case PlaceCheckout(req, stale, picked) => PlacedRenews(w, req, stale, picked);
    case RefuseCheckout(id) =>
      if id in w.t.orders {
        RestoreRenews(Released(w.t, id), w.now, w.t.orders[id].owner, LiveLines(w.t.orders[id].items));
      }
    case _ => assert NextCheckout(w, c).t.rows == w.t.rows;
  }

  lemma PlacedRenews(w: World, req: CheckoutRequest, stale: seq<OrderId>, picked: seq<VariantId>)
    ensures OnlyRenewed(w.t.rows, Placed(w, req, stale, picked).t.rows, w.now)
  {
  }

  lemma RestoreRenews(t: Tables, now: Time, u: UserId, lines: seq<Line>)
    ensures OnlyRenewed(t.rows, Restored(t, now, u, lines).rows, now)
  {
  }

  lemma AbandonRenews(t: Tables, now: Time, id: OrderId)
    ensures OnlyRenewed(t.rows, Abandoned(t, now, id).rows, now)
  {
    if Releasable(t, id) {
      RestoreRenews(Released(t, id), now, t.orders[id].owner, LiveLines(t.orders[id].items));
    }
  }

  lemma PaymentStepRenews(w: World, p: PaymentStep)
    ensures OnlyRenewed(w.t.rows, NextPayment(w, p).t.rows, w.now)
  {
    match p
    case CallbackFail(id) => AbandonRenews(w.t, w.now, id);
    case SnappFail(id, status) => AbandonRenews(w.t, w.now, id);
    case _ => assert NextPayment(w, p).t.rows == w.t.rows;
  }

  lemma AdminStepKeepsRows(w: World, a: AdminStep)
    ensures NextAdmin(w, a).t.rows == w.t.rows
  {
  }

  lemma StepRenews(w: World, e: Step)
    ensures OnlyRenewed(w.t.rows, Next(w, e).t.rows, w.now)
  {
    match e
    case Tick(ms) =>
    case OnBasket(b) => BasketStepRenews(w, b);
    case OnCheckout(c) => CheckoutStepRenews(w, c);
    case OnPayment(p) => PaymentStepRenews(w, p);
    case OnAdmin(a) => AdminStepKeepsRows(w, a);
    case OnSale(s) =>
  }

  lemma StepAddsOnlyFreshReads(w: World, e: Step)
    ensures w.now <= Next(w, e).now
    ensures forall row :: row in Next(w, e).sweeps && row !in w.sweeps ==>
                            row.now == w.now && Next(w, e).t == w.t && (row.basket, row.variant) in w.t.rows &&
                            row.quantity == w.t.rows[(row.basket, row.variant)].quantity
  {
  }

  lemma StepKeepsSweepsFresh(w: World, e: Step)
    requires SweepsFresh(w)
    ensures SweepsFresh(Next(w, e))
  {
    StepRenews(w, e);
    StepAddsOnlyFreshReads(w, e);
    var n := Next(w, e);
    forall row | row in n.sweeps
      ensures row.now <= n.now &&
              (Expired(n.t.rows, (row.basket, row.variant), row.now) ==>
                 n.t.rows[(row.basket, row.variant)].quantity == row.quantity)
    {
    }
  }

  /**
   Whatever ran between a sweep's read and its claim, a claim that succeeds finds in the row exactly the
   quantity the sweep read, so it gives back exactly what the row held.
   */
  lemma {:induction false} StaleReadIsSafe(w: World, es: seq<Step>, row: ExpiredRow)
    requires SweepsFresh(w) && row in Run(w, es).sweeps
    requires Expired(Run(w, es).t.rows, (row.basket, row.variant), row.now)
    ensures Run(w, es).t.rows[(row.basket, row.variant)].quantity == row.quantity
    decreases |es|
  {
    if es != [] {
      StepKeepsSweepsFresh(w, es[0]);
      StaleReadIsSafe(Next(w, es[0]), es[1..], row);
    }
  }
}
