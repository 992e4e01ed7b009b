/** What a customer finds in the basket once a payment has failed, whatever happened since the checkout. */
module BasketLaw {
  import opened ShopTables
  import opened OrderReservation
  import opened Basket
  import opened Payment
  import opened ShopRuns
  import opened StatusLaw
  import opened PaymentLaw
  import opened MoneyLaw
  import opened StockLaw
  import opened CheckoutLaw

  // ------------------------------------------------------ the order keeps

  /** An order that is neither paid nor deleted at the end of a run still has the items and the owner it had. */
  lemma {:induction false} UnpaidKeepsItems(w: World, es: seq<Step>, id: OrderId)
    requires Safe(w) && Known(w, id) && !IsPaid(Run(w, es), id)
    requires id in Run(w, es).t.orders && !Run(w, es).t.orders[id].isDeleted
    ensures Run(w, es).t.orders[id].items == w.t.orders[id].items && Run(w, es).t.orders[id].owner == w.t.orders[id].owner
    decreases |es|
  {
    if es != [] {
      var n := Next(w, es[0]);
      if IsPaid(w, id) { PaidForGood(w, es, id); }
      UnpaidStep(w, es[0], id);
      StepMoves(w, es[0]);
      StepKeepsSafe(w, es[0]);
      if n.t.orders[id].isDeleted { NothingAfterDeletion(n, es[1..], id); }
      UnpaidKeepsItems(n, es[1..], id);
      assert OrderMoves(w.t.orders[id], w.t.attempts[id], n.t.orders[id], n.t.attempts[id]);
    }
  }

  /** No basket ever goes away or changes its owner. */
  predicate BasketsStay(t: Tables, t': Tables) {
    |t.baskets| <= |t'.baskets| && forall b :: 0 <= b < |t.baskets| ==> t'.baskets[b].owner == t.baskets[b].owner
  }

  lemma CheckoutKeepsBaskets(w: World, c: CheckoutStep)
    ensures BasketsStay(w.t, NextCheckout(w, c).t)
  {
  }

  lemma AbandonKeepsBaskets(t: Tables, now: Time, id: OrderId)
    ensures BasketsStay(t, Abandoned(t, now, id))
  {
  }

  lemma PaymentKeepsBaskets(w: World, p: PaymentStep)
    ensures BasketsStay(w.t, NextPayment(w, p).t)
  {
    match p
    case CallbackFail(id) => AbandonKeepsBaskets(w.t, w.now, id);
    case SnappFail(id, _) => AbandonKeepsBaskets(w.t, w.now, id);
    case _ => assert NextPayment(w, p).t.baskets == w.t.baskets;
  }

  lemma StepKeepsBaskets(w: World, e: Step)
    ensures BasketsStay(w.t, Next(w, e).t)
  {
    match e
    case Tick(_) =>
    case OnBasket(b) => BasketStepKeepsBaskets(w, b);
    case OnCheckout(c) => CheckoutKeepsBaskets(w, c);
    case OnPayment(p) => PaymentKeepsBaskets(w, p);
    case OnAdmin(a) => AdminKeepsBaskets(w, a);
    case OnSale(s) =>
  }

  lemma BasketStepKeepsBaskets(w: World, b: BasketStep)
    ensures BasketsStay(w.t, NextBasket(w, b).t)
  {
  }

  lemma AdminKeepsBaskets(w: World, a: AdminStep)
    ensures BasketsStay(w.t, NextAdmin(w, a).t)
  {
  }

  lemma {:induction false} RunKeepsBaskets(w: World, es: seq<Step>)
    ensures BasketsStay(w.t, Run(w, es).t)
    decreases |es|
  {
    if es != [] {
      StepKeepsBaskets(w, es[0]);
      RunKeepsBaskets(Next(w, es[0]), es[1..]);
    }
  }

  lemma {:induction false} ItemsMentionPicked(t: Tables, b: BasketId, picked: seq<VariantId>, v: VariantId)
    ensures Mentions(LiveLines(ItemsOf(t, b, picked)), v) <==> v in picked
  {
    if picked != [] {
      var items, lines := ItemsOf(t, b, picked), LiveLines(ItemsOf(t, b, picked));
      assert items[1..] == ItemsOf(t, b, picked[1..]);
      assert lines == [Line(picked[0], items[0].quantity)] + LiveLines(items[1..]);
      ItemsMentionPicked(t, b, picked[1..], v);
      if Mentions(LiveLines(items[1..]), v) {
        var i :| 0 <= i < |LiveLines(items[1..])| && LiveLines(items[1..])[i].variant == v;
        assert lines[i + 1].variant == v;
      }
      if Mentions(lines, v) {
        var i :| 0 <= i < |lines| && lines[i].variant == v;
        assert i == 0 || LiveLines(items[1..])[i - 1].variant == v;
      }
      assert lines[0].variant == picked[0];
    }
  }

  // ------------------------------------------------------- what comes back

  /** The variants of basket `b0` before are live rows of basket `b` after, with the quantities they had. */
  ghost predicate HasAgain(t: Tables, b0: BasketId, t': Tables, b: BasketId) {
    forall v :: LiveRow(t, b0, v) ==> LiveRow(t', b, v) && t'.rows[(b, v)].quantity == t.rows[(b0, v)].quantity
  }

  lemma PickedComesBack(t: Tables, b0: BasketId, picked: seq<VariantId>, t1: Tables, t': Tables, now: Time, u: UserId, b: BasketId)
    requires IsRowsAnswer(t, b0, picked) && NewestBasket(t1.baskets, u, b)
    requires BasketIsBack(t1, t', now, u, LiveLines(ItemsOf(t, b0, picked)))
    ensures NewestBasket(t'.baskets, u, b) && SeenBasket(t'.baskets, u, b) && HasAgain(t, b0, t', b)
    ensures forall v :: v !in picked ==> LiveRow(t', b, v) == LiveRow(t1, b, v)
  {
    var lines := LiveLines(ItemsOf(t, b0, picked));
    assert RowsAreBack(t1.rows, t'.rows, now, b, lines);
    forall v: VariantId | LiveRow(t, b0, v) ensures LiveRow(t', b, v) && t'.rows[(b, v)].quantity == t.rows[(b0, v)].quantity {
      ItemsMentionPicked(t, b0, picked, v);
      ItemsOfUnits(t, b0, picked, v);
      assert (b, v).0 == b && Mentions(lines, (b, v).1);
    }
    forall v: VariantId | v !in picked ensures LiveRow(t', b, v) == LiveRow(t1, b, v) {
      ItemsMentionPicked(t, b0, picked, v);
      assert !Mentions(lines, (b, v).1);
    }
  }

  /** The customer sees their newest basket, and finds in it what was in `b0`. */
  ghost predicate FindsAgain(t: Tables, b0: BasketId, t': Tables, u: UserId) {
    exists b: BasketId :: NewestBasket(t'.baskets, u, b) && SeenBasket(t'.baskets, u, b) && HasAgain(t, b0, t', b)
  }

  lemma AbandonedIsFoundAgain(t: Tables, b0: BasketId, picked: seq<VariantId>, t1: Tables, now: Time, id: OrderId)
    requires IsRowsAnswer(t, b0, picked) && Releasable(t1, id) && t1.orders[id].items == ItemsOf(t, b0, picked)
    requires b0 < |t1.baskets| && t1.baskets[b0].owner == t1.orders[id].owner
    ensures FindsAgain(t, b0, Abandoned(t1, now, id), t1.orders[id].owner)
  {
    var u := t1.orders[id].owner;
    var b := LatestBasket(t1.baskets, u, false, |t1.baskets|);
    assert b.Some? && NewestBasket(t1.baskets, u, b.value);
    AbandonBringsBack(t1, now, id);
    PickedComesBack(t, b0, picked, t1, Abandoned(t1, now, id), now, u, b.value);
  }

  /** What a run leaves of a checkout that is still pending at its end. */
  lemma CheckoutIsKept(w: World, req: CheckoutRequest, stale: seq<OrderId>, picked: seq<VariantId>, es: seq<Step>)
    requires Safe(w) && CheckoutEnabled(w, req, stale, picked)
    requires CheckedOut(w.t, w.now, req, stale, picked).Returns?
    requires Releasable(Run(Placed(w, req, stale, picked), es).t, req.newId)
    ensures var t, basket := Run(Placed(w, req, stale, picked), es).t, ActiveBasket(w.t, req.user);
            basket.Some? && t.orders[req.newId].owner == req.user &&
            t.orders[req.newId].items == ItemsOf(w.t, basket.value, picked) &&
            basket.value < |t.baskets| && t.baskets[basket.value].owner == req.user
  {
    var placed := Placed(w, req, stale, picked);
    StepKeepsSafe(w, OnCheckout(PlaceCheckout(req, stale, picked)));
    PlacedOrder(w, req, stale, picked);
    UnpaidKeepsItems(placed, es, req.newId);
    CheckoutKeepsBaskets(w, PlaceCheckout(req, stale, picked));
    RunKeepsBaskets(placed, es);
  }

  lemma FailedCallback(w: World, id: OrderId)
    requires Known(w, id) && id in w.callbacks
    ensures Next(w, OnPayment(CallbackFail(id))).t == Abandoned(w.t, w.now, id)
  {
  }

  /**
   A basket is checked out; then anything happens; then the payment fails while the order is still pending. The customer
   sees their newest basket, and finds in it every variant that was checked out, with the quantity it had.
   */
  lemma FailedPaymentGivesBack(w: World, req: CheckoutRequest, stale: seq<OrderId>, picked: seq<VariantId>, es: seq<Step>)
    requires Safe(w) && CheckoutEnabled(w, req, stale, picked)
    requires CheckedOut(w.t, w.now, req, stale, picked).Returns?
    requires var mid := Run(Placed(w, req, stale, picked), es);
             Releasable(mid.t, req.newId) && req.newId in mid.callbacks && Known(mid, req.newId)
    ensures var end := Next(Run(Placed(w, req, stale, picked), es), OnPayment(CallbackFail(req.newId)));
            ActiveBasket(w.t, req.user).Some? &&
            FindsAgain(w.t, ActiveBasket(w.t, req.user).value, end.t, req.user)
  {
    var mid := Run(Placed(w, req, stale, picked), es);
    CheckoutIsKept(w, req, stale, picked, es);
    FailedCallback(mid, req.newId);
    AbandonedIsFoundAgain(w.t, ActiveBasket(w.t, req.user).value, picked, mid.t, mid.now, req.newId);
  }

  /**
   When nothing comes in between and the basket is the customer's newest, the failed payment undoes the checkout as far as
   the customer can see: the same basket, with the same variants in the same quantities and no others.
   */
  lemma FailureUndoesCheckout(t: Tables, now: Time, req: CheckoutRequest, stale: seq<OrderId>, picked: seq<VariantId>, later: Time)
    requires req.newId !in t.orders && CheckedOut(t, now, req, stale, picked).Returns?
    requires ActiveBasket(t, req.user).Some? && NewestBasket(t.baskets, req.user, ActiveBasket(t, req.user).value)
    requires IsRowsAnswer(t, ActiveBasket(t, req.user).value, picked)
    ensures var b, r := ActiveBasket(t, req.user).value, Abandoned(CheckedOut(t, now, req, stale, picked).value, later, req.newId);
            SeenBasket(r.baskets, req.user, b) &&
            forall v :: (LiveRow(r, b, v) <==> LiveRow(t, b, v)) &&
                        (LiveRow(t, b, v) ==> r.rows[(b, v)].quantity == t.rows[(b, v)].quantity)
  {
    var b, t1, tr := ActiveBasket(t, req.user).value, CheckedOut(t, now, req, stale, picked).value, ReleasedAll(t, stale);
    SameRowsSameItems(t, tr, b, picked);
    assert Releasable(t1, req.newId) && t1.orders[req.newId].items == ItemsOf(t, b, picked);
    assert forall v: VariantId :: !LiveRow(t1, b, v);
    AbandonBringsBack(t1, later, req.newId);
    PickedComesBack(t, b, picked, t1, Abandoned(t1, later, req.newId), later, req.user, b);
  }
}
