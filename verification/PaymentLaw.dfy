/**
 Payments over whole runs: a verified payment is never lost, no order is announced as paid twice, a Snapp
 Pay attempt is claimed once, and a Snapp Pay order is only paid once Snapp Pay settled it.
 */
module PaymentLaw {
  import opened Wrappers
  import opened ShopTables
  import opened OrderReservation
  import opened Basket
  import opened Payment
  import opened ShopRuns
  import opened StatusLaw
  import opened SnappPay

  // ------------------------------------------------------ statuses for good

  /**
   In every state of every run, order and attempt tell the same story, a deleted order is not pending, and
   an order whose status says PAID has been paid. What was paid at any time stays paid.
   */
  lemma {:induction false} StatusesAgreeForever(w: World, es: seq<Step>)
    requires Safe(w)
    ensures Safe(Run(w, es))
    ensures forall id :: id in w.t.orders && w.t.orders[id].paymentStatus == Paid ==>
                           Known(Run(w, es), id) && Run(w, es).t.orders[id].paymentStatus == Paid &&
                           Run(w, es).t.attempts[id].status == Captured
    decreases |es|
  {
    if es == [] {
      forall id | id in w.t.orders ensures SoundOrder(w.t.orders[id], w.t.attempts[id]) {}
    } else {
      StepKeepsSafe(w, es[0]);
      StepMoves(w, es[0]);
      StatusesAgreeForever(Next(w, es[0]), es[1..]);
      var n := Next(w, es[0]);
      forall id | id in w.t.orders && w.t.orders[id].paymentStatus == Paid ensures n.t.orders[id].paymentStatus == Paid {
        assert OrderMoves(w.t.orders[id], w.t.attempts[id], n.t.orders[id], n.t.attempts[id]);
      }
    }
  }

  lemma PaidForGood(w: World, es: seq<Step>, id: OrderId)
    requires Safe(w) && id in w.t.orders && w.t.orders[id].paymentStatus == Paid
    ensures id in Run(w, es).t.orders && Run(w, es).t.orders[id].paymentStatus == Paid
  {
    StatusesAgreeForever(w, es);
  }

  // ---------------------------------------------------------- announcements

  /** Whether this step returns a non-null `paid` for the order, so that its paid hooks run. */
  predicate AnnouncedBy(w: World, e: Step, id: OrderId) {
    match e
    case OnPayment(CallbackSettle(i)) => i == id && SettleEnabled(w, id) && Announces(w.t, id)
    case OnPayment(SnappFinalize(i)) =>
      i == id && Known(w, id) && HasVerdict(w, id, Finalize) && !AlreadyPaid(w.t, id) && Announces(w.t, id)
    case _ => false
  }

  ghost function Announcements(w: World, es: seq<Step>, id: OrderId): nat
    decreases |es|
  {
    if es == [] then 0 else (if AnnouncedBy(w, es[0], id) then 1 else 0) + Announcements(Next(w, es[0]), es[1..], id)
  }

  predicate IsPaid(w: World, id: OrderId) {
    id in w.t.orders && w.t.orders[id].paymentStatus == Paid
  }

  lemma AnnouncingPays(w: World, e: Step, id: OrderId)
    requires Safe(w) && AnnouncedBy(w, e, id)
    ensures !IsPaid(w, id) && IsPaid(Next(w, e), id)
  {
    assert SoundOrder(w.t.orders[id], w.t.attempts[id]);
    assert SettledOrder(w.t.orders[id]).paymentStatus == Paid;
  }

  /**
   Over all callbacks and reconciles of a run, however they interleave with sweeps and releases, an order is
   announced at most once, never when it was paid before, and it is paid at the end if it was announced.
   */
  lemma {:induction false} AnnouncedAtMostOnce(w: World, es: seq<Step>, id: OrderId)
    requires Safe(w)
    ensures Announcements(w, es, id) <= 1
    ensures IsPaid(w, id) ==> Announcements(w, es, id) == 0
    ensures Announcements(w, es, id) == 1 ==> IsPaid(Run(w, es), id)
    decreases |es|
  {
    if es != [] {
      var n := Next(w, es[0]);
      StepKeepsSafe(w, es[0]);
      AnnouncedAtMostOnce(n, es[1..], id);
      if AnnouncedBy(w, es[0], id) { AnnouncingPays(w, es[0], id); StatusesAgreeForever(n, es[1..]); }
      if IsPaid(w, id) { StatusesAgreeForever(w, [es[0]]); assert Run(n, [][..]) == n; assert Run(w, [es[0]]) == n; }
    }
  }

  // ------------------------------------------------------ verified payments

  lemma {:induction false} RunConcat(w: World, a: seq<Step>, b: seq<Step>)
    ensures Run(w, a + b) == Run(Run(w, a), b)
    decreases |a|
  {
    if a == [] {
      assert a + b == b;
    } else {
      RunConcat(Next(w, a[0]), a[1..], b);
      assert (a + b)[1..] == a[1..] + b;
    }
  }

  lemma RunFirst(w: World, e: Step, es: seq<Step>)
    ensures Run(w, [e] + es) == Run(Next(w, e), es)
  {
    assert ([e] + es)[1..] == es;
  }

  lemma RunOneMore(w: World, before: seq<Step>, e: Step)
    ensures Run(w, before + [e]) == Next(Run(w, before), e)
  {
    RunConcat(w, before, [e]);
    assert [e] == [e] + [];
    RunFirst(Run(w, before), e, []);
  }

  lemma RunAround(w: World, first: Step, es: seq<Step>, second: Step, rest: seq<Step>)
    ensures Run(w, [first] + es + [second] + rest) == Run(Next(Run(Next(w, first), es), second), rest)
  {
    RunFirst(w, first, es + ([second] + rest));
    RunConcat(Next(w, first), es, [second] + rest);
    RunFirst(Run(Next(w, first), es), second, rest);
    assert [first] + es + [second] + rest == [first] + (es + ([second] + rest));
  }

  /** A settle that may run pays an order that has not been deleted. */
  lemma SettleStepLands(w: World, id: OrderId)
    requires Safe(w) && SettleEnabled(w, id) && !w.t.orders[id].isDeleted
    ensures IsPaid(Next(w, OnPayment(CallbackSettle(id))), id)
    ensures AnnouncedBy(w, OnPayment(CallbackSettle(id)), id) <==> !IsPaid(w, id)
  {
    assert SoundOrder(w.t.orders[id], w.t.attempts[id]);
    VerifiedPaymentLands(w.t, id, None);
  }

  /**
   A callback read an unpaid order; then anything ran, releases by sweeps and by other checkouts included;
   then the gateway confirmed and the callback wrote its result; then anything ran again. If the order was
   not deleted meanwhile, both rows are paid for good, and the callback announced it unless it had
   been paid already.
   */
  lemma VerifiedPaymentIsNeverDropped(w: World, between: seq<Step>, after: seq<Step>, id: OrderId)
    requires Safe(w) && Known(w, id) && !AlreadyPaid(w.t, id)
    requires var meanwhile := Run(Next(w, OnPayment(CallbackRead(id))), between);
             SettleEnabled(meanwhile, id) && !meanwhile.t.orders[id].isDeleted
    ensures var end := Run(w, [OnPayment(CallbackRead(id))] + between + [OnPayment(CallbackSettle(id))] + after);
            IsPaid(end, id) && id in end.t.attempts && end.t.attempts[id].status == Captured
    ensures var meanwhile := Run(Next(w, OnPayment(CallbackRead(id))), between);
            AnnouncedBy(meanwhile, OnPayment(CallbackSettle(id)), id) <==> !IsPaid(meanwhile, id)
  {
    var read, settle := OnPayment(CallbackRead(id)), OnPayment(CallbackSettle(id));
    RunAround(w, read, between, settle, after);
    StepKeepsSafe(w, read);
    StatusesAgreeForever(Next(w, read), between);
    var meanwhile := Run(Next(w, read), between);
    SettleStepLands(meanwhile, id);
    StepKeepsSafe(meanwhile, settle);
    StatusesAgreeForever(Next(meanwhile, settle), after);
  }

  // ---------------------------------------------------------------- Snapp Pay

  predicate ClaimedBy(w: World, e: Step, id: OrderId) {
    e.OnPayment? && e.p.SnappClaim? && e.p.id == id && Claimable(w.t, id)
  }

  ghost function Claims(w: World, es: seq<Step>, id: OrderId): nat
    decreases |es|
  {
    if es == [] then 0 else (if ClaimedBy(w, es[0], id) then 1 else 0) + Claims(Next(w, es[0]), es[1..], id)
  }

  predicate Marked(w: World, id: OrderId) {
    id in w.t.attempts && w.t.attempts[id].gatewayStatus.Some?
  }

  /** However often its return URL is hit, an attempt is claimed once, so verify starts once. */
  lemma {:induction false} ClaimedAtMostOnce(w: World, es: seq<Step>, id: OrderId)
    requires Safe(w)
    ensures Claims(w, es, id) <= 1
    ensures Marked(w, id) ==> Claims(w, es, id) == 0
    decreases |es|
  {
    if es != [] {
      StepKeepsSafe(w, es[0]);
      StepMoves(w, es[0]);
      var n := Next(w, es[0]);
      if Marked(w, id) {
        assert OrderMoves(w.t.orders[id], w.t.attempts[id], n.t.orders[id], n.t.attempts[id]);
      }
      ClaimedAtMostOnce(n, es[1..], id);
    }
  }

  /** What the shop and its helpers know of the remote is true. */
  predicate RemoteKnown(w: World) {
    && (forall id :: id in w.remote && w.remote[id] == RemoteSettle ==> id in w.everSettled)
    && (!w.mockMode ==> forall c :: c in w.talks && c.1 == Ended(Finalize) ==> c.0 in w.everSettled)
  }

  lemma PaymentKeepsRemoteKnown(w: World, p: PaymentStep)
    requires RemoteKnown(w)
    ensures RemoteKnown(NextPayment(w, p)) && w.everSettled <= NextPayment(w, p).everSettled
  {
  }

  lemma AdminKeepsRemoteKnown(w: World, a: AdminStep)
    requires RemoteKnown(w)
    ensures RemoteKnown(NextAdmin(w, a)) && w.everSettled <= NextAdmin(w, a).everSettled
  {
  }

  lemma StepKeepsRemoteKnown(w: World, e: Step)
    requires RemoteKnown(w)
    ensures RemoteKnown(Next(w, e)) && w.everSettled <= Next(w, e).everSettled
    ensures Next(w, e).mockMode == w.mockMode
  {
    match e
    case OnPayment(p) => PaymentKeepsRemoteKnown(w, p);
    case OnAdmin(a) => AdminKeepsRemoteKnown(w, a);
    case _ =>
  }

  /** The steps that pay an order: a settled callback, a Snapp Pay finalize, or a local completion. */
  predicate Pays(w: World, e: Step, id: OrderId) {
    match e
    case OnPayment(CallbackSettle(i)) => i == id && SettleEnabled(w, id)
    case OnPayment(SnappFinalize(i)) => i == id && HasVerdict(w, id, Finalize)
    case OnCheckout(CompleteLocally(i, voucher)) => i == id && LocalVoucherAllowed(w, id, voucher)
    case _ => false
  }

  lemma PlacedPaysNothing(w: World, req: CheckoutRequest, stale: seq<OrderId>, picked: seq<VariantId>, id: OrderId)
    requires Known(w, id) && !IsPaid(w, id)
    ensures !IsPaid(Placed(w, req, stale, picked), id)
  {
    ReleasedAllOrder(w.t, stale, id);
  }

  lemma CheckoutPays(w: World, c: CheckoutStep, id: OrderId)
    requires Known(w, id) && !IsPaid(w, id) && IsPaid(NextCheckout(w, c), id)
    ensures Pays(w, OnCheckout(c), id)
  {
    if c.PlaceCheckout? { PlacedPaysNothing(w, c.req, c.stale, c.picked, id); }
  }

  lemma PaymentPays(w: World, p: PaymentStep, id: OrderId)
    requires Known(w, id) && !IsPaid(w, id) && IsPaid(NextPayment(w, p), id)
    ensures Pays(w, OnPayment(p), id)
  {
  }

  lemma AdminPaysNothing(w: World, a: AdminStep, id: OrderId)
    requires Known(w, id) && !IsPaid(w, id)
    ensures !IsPaid(NextAdmin(w, a), id)
  {
  }

  lemma OnlyThesePay(w: World, e: Step, id: OrderId)
    requires Known(w, id) && !IsPaid(w, id) && IsPaid(Next(w, e), id)
    ensures Pays(w, e, id)
  {
    match e
    case Tick(_) =>
    case OnBasket(b) =>
    case OnCheckout(c) => CheckoutPays(w, c, id);
    case OnPayment(p) => PaymentPays(w, p, id);
    case OnAdmin(a) => AdminPaysNothing(w, a, id);
    case OnSale(s) =>
  }

  /**
   Outside mock mode, a Snapp Pay order with a positive price is never paid unless Snapp Pay settled its
   purchase at some time, in any run.
   */
  lemma {:induction false} SnappPaidOnlyAfterSettle(w: World, es: seq<Step>, id: OrderId)
    requires Safe(w) && RemoteKnown(w) && !w.mockMode
    requires id in w.t.orders && id in w.t.attempts && w.t.attempts[id].provider == Provider.SnappPay
    requires !IsPaid(w, id) && !NothingToPay(w.t.orders[id].payable)
    ensures IsPaid(Run(w, es), id) ==> id in Run(w, es).everSettled
    decreases |es|
  {
    if es != [] {
      var n := Next(w, es[0]);
      StepKeepsSafe(w, es[0]);
      StepMoves(w, es[0]);
      StepKeepsRemoteKnown(w, es[0]);
      assert OrderMoves(w.t.orders[id], w.t.attempts[id], n.t.orders[id], n.t.attempts[id]);
      if IsPaid(n, id) {
        OnlyThesePay(w, es[0], id);
        EverSettledGrows(n, es[1..]);
      } else {
        SnappPaidOnlyAfterSettle(n, es[1..], id);
      }
    }
  }

  lemma {:induction false} EverSettledGrows(w: World, es: seq<Step>)
    requires RemoteKnown(w)
    ensures w.everSettled <= Run(w, es).everSettled
    decreases |es|
  {
    if es != [] {
      StepKeepsRemoteKnown(w, es[0]);
      EverSettledGrows(Next(w, es[0]), es[1..]);
    }
  }

  /**
   The price condition cannot be dropped: an order whose price rounds to zero tomans is paid by checkout
   itself, whatever its provider, and nobody asks the remote.
   */
  lemma NothingToPayNeedsNoSettle(w: World, id: OrderId)
    requires id in w.t.orders && w.t.orders[id].paymentStatus == Pending && NothingToPay(w.t.orders[id].payable)
    ensures var n := Next(w, OnCheckout(CompleteLocally(id, WalletReference)));
            IsPaid(n, id) && n.everSettled == w.everSettled
  {
  }
}
