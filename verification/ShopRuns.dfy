/**
 The shop as a state machine. Every database transaction is one step; where the code reads outside a
 transaction or waits for a gateway, the read and the write are separate steps and anything may run between
 them: what was read is kept in the world and may be written at any later time.
 */
module ShopRuns {
  import opened Wrappers
  import opened ShopTables
  import opened OrderReservation
  import opened OrderMoney
  import opened Basket
  import opened Sweeper
  import opened Payment
  import opened OrderAdmin
  import opened Sales
  import opened SnappPay
  import opened SnappCallback

  /** A reduction plan and the order it was made from. */
  datatype PendingPlan = PendingPlan(id: OrderId, read: Order, plan: Plan)

  datatype World = World(
    t: Tables,
    now: Time,
    mockMode: bool,                              // payments are faked at checkout
    sweeps: set<ExpiredRow>,                     // rows some sweep read as expired
    callbacks: set<OrderId>,                     // callbacks past their read, waiting for the gateway
    statusChecks: set<(OrderId, OrderStatus)>,   // status changes past their check
    plans: set<PendingPlan>,                     // reductions past their read
    remote: map<OrderId, GatewayStatus>,         // Snapp Pay's own state, pending when absent
    everSettled: set<OrderId>,                   // purchases whose remote reached SETTLE
    talks: set<(OrderId, Talk)>,                 // where callbacks and admins stand in their talks with Snapp Pay
    cancels: set<OrderId>,                       // cancellations past their read
    canceled: set<OrderId>)                      // cancellations Snapp Pay has accepted

  datatype BasketStep =
    | OpenBasket(user: UserId)        // on a look that found none, which may be long ago
    | UpsertRow(basket: BasketId, variant: VariantId, asked: int)
    | UpdateRow(basket: BasketId, variant: VariantId, quantity: nat)
    | RemoveRow(basket: BasketId, variant: VariantId)
    | SweepRead(basket: BasketId, variant: VariantId)
    | SweepClaim(row: ExpiredRow)
    | Reprice(variant: VariantId, product: Product)

  datatype CheckoutStep =
    | SweepOrder(id: OrderId)
    | PlaceCheckout(req: CheckoutRequest, stale: seq<OrderId>, picked: seq<VariantId>)
    | RefuseCheckout(id: OrderId)
    | CompleteLocally(id: OrderId, voucher: Reference)
    | StoreToken(id: OrderId)

  datatype PaymentStep =
    | CallbackRead(id: OrderId)
    | CallbackSettle(id: OrderId)
    | CallbackFail(id: OrderId)
    | SnappClaim(id: OrderId, customerOk: bool)
    | SnappInquire(id: OrderId, onlyMark: bool)
    | TalkGoesOn(id: OrderId, talk: Talk, reply: Reply, to: GatewayStatus)
    | RemoteLapses(id: OrderId, to: GatewayStatus)
    | SnappFinalize(id: OrderId)
    | SnappFail(id: OrderId, status: GatewayStatus)
    | SnappMark(id: OrderId, status: GatewayStatus)

  datatype AdminStep =
    | CheckStatus(id: OrderId, to: OrderStatus)
    | WriteStatus(id: OrderId, to: OrderStatus)
    | EditOrder(id: OrderId, ov: Overrides)
    | EditItem(id: OrderId, i: nat, edit: ItemEdit)
    | DropItem(id: OrderId, i: nat, returnToStock: bool)
    | DropOrder(id: OrderId, returnToStock: bool)
    | CancelRead(id: OrderId)
    | CancelCall(id: OrderId, answered: bool)
    | CancelWrite(id: OrderId)
    | ReadReduction(id: OrderId, newQuantities: map<nat, nat>)
    | WriteReduction(pending: PendingPlan)

  datatype SaleStep =
    | NewSale(sale: SaleId, items: seq<SaleItem>, discount: nat)
    | ChangeSale(sale: SaleId, items: seq<SaleItem>, discount: nat)
    | DropSale(sale: SaleId)
    | OpenEventPayment(payment: EventPaymentId, amount: nat)
    | PayEvent(payment: EventPaymentId, sale: SaleId)
    | FailEvent(payment: EventPaymentId)
    | AssignSale(payment: EventPaymentId, items: seq<SaleItem>, sale: SaleId)

  datatype Step =
    | Tick(ms: nat)
    | OnBasket(b: BasketStep)
    | OnCheckout(c: CheckoutStep)
    | OnPayment(p: PaymentStep)
    | OnAdmin(a: AdminStep)
    | OnSale(s: SaleStep)

  predicate SameReads(w: World, w': World) {
    w'.sweeps == w.sweeps && w'.statusChecks == w.statusChecks && w'.plans == w.plans
  }

  predicate SameRemote(w: World, w': World) {
    && w'.mockMode == w.mockMode && w'.remote == w.remote
    && w'.everSettled == w.everSettled && w'.talks == w.talks
  }

  /** A transaction that throws leaves the world as it was. */
  function Commit(w: World, r: Result<Tables>): World {
    if r.Returns? then w.(t := r.value) else w
  }

  /** The answers a checkout step carries are answers its queries can give, and its quote is one checkout computes. */
  ghost predicate CheckoutEnabled(w: World, req: CheckoutRequest, stale: seq<OrderId>, picked: seq<VariantId>) {
    && req.newId !in w.t.orders && req.newId !in w.t.attempts
    && IsStaleAnswer(w.t, w.now, req, stale)
    && var basket := LatestBasket(w.t.baskets, req.user, true, |w.t.baskets|);
       basket.Some? ==> IsRowsAnswer(w.t, basket.value, picked) &&
                        ValidQuote(Subtotal(ItemsOf(w.t, basket.value, picked)), req.quote)
  }

  predicate LocalVoucherAllowed(w: World, id: OrderId, voucher: Reference) {
    && id in w.t.orders
    && ((voucher == WalletReference && NothingToPay(w.t.orders[id].payable)) || (voucher == MockReference && w.mockMode))
  }

  function NextBasket(w: World, b: BasketStep): (r: World)
    ensures r.now == w.now && (!b.SweepRead? ==> SameReads(w, r)) && SameRemote(w, r)
    ensures SameOrders(w.t, r.t)
  {
    match b
    case OpenBasket(u) => w.(t := w.t.(baskets := w.t.baskets + [ShopTables.Basket.Basket(u, false)]))
    case UpsertRow(b, v, q) => Commit(w, Upserted(w.t, w.now, b, v, q))
    case UpdateRow(b, v, q) => Commit(w, Updated(w.t, w.now, b, v, q))
    case RemoveRow(b, v) => w.(t := Removed(w.t, b, v))
    case SweepRead(b, v) =>
      if Expired(w.t.rows, (b, v), w.now)
      then w.(sweeps := w.sweeps + {ExpiredRow(b, v, w.t.rows[(b, v)].quantity, w.now)}) else w
    case SweepClaim(row) => if row in w.sweeps then w.(t := Swept(w.t, row)) else w
    case Reprice(v, product) => w.(t := w.t.(catalog := w.t.catalog[v := product]))
  }

  ghost function Placed(w: World, req: CheckoutRequest, stale: seq<OrderId>, picked: seq<VariantId>): World {
    if CheckoutEnabled(w, req, stale, picked) then Commit(w, CheckedOut(w.t, w.now, req, stale, picked)) else w
  }

  ghost function NextCheckout(w: World, c: CheckoutStep): (r: World)
    ensures r.now == w.now && SameReads(w, r) && SameRemote(w, r)
  {
    match c
    case SweepOrder(id) => w.(t := Released(w.t, id))
    case PlaceCheckout(req, stale, picked) => Placed(w, req, stale, picked)
    case RefuseCheckout(id) => if id in w.t.orders then w.(t := Refused(w.t, w.now, id)) else w
    case CompleteLocally(id, voucher) =>
      if LocalVoucherAllowed(w, id, voucher) then w.(t := PaidLocally(w.t, id, voucher)) else w
    case StoreToken(id) =>
      if id in w.t.attempts && w.t.attempts[id].status == Initiated
      then w.(t := w.t.(attempts := w.t.attempts[id := w.t.attempts[id].(hasToken := true)])) else w
  }

  function RemoteOf(w: World, id: OrderId): GatewayStatus {
    if id in w.remote then w.remote[id] else RemotePending
  }

  function RemoteBecomes(w: World, id: OrderId, to: GatewayStatus): (r: World)
    ensures r.t == w.t && r.now == w.now && SameReads(w, r) && r.mockMode == w.mockMode && r.talks == w.talks
  {
    w.(remote := w.remote[id := to],
       everSettled := if to == RemoteSettle then w.everSettled + {id} else w.everSettled)
  }

  /** A talk makes its call and the remote gives a reply it may give. */
  predicate TalkEnabled(w: World, id: OrderId, talk: Talk, reply: Reply, to: GatewayStatus) {
    (id, talk) in w.talks && Answers(talk, reply) && ReplyPossible(RemoteOf(w, id), to, reply, w.mockMode)
  }

  /** Some talk about the purchase came to this verdict and may now write it. */
  predicate HasVerdict(w: World, id: OrderId, v: Verdict) {
    (id, Ended(v)) in w.talks
  }

  /** The talk of the callback that claims the attempt; without a token there is nobody to ask. */
  function ClaimedTalk(t: Tables, id: OrderId, customerOk: bool): Talk
    requires id in t.attempts
  {
    if t.attempts[id].hasToken then CallbackStart(customerOk) else Ended(Fail(RemoteOther))
  }

  predicate Known(w: World, id: OrderId) {
    Found(w.t, id)
  }

  /** A callback past its read may settle; a gateway only confirms payments it opened itself. */
  predicate SettleEnabled(w: World, id: OrderId) {
    Known(w, id) && id in w.callbacks && w.t.attempts[id].provider != Provider.SnappPay
  }

  function NextPayment(w: World, p: PaymentStep): (r: World)
    ensures r.now == w.now && r.mockMode == w.mockMode && SameReads(w, r)
    ensures !p.SnappClaim? && !p.SnappInquire? && !p.TalkGoesOn? && !p.RemoteLapses? ==> SameRemote(w, r)
  {
    match p
    case CallbackRead(id) =>
      if Known(w, id) && !AlreadyPaid(w.t, id) then w.(callbacks := w.callbacks + {id}) else w
    case CallbackSettle(id) => if SettleEnabled(w, id) then w.(t := Settled(w.t, id, None)) else w
    case CallbackFail(id) =>
      if Known(w, id) && id in w.callbacks then w.(t := Abandoned(w.t, w.now, id)) else w
    case SnappClaim(id, customerOk) =>
      if Claimable(w.t, id)
      then w.(t := ClaimWritten(w.t, id), talks := w.talks + {(id, ClaimedTalk(w.t, id, customerOk))}) else w
    case SnappInquire(id, onlyMark) =>
      if Reconcilable(w.t, id)
      then w.(talks := w.talks + {(id, Inquiring(onlyMark || w.t.attempts[id].status == Captured))}) else w
    case TalkGoesOn(id, talk, reply, to) =>
      if TalkEnabled(w, id, talk, reply, to)
      then RemoteBecomes(w, id, to).(talks := w.talks + {(id, NextTalk(talk, reply))}) else w
    case RemoteLapses(id, to) => if Lapses(RemoteOf(w, id), to) then RemoteBecomes(w, id, to) else w
    case SnappFinalize(id) =>
      if Known(w, id) && HasVerdict(w, id, Finalize) then w.(t := Finalized(w.t, id)) else w
    case SnappFail(id, status) =>
      if Known(w, id) && HasVerdict(w, id, Fail(status)) then w.(t := SnappFailed(w.t, w.now, id, status)) else w
    case SnappMark(id, status) =>
      if HasVerdict(w, id, Mark(status)) || (status == RemoteVerify && HasVerdict(w, id, Hold))
      then w.(t := WithGatewayStatus(w.t, id, status)) else w
  }

  function NextAdmin(w: World, a: AdminStep): (r: World)
    ensures r.now == w.now && (!a.CheckStatus? && !a.ReadReduction? ==> SameReads(w, r)) && r.sweeps == w.sweeps
    ensures (!a.CancelCall? ==> SameRemote(w, r)) && (!a.ReadReduction? ==> r.plans == w.plans)
    ensures r.mockMode == w.mockMode
  {
    match a
    case CheckStatus(id, to) =>
      if StatusAllowed(w.t, id, to) then w.(statusChecks := w.statusChecks + {(id, to)}) else w
    case WriteStatus(id, to) =>
      if (id, to) in w.statusChecks then w.(t := StatusWritten(w.t, id, to)) else w
    case EditOrder(id, ov) =>
      var r := OrderUpdated(w.t, id, ov);
      if r.Returns? then w.(t := r.value.0) else w
    case EditItem(id, i, edit) =>
      var r := ItemUpdated(w.t, id, i, edit);
      if r.Returns? then w.(t := r.value.0) else w
    case DropItem(id, i, returnToStock) =>
      var r := ItemDeleted(w.t, id, i, returnToStock);
      if r.Returns? then w.(t := r.value.0) else w
    case DropOrder(id, returnToStock) =>
      var r := OrderDeleted(w.t, id, returnToStock);
      if r.Returns? then w.(t := r.value.0) else w
    case CancelRead(id) => if Cancelable(w.t, id) then w.(cancels := w.cancels + {id}) else w
    case CancelCall(id, answered) =>
      if id in w.cancels && (w.mockMode || RemoteOf(w, id) == RemoteSettle)
      then (if w.mockMode then w else RemoteBecomes(w, id, RemoteCancel))
           .(canceled := if answered then w.canceled + {id} else w.canceled) else w
    case CancelWrite(id) =>
      if Known(w, id) && id in w.canceled then w.(t := CanceledRemotely(w.t, id)) else w
    case ReadReduction(id, newQuantities) =>
      var plan := ReductionPlan(w.t, id, newQuantities);
      if plan.Returns? then w.(plans := w.plans + {PendingPlan(id, w.t.orders[id], plan.value)}) else w
    case WriteReduction(pending) =>
      if pending in w.plans && Known(w, pending.id)
      then w.(t := ReductionCommitted(w.t, pending.id, pending.plan)) else w
  }

  function NextSale(w: World, s: SaleStep): (r: World)
    ensures r.now == w.now && SameReads(w, r) && SameRemote(w, r)
    ensures SameOrders(w.t, r.t) && SameBaskets(w.t, r.t)
  {
    match s
    case NewSale(sale, items, discount) =>
      if sale in w.t.sales then w else Commit(w, SaleCreated(w.t, sale, items, discount))
    case ChangeSale(sale, items, discount) => Commit(w, SaleUpdated(w.t, sale, items, discount))
    case DropSale(sale) => Commit(w, SaleRemoved(w.t, sale))
    case OpenEventPayment(payment, amount) =>
      if payment in w.t.eventPayments then w
      else w.(t := w.t.(eventPayments := w.t.eventPayments[payment := EventPayment(Initiated, amount, None)]))
    case PayEvent(payment, sale) => if sale in w.t.sales then w else w.(t := EventPaid(w.t, payment, sale))
    case FailEvent(payment) =>
      if payment in w.t.eventPayments && w.t.eventPayments[payment].status != Captured
      then w.(t := w.t.(eventPayments := w.t.eventPayments[payment := w.t.eventPayments[payment].(status := Dropped)]))
      else w
    case AssignSale(payment, items, sale) =>
      if sale in w.t.sales then w else Commit(w, Assigned(w.t, payment, items, sale))
  }

  ghost function Next(w: World, e: Step): World {
    match e
    case Tick(ms) => w.(now := w.now + ms)
    case OnBasket(b) => NextBasket(w, b)
    case OnCheckout(c) => NextCheckout(w, c)
    case OnPayment(p) => NextPayment(w, p)
    case OnAdmin(a) => NextAdmin(w, a)
    case OnSale(s) => NextSale(w, s)
  }

  ghost function Run(w: World, es: seq<Step>): World
    decreases |es|
  {
    if es == [] then w else Run(Next(w, es[0]), es[1..])
  }
}
