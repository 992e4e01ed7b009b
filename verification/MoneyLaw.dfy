/**
 The hidden wallet share over whole runs: what was taken from the wallet at checkout equals, at any later
 time, what the stored amounts of the order still imply plus every wallet refund the admin was told of, less
 what reductions written over an order changed in the meantime made of it.
 */
module MoneyLaw {
  import opened Wrappers
  import opened ShopTables
  import opened OrderReservation
  import opened OrderMoney
  import opened Basket
  import opened Payment
  import opened OrderAdmin
  import opened ShopRuns
  import opened StatusLaw
  import opened PaymentLaw
  import opened SnappPay
  import CheckoutLaw
  import Pricing

  /** Two versions of an order with the same items and amounts. */
  predicate SameMoney(o: Order, o': Order) {
    && o'.items == o.items && o'.total == o.total && o'.discount == o.discount
    && o'.shipping == o.shipping && o'.packaging == o.packaging && o'.payable == o.payable
  }

  predicate Untouched(t: Tables, t': Tables, id: OrderId)
    requires id in t.orders
  {
    id in t'.orders && SameMoney(t.orders[id], t'.orders[id]) && t'.orders[id].isDeleted == t.orders[id].isDeleted
  }

  /** Every reduction that may still be written was planned from the order it was read with. */
  ghost predicate PlansMade(w: World) {
    forall p :: p in w.plans ==> Planned(p)
  }

  ghost predicate Planned(p: PendingPlan) {
    exists q :: PlanReduction(p.read, q) == Returns(p.plan)
  }

  /** A reduction is written to the order as it was read. */
  predicate Fresh(w: World, e: Step, id: OrderId) {
    match e
    case OnAdmin(WriteReduction(pending)) =>
      pending.id == id && pending in w.plans && id in w.t.orders ==> SameMoney(pending.read, w.t.orders[id])
    case _ => true
  }

  ghost predicate FreshRun(w: World, es: seq<Step>, id: OrderId)
    decreases |es|
  {
    es == [] || (Fresh(w, es[0], id) && FreshRun(Next(w, es[0]), es[1..], id))
  }

  function WalletDue(r: Result<(Tables, Impact)>): int {
    if r.Returns? then r.value.1.walletRefundDue else 0
  }

  /** The wallet refund a step reports for the order. */
  function RefundReported(w: World, e: Step, id: OrderId): int {
    if e.OnAdmin? && Edits(e.a, id) then EditRefund(w.t, e.a, id) else 0
  }

  function EditRefund(t: Tables, a: AdminStep, id: OrderId): int {
    match a
    case EditOrder(_, ov) => WalletDue(OrderUpdated(t, id, ov))
    case EditItem(_, i, edit) => WalletDue(ItemUpdated(t, id, i, edit))
    case DropItem(_, i, returned) => WalletDue(ItemDeleted(t, id, i, returned))
    case DropOrder(_, returned) => WalletDue(OrderDeleted(t, id, returned))
    case _ => 0
  }

  ghost function Refunds(w: World, es: seq<Step>, id: OrderId): int
    decreases |es|
  {
    if es == [] then 0 else RefundReported(w, es[0], id) + Refunds(Next(w, es[0]), es[1..], id)
  }

  /** How far a reduction moves the share of an order that is not deleted: not at all when it is fresh. */
  function Drift(w: World, e: Step, id: OrderId): int {
    match e
    case OnAdmin(WriteReduction(pending)) =>
      if pending.id == id && pending in w.plans && Known(w, id) && !w.t.orders[id].isDeleted
      then LateShare(pending.read, w.t.orders[id]) - FinancialsWallet(w.t.orders[id]) else 0
    case _ => 0
  }

  ghost function Drifts(w: World, es: seq<Step>, id: OrderId): int
    decreases |es|
  {
    if es == [] then 0 else Drift(w, es[0], id) + Drifts(Next(w, es[0]), es[1..], id)
  }

  // ---------------------------------------------------------------- steps

  lemma PlacedLeavesMoney(w: World, req: CheckoutRequest, stale: seq<OrderId>, picked: seq<VariantId>, id: OrderId)
    requires Known(w, id)
    ensures Untouched(w.t, Placed(w, req, stale, picked).t, id)
  {
    ReleasedAllOrder(w.t, stale, id);
  }

  lemma ReleaseLeavesMoney(t: Tables, i: OrderId, id: OrderId)
    requires id in t.orders
    ensures Untouched(t, Released(t, i), id)
  {
  }

  lemma SettleLeavesMoney(t: Tables, i: OrderId, status: Option<GatewayStatus>, id: OrderId)
    requires id in t.orders && i in t.orders && i in t.attempts
    ensures Untouched(t, Settled(t, i, status), id)
  {
  }

  lemma FinalizeLeavesMoney(t: Tables, i: OrderId, id: OrderId)
    requires id in t.orders && i in t.orders && i in t.attempts
    ensures Untouched(t, Finalized(t, i), id)
  {
    SettleLeavesMoney(t, i, Some(RemoteSettle), id);
  }

  lemma FailLeavesMoney(t: Tables, now: Time, i: OrderId, status: GatewayStatus, id: OrderId)
    requires id in t.orders && i in t.orders && i in t.attempts
    ensures Untouched(t, SnappFailed(t, now, i, status), id)
  {
    ReleaseLeavesMoney(t, i, id);
  }

  lemma CheckoutLeavesMoney(w: World, c: CheckoutStep, id: OrderId)
    requires Known(w, id)
    ensures Untouched(w.t, NextCheckout(w, c).t, id)
  {
    match c
    case SweepOrder(i) => ReleaseLeavesMoney(w.t, i, id);
    case PlaceCheckout(req, stale, picked) => PlacedLeavesMoney(w, req, stale, picked, id);
    case RefuseCheckout(i) => ReleaseLeavesMoney(w.t, i, id);
    case CompleteLocally(i, voucher) =>
    case StoreToken(i) =>
  }

  lemma PaymentLeavesMoney(w: World, p: PaymentStep, id: OrderId)
    requires Known(w, id)
    ensures Untouched(w.t, NextPayment(w, p).t, id)
  {
    match p
    case CallbackSettle(i) => if Known(w, i) { SettleLeavesMoney(w.t, i, None, id); }
    case CallbackFail(i) => ReleaseLeavesMoney(w.t, i, id);
    case SnappFinalize(i) => if Known(w, i) { FinalizeLeavesMoney(w.t, i, id); }
    case SnappFail(i, status) => if Known(w, i) { FailLeavesMoney(w.t, w.now, i, status, id); }
    case _ => assert NextPayment(w, p).t.orders == w.t.orders;
  }

  predicate Edits(a: AdminStep, id: OrderId) {
    match a
    case EditOrder(i, _) => i == id
    case EditItem(i, _, _) => i == id
    case DropItem(i, _, _) => i == id
    case DropOrder(i, _) => i == id
    case WriteReduction(pending) => pending.id == id
    case _ => false
  }

  lemma AdminLeavesMoney(w: World, a: AdminStep, id: OrderId)
    requires Known(w, id) && !Edits(a, id)
    ensures Untouched(w.t, NextAdmin(w, a).t, id) && NextAdmin(w, a).t.orders[id].paymentStatus == w.t.orders[id].paymentStatus
  {
    match a
    case WriteStatus(i, to) => StatusLeavesMoney(w, i, to, id);
    case CancelWrite(i) => CancelLeavesMoney(w, i, id);
    case _ => assert id in NextAdmin(w, a).t.orders && NextAdmin(w, a).t.orders[id] == w.t.orders[id];
  }

  lemma StatusLeavesMoney(w: World, i: OrderId, to: OrderStatus, id: OrderId)
    requires Known(w, id)
    ensures var t' := NextAdmin(w, WriteStatus(i, to)).t;
            Untouched(w.t, t', id) && t'.orders[id].paymentStatus == w.t.orders[id].paymentStatus
  {
    StatusKeepsMoney(w.t, i, to, id);
  }

  lemma StatusKeepsMoney(t: Tables, i: OrderId, to: OrderStatus, id: OrderId)
    requires id in t.orders
    ensures var t' := StatusWritten(t, i, to);
            Untouched(t, t', id) && t'.orders[id].paymentStatus == t.orders[id].paymentStatus
  {
    var o := StatusWritten(t, i, to).orders[id];
    assert o == t.orders[id] || o == t.orders[id].(orderStatus := to);
  }

  lemma CancelLeavesMoney(w: World, i: OrderId, id: OrderId)
    requires Known(w, id)
    ensures var t' := NextAdmin(w, CancelWrite(i)).t;
            Untouched(w.t, t', id) && t'.orders[id].paymentStatus == w.t.orders[id].paymentStatus
  {
    if i in w.t.attempts { CancelKeepsMoney(w.t, i, id); }
  }

  lemma CancelKeepsMoney(t: Tables, i: OrderId, id: OrderId)
    requires id in t.orders && i in t.attempts
    ensures var t' := CanceledRemotely(t, i);
            Untouched(t, t', id) && t'.orders[id].paymentStatus == t.orders[id].paymentStatus
  {
  }

  /** No amount that checkout and the edits write is negative. */
  predicate SoundAmounts(o: Order) {
    0 <= o.payable && 0 <= o.shipping && 0 <= o.packaging && 0 <= o.discount
  }

  /** The share moved by the reported refund and the drift; a deleted paid order has been refunded in full. */
  predicate ShareAccounted(o: Order, o': Order, refund: int, drift: int) {
    && (refund != 0 ==> o.paymentStatus == Paid)
    && (if o'.isDeleted then o'.paymentStatus == o.paymentStatus && refund == ShareOfPaid(o) && drift == 0
        else SoundAmounts(o') && FinancialsWallet(o') == FinancialsWallet(o) - refund + drift)
  }

  function ShareOfPaid(o: Order): int {
    if o.paymentStatus == Paid then FinancialsWallet(o) else 0
  }

  predicate Accountable(t: Tables, id: OrderId) {
    id in t.orders && !t.orders[id].isDeleted && SoundAmounts(t.orders[id])
  }

  /** What an admin is told of an edit: the amounts before and after, and the refunds that make up the difference. */
  predicate ResultReported(t: Tables, r: Result<(Tables, Impact)>, id: OrderId)
    requires id in t.orders
  {
    r.Returns? ==>
      var i := r.value.1;
      id in r.value.0.orders && i.previous == MoneySnapshot(t.orders[id]) &&
      if r.value.0.orders[id].isDeleted
      then i.gatewayRefundDue == (if t.orders[id].paymentStatus == Paid then t.orders[id].payable else 0) &&
           i.walletRefundDue == ShareOfPaid(t.orders[id])
      else i.current == MoneySnapshot(r.value.0.orders[id]) && RefundedGatewayFirst(i)
  }

  lemma EditOrderReports(t: Tables, id: OrderId, ov: Overrides)
    requires Accountable(t, id)
    ensures ResultReported(t, OrderUpdated(t, id, ov), id)
  {
  }

  lemma EditItemReports(t: Tables, id: OrderId, i: nat, edit: ItemEdit)
    requires Accountable(t, id)
    ensures ResultReported(t, ItemUpdated(t, id, i, edit), id)
  {
  }

  lemma DropItemReports(t: Tables, id: OrderId, i: nat, returned: bool)
    requires Accountable(t, id)
    ensures ResultReported(t, ItemDeleted(t, id, i, returned), id)
  {
  }

  lemma DropOrderReports(t: Tables, id: OrderId, returned: bool)
    requires Accountable(t, id)
    ensures ResultReported(t, OrderDeleted(t, id, returned), id)
  {
  }

  /** Every edit reports the refunds it owes, at the gateway and in the wallet. */
  lemma EditsReportRefunds(t: Tables, a: AdminStep, id: OrderId)
    requires Accountable(t, id)
    ensures a.EditOrder? ==> ResultReported(t, OrderUpdated(t, id, a.ov), id)
    ensures a.EditItem? ==> ResultReported(t, ItemUpdated(t, id, a.i, a.edit), id)
    ensures a.DropItem? ==> ResultReported(t, ItemDeleted(t, id, a.i, a.returnToStock), id)
    ensures a.DropOrder? ==> ResultReported(t, OrderDeleted(t, id, a.returnToStock), id)
  {
    match a
    case EditOrder(_, ov) => EditOrderReports(t, id, ov);
    case EditItem(_, i, edit) => EditItemReports(t, id, i, edit);
    case DropItem(_, i, returned) => DropItemReports(t, id, i, returned);
    case DropOrder(_, returned) => DropOrderReports(t, id, returned);
    case _ =>
  }

  /** What an admin transaction left of the order it was given, if it did not throw. */
  predicate ResultAccounted(t: Tables, r: Result<(Tables, Impact)>, id: OrderId)
    requires id in t.orders
  {
    r.Returns? ==>
      id in r.value.0.orders && ShareAccounted(t.orders[id], r.value.0.orders[id], WalletDue(r), 0) &&
      (r.value.0.orders[id].isDeleted || Consistent(r.value.0.orders[id]))
  }

  lemma EditOrderAccounts(t: Tables, id: OrderId, ov: Overrides)
    requires Accountable(t, id)
    ensures ResultAccounted(t, OrderUpdated(t, id, ov), id)
  {
  }

  lemma EditItemAccounts(t: Tables, id: OrderId, i: nat, edit: ItemEdit)
    requires Accountable(t, id)
    ensures ResultAccounted(t, ItemUpdated(t, id, i, edit), id)
  {
  }

  lemma DropItemAccounts(t: Tables, id: OrderId, i: nat, returned: bool)
    requires Accountable(t, id)
    ensures ResultAccounted(t, ItemDeleted(t, id, i, returned), id)
  {
  }

  lemma DropOrderAccounts(t: Tables, id: OrderId, returned: bool)
    requires Accountable(t, id)
    ensures ResultAccounted(t, OrderDeleted(t, id, returned), id)
  {
  }

  /** What any step leaves of an order: the share is accounted for, and agreeing amounts stay so while plans are fresh. */
  predicate StepAccounted(o: Order, o': Order, refund: int, drift: int, timely: bool) {
    && ShareAccounted(o, o', refund, drift)
    && (timely && Consistent(o) ==> drift == 0 && (o'.isDeleted || Consistent(o')))
  }

  lemma EditAccounts(w: World, a: AdminStep, id: OrderId)
    requires Accountable(w.t, id) && Edits(a, id) && !a.WriteReduction?
    ensures id in NextAdmin(w, a).t.orders
    ensures StepAccounted(w.t.orders[id], NextAdmin(w, a).t.orders[id], RefundReported(w, OnAdmin(a), id), 0, true)
  {
    match a
    case EditOrder(_, ov) => EditOrderAccounts(w.t, id, ov);
    case EditItem(_, i, edit) => EditItemAccounts(w.t, id, i, edit);
    case DropItem(_, i, returned) => DropItemAccounts(w.t, id, i, returned);
    case DropOrder(_, returned) => DropOrderAccounts(w.t, id, returned);
    case _ =>
  }

  /** Written over any order, a plan leaves the share it was made for and a positive amount to pay. */
  lemma ReductionAccounts(o: Order, pending: PendingPlan)
    requires !o.isDeleted && SoundAmounts(o) && Planned(pending)
    ensures StepAccounted(o, CommitPlan(o, pending.plan), 0, LateShare(pending.read, o) - FinancialsWallet(o),
                          SameMoney(pending.read, o))
  {
    var q :| PlanReduction(pending.read, q) == Returns(pending.plan);
    StalePlanKeepsShareIff(pending.read, o, q);
  }

  lemma UntouchedAccounts(o: Order, o': Order, timely: bool)
    requires SoundAmounts(o) && !o.isDeleted && SameMoney(o, o') && !o'.isDeleted
    ensures StepAccounted(o, o', 0, 0, timely)
  {
  }

  /** What the writing transaction leaves of the order it was planned for. */
  lemma ReductionStep(w: World, pending: PendingPlan)
    requires Known(w, pending.id)
    ensures var n, o := NextAdmin(w, WriteReduction(pending)), w.t.orders[pending.id];
            pending.id in n.t.orders &&
            n.t.orders[pending.id] == if pending in w.plans then CommitPlan(o, pending.plan) else o
  {
  }

  lemma ReductionStepAccounts(w: World, pending: PendingPlan, id: OrderId)
    requires Known(w, id) && Accountable(w.t, id) && PlansMade(w) && pending.id == id
    ensures var e := OnAdmin(WriteReduction(pending));
            id in Next(w, e).t.orders &&
            StepAccounted(w.t.orders[id], Next(w, e).t.orders[id], 0, Drift(w, e, id), Fresh(w, e, id))
  {
    ReductionStep(w, pending);
    if pending in w.plans {
      ReductionAccounts(w.t.orders[id], pending);
    } else {
      UntouchedAccounts(w.t.orders[id], w.t.orders[id], Fresh(w, OnAdmin(WriteReduction(pending)), id));
    }
  }

  lemma StepAccounts(w: World, e: Step, id: OrderId)
    requires Known(w, id) && Accountable(w.t, id) && PlansMade(w)
    ensures id in Next(w, e).t.orders
    ensures StepAccounted(w.t.orders[id], Next(w, e).t.orders[id], RefundReported(w, e, id), Drift(w, e, id), Fresh(w, e, id))
  {
    match e
    case Tick(_) =>
    case OnBasket(b) =>
    case OnCheckout(c) => CheckoutLeavesMoney(w, c, id);
    case OnPayment(p) => PaymentLeavesMoney(w, p, id);
    case OnAdmin(a) =>
      if !Edits(a, id) {
        AdminLeavesMoney(w, a, id);
      } else if a.WriteReduction? {
        ReductionStepAccounts(w, a.pending, id);
      } else {
        EditAccounts(w, a, id);
      }
    case OnSale(s) =>
  }

  lemma AdminLeavesDeleted(w: World, a: AdminStep, id: OrderId)
    requires Known(w, id) && w.t.orders[id].isDeleted
    ensures id in NextAdmin(w, a).t.orders && NextAdmin(w, a).t.orders[id].isDeleted
    ensures NextAdmin(w, a).t.orders[id].paymentStatus == w.t.orders[id].paymentStatus
    ensures RefundReported(w, OnAdmin(a), id) == 0
  {
    if Edits(a, id) { EditsRefuseDeleted(w, a, id); } else { AdminLeavesMoney(w, a, id); }
  }

  lemma EditsRefuseDeleted(w: World, a: AdminStep, id: OrderId)
    requires Known(w, id) && w.t.orders[id].isDeleted && Edits(a, id)
    ensures id in NextAdmin(w, a).t.orders && NextAdmin(w, a).t.orders[id].isDeleted
    ensures NextAdmin(w, a).t.orders[id].paymentStatus == w.t.orders[id].paymentStatus
    ensures RefundReported(w, OnAdmin(a), id) == 0
  {
  }

  /** A deleted order stays as it is, and no refund is reported for it again. */
  lemma DeletedIsOver(w: World, e: Step, id: OrderId)
    requires Safe(w) && id in w.t.orders && w.t.orders[id].isDeleted
    ensures id in Next(w, e).t.orders && Next(w, e).t.orders[id].isDeleted && RefundReported(w, e, id) == 0
    ensures Next(w, e).t.orders[id].paymentStatus == w.t.orders[id].paymentStatus
  {
    assert SoundOrder(w.t.orders[id], w.t.attempts[id]);
    match e
    case Tick(_) =>
    case OnBasket(b) =>
    case OnCheckout(c) => CheckoutLeavesDeleted(w, c, id);
    case OnPayment(p) => PaymentLeavesDeleted(w, p, id);
    case OnAdmin(a) => AdminLeavesDeleted(w, a, id);
    case OnSale(s) =>
  }

  lemma CheckoutLeavesDeleted(w: World, c: CheckoutStep, id: OrderId)
    requires Known(w, id) && w.t.orders[id].isDeleted && w.t.orders[id].paymentStatus != Pending
    ensures id in NextCheckout(w, c).t.orders && NextCheckout(w, c).t.orders[id] == w.t.orders[id]
  {
    match c
    case SweepOrder(i) => ReleaseLeavesDeleted(w.t, i, id);
    case PlaceCheckout(req, stale, picked) => PlacedLeavesDeleted(w, req, stale, picked, id);
    case RefuseCheckout(i) => ReleaseLeavesDeleted(w.t, i, id);
    case CompleteLocally(i, voucher) => LocalPaymentLeavesDeleted(w.t, i, voucher, id);
    case StoreToken(i) =>
  }

  lemma ReleaseLeavesDeleted(t: Tables, i: OrderId, id: OrderId)
    requires id in t.orders && t.orders[id].isDeleted
    ensures id in Released(t, i).orders && Released(t, i).orders[id] == t.orders[id]
  {
  }

  lemma LocalPaymentLeavesDeleted(t: Tables, i: OrderId, voucher: Reference, id: OrderId)
    requires id in t.orders && t.orders[id].isDeleted && t.orders[id].paymentStatus != Pending
    ensures id in PaidLocally(t, i, voucher).orders && PaidLocally(t, i, voucher).orders[id] == t.orders[id]
  {
  }

  lemma PlacedLeavesDeleted(w: World, req: CheckoutRequest, stale: seq<OrderId>, picked: seq<VariantId>, id: OrderId)
    requires Known(w, id) && w.t.orders[id].isDeleted
    ensures id in Placed(w, req, stale, picked).t.orders && Placed(w, req, stale, picked).t.orders[id] == w.t.orders[id]
  {
    ReleasedAllOrder(w.t, stale, id);
  }

  lemma PaymentLeavesDeleted(w: World, p: PaymentStep, id: OrderId)
    requires Known(w, id) && w.t.orders[id].isDeleted && w.t.orders[id].paymentStatus != Pending
    ensures id in NextPayment(w, p).t.orders && NextPayment(w, p).t.orders[id] == w.t.orders[id]
  {
  }

  lemma NewPlansAreMade(w: World, id: OrderId, q: map<nat, nat>)
    ensures forall p :: p in NextAdmin(w, ReadReduction(id, q)).plans ==> p in w.plans || Planned(p)
  {
  }

  lemma StepKeepsPlansMade(w: World, e: Step)
    requires PlansMade(w)
    ensures PlansMade(Next(w, e))
  {
    if e.OnAdmin? && e.a.ReadReduction? { NewPlansAreMade(w, e.a.id, e.a.newQuantities); }
  }

  // ------------------------------------------------------------ whole runs

  lemma {:induction false} NothingAfterDeletion(w: World, es: seq<Step>, id: OrderId)
    requires Safe(w) && id in w.t.orders && w.t.orders[id].isDeleted
    ensures id in Run(w, es).t.orders && Run(w, es).t.orders[id].isDeleted
    ensures Refunds(w, es, id) == 0 && Drifts(w, es, id) == 0
    ensures Run(w, es).t.orders[id].paymentStatus == w.t.orders[id].paymentStatus
    decreases |es|
  {
    if es != [] {
      DeletedIsOver(w, es[0], id);
      StepKeepsSafe(w, es[0]);
      NothingAfterDeletion(Next(w, es[0]), es[1..], id);
    }
  }

  /** The order at the end of a run and what was reported for it, against its share at the start. */
  predicate ShareSettled(share: int, o: Order, refunds: int, drifts: int) {
    if o.isDeleted then refunds == if o.paymentStatus == Paid then share + drifts else 0
    else SoundAmounts(o) && FinancialsWallet(o) == share - refunds + drifts
  }

  /** One step and the rest of a run, put together. */
  lemma SettledOverStep(o: Order, o': Order, end: Order, refund: int, drift: int, refunds: int, drifts: int)
    requires ShareAccounted(o, o', refund, drift) && !o'.isDeleted
    requires o.paymentStatus == Paid ==> end.paymentStatus == Paid
    requires ShareSettled(FinancialsWallet(o'), end, refunds, drifts)
    ensures ShareSettled(FinancialsWallet(o), end, refund + refunds, drift + drifts)
  {
  }

  lemma SettledByDeletion(o: Order, o': Order, end: Order, refund: int, drift: int)
    requires ShareAccounted(o, o', refund, drift) && o'.isDeleted
    requires end.isDeleted && end.paymentStatus == o'.paymentStatus
    ensures ShareSettled(FinancialsWallet(o), end, refund, drift)
  {
  }

  lemma ShareStep(w: World, e: Step, id: OrderId)
    requires Safe(w) && PlansMade(w) && Accountable(w.t, id)
    ensures Safe(Next(w, e)) && PlansMade(Next(w, e)) && id in Next(w, e).t.orders
    ensures ShareAccounted(w.t.orders[id], Next(w, e).t.orders[id], RefundReported(w, e, id), Drift(w, e, id))
  {
    StepAccounts(w, e, id);
    StepKeepsPlansMade(w, e);
    StepKeepsSafe(w, e);
  }

  /**
   The wallet share of an order is at any time its share at the start, minus every refund reported for it, plus
   what each reduction made of it; an order that was deleted after it had been paid has reported all of that, one
   deleted unpaid nothing. The run may hold any steps in any order.
   */
  lemma {:induction false} ExactShareLaw(w: World, es: seq<Step>, id: OrderId)
    requires Safe(w) && PlansMade(w) && Accountable(w.t, id)
    ensures id in Run(w, es).t.orders
    ensures ShareSettled(FinancialsWallet(w.t.orders[id]), Run(w, es).t.orders[id], Refunds(w, es, id), Drifts(w, es, id))
    decreases |es|
  {
    if es != [] {
      var n, rest := Next(w, es[0]), es[1..];
      ShareStep(w, es[0], id);
      var o, o', end := w.t.orders[id], n.t.orders[id], Run(n, rest).t.orders;
      var refund, drift := RefundReported(w, es[0], id), Drift(w, es[0], id);
      if o'.isDeleted {
        NothingAfterDeletion(n, rest, id);
        SettledByDeletion(o, o', end[id], refund, drift);
      } else {
        ExactShareLaw(n, rest, id);
        if o.paymentStatus == Paid { PaidForGood(w, es, id); }
        SettledOverStep(o, o', end[id], refund, drift, Refunds(n, rest, id), Drifts(n, rest, id));
      }
    }
  }

  /** As long as each reduction is written over the amounts it was planned from, none moves the share. */
  lemma {:induction false} FreshRunsHaveNoDrift(w: World, es: seq<Step>, id: OrderId)
    requires Safe(w) && PlansMade(w) && Accountable(w.t, id) && Consistent(w.t.orders[id]) && FreshRun(w, es, id)
    ensures id in Run(w, es).t.orders
    ensures Drifts(w, es, id) == 0 && (Run(w, es).t.orders[id].isDeleted || Consistent(Run(w, es).t.orders[id]))
    decreases |es|
  {
    if es != [] {
      var n := Next(w, es[0]);
      StepAccounts(w, es[0], id);
      StepKeepsPlansMade(w, es[0]);
      StepKeepsSafe(w, es[0]);
      if n.t.orders[id].isDeleted {
        NothingAfterDeletion(n, es[1..], id);
      } else {
        FreshRunsHaveNoDrift(n, es[1..], id);
      }
    }
  }

  /** In such a run the share at the start is the share at the end and the refunds. */
  lemma WalletShareLaw(w: World, es: seq<Step>, id: OrderId)
    requires Safe(w) && PlansMade(w) && Accountable(w.t, id) && Consistent(w.t.orders[id]) && FreshRun(w, es, id)
    ensures id in Run(w, es).t.orders
    ensures ShareSettled(FinancialsWallet(w.t.orders[id]), Run(w, es).t.orders[id], Refunds(w, es, id), 0)
  {
    ExactShareLaw(w, es, id);
    FreshRunsHaveNoDrift(w, es, id);
  }

  /** Every place that derives the share finds the same. */
  lemma SharesAgree(o: Order)
    ensures MoneySnapshot(o).walletApplied == FinancialsWallet(o)
    ensures Consistent(o) && WholeRial(o) && o.payable > 0 ==>
              BuildOrderPayload(o).Returns? &&
              10 * BuildOrderPayload(o).value.externalSourceAmount == FinancialsWallet(o)
  {
    if Consistent(o) && WholeRial(o) && o.payable > 0 { PayloadRevealsWalletShare(o); }
  }

  /** What checkout debits from the wallet is the share it hides in the order's amounts. */
  lemma CheckoutHidesTheDebit(rules: Pricing.Rules, h: Pricing.Holdings, b: Pricing.Cart, req: CheckoutRequest,
                              items: seq<OrderItem>, now: Time)
    requires Pricing.RulesSound(rules) && Pricing.Preview(rules, h, b, now).Returns?
    requires b.subtotal == Subtotal(items)
    requires var q := Pricing.Preview(rules, h, b, now).value;
             req.quote == Quote(q.discount, q.shipping, q.packaging, q.wallet)
    ensures var q := Pricing.Preview(rules, h, b, now).value;
            var o := NewOrder(req, items, now);
            Consistent(o) && o.payable == q.payable && FinancialsWallet(o) == q.wallet &&
            forall source :: Pricing.Charged(rules, h, b, source, q).wallet ==
                             if q.wallet > 0 then Some(h.wallet.GetOr(0) - FinancialsWallet(o)) else h.wallet
  {
    Pricing.QuotesAreValid(rules, h, b, now);
  }

  /**
   A whole checkout, priced and charged, is the step `PlaceCheckout` of a run with the quote it charged, and the order it
   places hides what it took from the wallet.
   */
  lemma CheckoutIsAStep(w: World, rules: Pricing.Rules, h: Pricing.Holdings, a: CheckoutLaw.Ask, stale: seq<OrderId>,
                        picked: seq<VariantId>, read: Option<int>, otherChecksHold: bool)
    requires Pricing.RulesSound(rules) && CheckoutLaw.SameCodes(rules, w.t.codes) && a.welcomeLabel !in w.t.codes
    requires a.newId !in w.t.orders && a.newId !in w.t.attempts && IsStaleAnswer(w.t, w.now, CheckoutLaw.Unpriced(a), stale)
    requires var basket := CheckoutLaw.ActiveBasket(w.t, a.user); basket.Some? ==> IsRowsAnswer(w.t, basket.value, picked)
    requires CheckoutLaw.ChargedQuote(rules, h, w.t, w.now, a, stale, picked, read, otherChecksHold).Returns?
    ensures var q := CheckoutLaw.ChargedQuote(rules, h, w.t, w.now, a, stale, picked, read, otherChecksHold).value;
            var req := CheckoutLaw.RequestOf(rules, a, q);
            CheckoutEnabled(w, req, stale, picked) && CheckedOut(w.t, w.now, req, stale, picked).Returns? &&
            var placed := Placed(w, req, stale, picked).t;
            a.newId in placed.orders && placed.orders[a.newId].payable == q.payable &&
            FinancialsWallet(placed.orders[a.newId]) == q.wallet
  {
    var q := CheckoutLaw.ChargedQuote(rules, h, w.t, w.now, a, stale, picked, read, otherChecksHold).value;
    var req := CheckoutLaw.RequestOf(rules, a, q);
    CheckoutLaw.ChargedIsCheckedOut(rules, h, w.t, w.now, a, stale, picked, read, otherChecksHold);
    CheckoutLaw.UnpricedAsksTheSame(w.t, w.now, a, req, stale);
    ChargedQuoteIsValid(rules, h, w.t, w.now, a, stale, picked, read, otherChecksHold);
    PlacedShare(w, req, stale, picked);
    PlacedOrder(w, req, stale, picked);
  }

  lemma ChargedQuoteIsValid(rules: Pricing.Rules, h: Pricing.Holdings, t: Tables, now: Time, a: CheckoutLaw.Ask,
                            stale: seq<OrderId>, picked: seq<VariantId>, read: Option<int>, otherChecksHold: bool)
    requires Pricing.RulesSound(rules)
    requires CheckoutLaw.ChargedQuote(rules, h, t, now, a, stale, picked, read, otherChecksHold).Returns?
    ensures var basket := CheckoutLaw.ActiveBasket(t, a.user);
            var q := CheckoutLaw.ChargedQuote(rules, h, t, now, a, stale, picked, read, otherChecksHold).value;
            basket.Some? &&
            var subtotal := Subtotal(ItemsOf(t, basket.value, picked));
            q.payable == Remaining(subtotal, q.discount, q.shipping, q.packaging) - q.wallet &&
            ValidQuote(subtotal, CheckoutLaw.RequestOf(rules, a, q).quote)
  {
    var seen, t1 := h.(wallet := read), ReleasedAll(t, stale);
    CheckoutLaw.ReleasesLeaveBasket(rules, seen, t, now, a, stale, picked);
    var basket := CheckoutLaw.ActiveBasket(t, a.user);
    Pricing.QuotesAreValid(rules, CheckoutLaw.OnTables(seen, t1.codes), CheckoutLaw.CartOf(t, basket.value, picked, a), now);
  }

  /**
   From checkout to any later time: what left the wallet is what the stored amounts still imply plus what was
   reported as due back, less the drift of late reductions. While the amounts agree, Snapp Pay is told the same.
   */
  lemma CheckoutDebitIsRecoverable(
      w: World, req: CheckoutRequest, stale: seq<OrderId>, picked: seq<VariantId>, es: seq<Step>)
    requires Safe(w) && PlansMade(w) && CheckoutEnabled(w, req, stale, picked)
    requires CheckedOut(w.t, w.now, req, stale, picked).Returns?
    ensures var n := Placed(w, req, stale, picked);
            var end := Run(w, [OnCheckout(PlaceCheckout(req, stale, picked))] + es);
            req.newId in end.t.orders &&
            var o := end.t.orders[req.newId];
            var due, drift := Refunds(n, es, req.newId), Drifts(n, es, req.newId);
            if o.isDeleted then due == if o.paymentStatus == Paid then req.quote.wallet + drift else 0
            else req.quote.wallet == FinancialsWallet(o) + due - drift == MoneySnapshot(o).walletApplied + due - drift &&
                 (Consistent(o) && WholeRial(o) && o.payable > 0 ==>
                    BuildOrderPayload(o).Returns? &&
                    req.quote.wallet == 10 * BuildOrderPayload(o).value.externalSourceAmount + due - drift)
  {
    var place := OnCheckout(PlaceCheckout(req, stale, picked));
    var n := Next(w, place);
    StepKeepsSafe(w, place);
    StepKeepsPlansMade(w, place);
    PlacedShare(w, req, stale, picked);
    ExactShareLaw(n, es, req.newId);
    assert ([place] + es)[1..] == es;
    SharesAgree(Run(n, es).t.orders[req.newId]);
  }

  lemma PlacedOrder(w: World, req: CheckoutRequest, stale: seq<OrderId>, picked: seq<VariantId>)
    requires CheckoutEnabled(w, req, stale, picked) && CheckedOut(w.t, w.now, req, stale, picked).Returns?
    ensures var basket := LatestBasket(w.t.baskets, req.user, true, |w.t.baskets|);
            basket.Some? && req.newId in Placed(w, req, stale, picked).t.orders &&
            Placed(w, req, stale, picked).t.orders[req.newId] == NewOrder(req, ItemsOf(w.t, basket.value, picked), w.now)
  {
    var t1 := ReleasedAll(w.t, stale);
    CheckoutLaw.SameRowsSameItems(w.t, t1, LatestBasket(t1.baskets, req.user, true, |t1.baskets|).value, picked);
  }

  /** The order a checkout places hides what the quote took from the wallet. */
  lemma PlacedShare(w: World, req: CheckoutRequest, stale: seq<OrderId>, picked: seq<VariantId>)
    requires CheckoutEnabled(w, req, stale, picked) && CheckedOut(w.t, w.now, req, stale, picked).Returns?
    ensures var t := Placed(w, req, stale, picked).t;
            Accountable(t, req.newId) && Consistent(t.orders[req.newId]) &&
            FinancialsWallet(t.orders[req.newId]) == req.quote.wallet
  {
    PlacedOrder(w, req, stale, picked);
  }

  // ---------------------------------------- debits of orders never paid

  predicate SameAmounts(o: Order, o': Order) {
    && o'.total == o.total && o'.discount == o.discount && o'.shipping == o.shipping
    && o'.packaging == o.packaging && o'.payable == o.payable
  }

  /** The order has been deleted, or has the items it had. */
  predicate ItemsStay(o: Order, o': Order) {
    o'.isDeleted || (o'.items == o.items && !o.isDeleted)
  }

  /** Of the edits only a deletion acts on an order that is not paid, and it leaves the amounts and reports nothing. */
  lemma EditLeavesUnpaid(w: World, a: AdminStep, id: OrderId)
    requires Known(w, id) && !IsPaid(w, id) && Edits(a, id) && !a.WriteReduction?
    ensures id in NextAdmin(w, a).t.orders && SameAmounts(w.t.orders[id], NextAdmin(w, a).t.orders[id])
    ensures ItemsStay(w.t.orders[id], NextAdmin(w, a).t.orders[id])
    ensures RefundReported(w, OnAdmin(a), id) == 0
  {
  }

  lemma UnpaidStep(w: World, e: Step, id: OrderId)
    requires Safe(w) && Known(w, id) && !IsPaid(w, id)
    ensures id in Next(w, e).t.orders && SameAmounts(w.t.orders[id], Next(w, e).t.orders[id])
    ensures ItemsStay(w.t.orders[id], Next(w, e).t.orders[id])
    ensures RefundReported(w, e, id) == 0 && Drift(w, e, id) == 0
  {
    match e
    case Tick(_) =>
    case OnBasket(b) =>
    case OnCheckout(c) => CheckoutLeavesMoney(w, c, id);
    case OnPayment(p) => PaymentLeavesMoney(w, p, id);
    case OnAdmin(a) =>
      if !Edits(a, id) { AdminLeavesMoney(w, a, id); }
      else if a.WriteReduction? { ReductionStep(w, a.pending); }
      else { EditLeavesUnpaid(w, a, id); }
    case OnSale(s) =>
  }

  /**
   An order that is unpaid at the end of a run had its amounts touched by nothing in it, and no refund was reported
   for it: whatever the wallet was debited for it is still what its amounts imply. Money is only ever reported as due
   for an order that was paid.
   */
  lemma {:induction false} UnpaidKeepsItsDebit(w: World, es: seq<Step>, id: OrderId)
    requires Safe(w) && Known(w, id) && !IsPaid(Run(w, es), id)
    ensures id in Run(w, es).t.orders && SameAmounts(w.t.orders[id], Run(w, es).t.orders[id])
    ensures Refunds(w, es, id) == 0 && Drifts(w, es, id) == 0
    decreases |es|
  {
    StatusesAgreeForever(w, es);
    if es != [] {
      UnpaidStep(w, es[0], id);
      StepKeepsSafe(w, es[0]);
      UnpaidKeepsItsDebit(Next(w, es[0]), es[1..], id);
    }
  }

  /**
   From a checkout on, in any run at whose end the order is not paid, pending, released or deleted: the whole wallet
   debit is still hidden in the order, and none of it was reported as due.
   */
  lemma UnpaidCheckoutKeepsTheDebit(
      w: World, req: CheckoutRequest, stale: seq<OrderId>, picked: seq<VariantId>, es: seq<Step>)
    requires Safe(w) && CheckoutEnabled(w, req, stale, picked)
    requires CheckedOut(w.t, w.now, req, stale, picked).Returns?
    requires !IsPaid(Run(Placed(w, req, stale, picked), es), req.newId)
    ensures var n := Placed(w, req, stale, picked);
            req.newId in Run(n, es).t.orders && FinancialsWallet(Run(n, es).t.orders[req.newId]) == req.quote.wallet &&
            Refunds(n, es, req.newId) == 0 && Drifts(n, es, req.newId) == 0
  {
    StepKeepsSafe(w, OnCheckout(PlaceCheckout(req, stale, picked)));
    PlacedShare(w, req, stale, picked);
    UnpaidKeepsItsDebit(Placed(w, req, stale, picked), es, req.newId);
  }
}
