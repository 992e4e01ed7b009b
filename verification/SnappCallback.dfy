/**
 The return URL of Snapp Pay and the admin's reconcile, from the claim over the talk with Snapp Pay to what is
 written afterwards (payment.controller.ts).
 */
module SnappCallback {
  import opened Wrappers
  import opened ShopTables
  import opened OrderReservation
  import opened Basket
  import opened Payment
  import opened SnappPay

  /** What is written once a talk about order `id` has come to a verdict. */
  function Concluded(t: Tables, now: Time, id: OrderId, v: Verdict): Tables {
    match v
    case Finalize => if Found(t, id) then Finalized(t, id) else t
    case Hold => WithGatewayStatus(t, id, RemoteVerify)
    case Fail(status) => if Found(t, id) then SnappFailed(t, now, id, status) else t
    case Mark(status) => WithGatewayStatus(t, id, status)
    case Error => t
  }

  predicate PaidOrderAt(t: Tables, id: OrderId) {
    id in t.orders && t.orders[id].paymentStatus == Paid
  }

  predicate NewlyPaid(t: Tables, t': Tables, id: OrderId) {
    PaidOrderAt(t', id) && !PaidOrderAt(t, id)
  }

  /** A pending order whose attempt no callback has claimed yet. */
  predicate AwaitsCallback(t: Tables, id: OrderId) {
    Claimable(t, id) && Releasable(t, id)
  }

  /** Order `id` after a callback that found the remote settled: paid, unless it could not ask or got no last answer. */
  predicate PaidUnlessUnheard(t: Tables, t': Tables, id: OrderId, said: seq<Reply>)
    requires AwaitsCallback(t, id)
  {
    var heard := t.attempts[id].hasToken && !LastAnswerLost(said);
    id in t'.orders && t'.orders[id] == if heard then PaidOrder(t.orders[id]) else ReleasedOrder(t.orders[id])
  }

  /** A verified purchase keeps its order and every unit and code in it: the status is written down and nothing else. */
  predicate KeptForAdmin(t: Tables, t': Tables, id: OrderId)
    requires id in t.attempts
  {
    t' == t.(attempts := t.attempts[id := t.attempts[id].(gatewayStatus := Some(RemoteVerify))])
  }

  /** The order is given up: canceled, its attempt failed with this status, its units on the shelf and in the basket. */
  ghost predicate GivenUp(t: Tables, t': Tables, now: Time, id: OrderId, status: GatewayStatus)
    requires AwaitsCallback(t, id)
  {
    && BasketIsBack(t, t', now, t.orders[id].owner, LiveLines(t.orders[id].items))
    && id in t'.orders && t'.orders[id].paymentStatus == Failed && t'.orders[id].orderStatus == Canceled
    && id in t'.attempts && t'.attempts[id].status == Dropped && t'.attempts[id].gatewayStatus == Some(status)
    && t'.stock.Keys == t.stock.Keys
    && forall v :: v in t.stock ==> t'.stock[v] == t.stock[v] + Units(LiveLines(t.orders[id].items), v)
  }

  /** The tables after the callback, by what Snapp Pay said. */
  function CalledBack(t: Tables, now: Time, id: OrderId, customerOk: bool, said: seq<Reply>): Tables {
    if !Claimable(t, id) then t
    else Concluded(ClaimWritten(t, id), now, id, CallbackVerdict(t.attempts[id].hasToken, customerOk, said))
  }

  method Conclude(db: Database, now: Time, id: OrderId, v: Verdict) returns (paid: bool)
    modifies db
    ensures db.Snapshot() == Concluded(old(db.Snapshot()), now, id, v)
    ensures paid ==> v == Finalize && PaidOrderAt(db.Snapshot(), id)
  {
    paid := false;
    match v {
      case Finalize => paid := FinalizeSnappPaid(db, id);
      case Hold => MarkGateway(db, id, RemoteVerify);
      case Fail(status) => FailSnappAttempt(db, now, id, status);
      case Mark(status) => MarkGateway(db, id, status);
      case Error =>
    }
  }

  method MarkGateway(db: Database, id: OrderId, status: GatewayStatus)
    modifies db
    ensures db.Snapshot() == WithGatewayStatus(old(db.Snapshot()), id, status)
  {
    if id in db.attempts {
      db.attempts := db.attempts[id := db.attempts[id].(gatewayStatus := Some(status))];
    }
  }

  /** The verdict of a claimed callback: without a token nobody is asked and the attempt fails. */
  function CallbackVerdict(hasToken: bool, customerOk: bool, said: seq<Reply>): Verdict {
    if !hasToken then Fail(RemoteOther)
    else
      var talk := Follow(CallbackStart(customerOk), said);
      if talk.Ended? then talk.verdict else Error
  }

  /** What a claimed pending order becomes by a verdict that pays or fails it; only the first pays. */
  lemma VerdictWritten(t: Tables, now: Time, id: OrderId, v: Verdict)
    requires Claimable(t, id)
    ensures var r := Concluded(ClaimWritten(t, id), now, id, v);
            (NewlyPaid(t, r, id) ==> v == Finalize) &&
            (AwaitsCallback(t, id) && v == Finalize ==> id in r.orders && r.orders[id] == PaidOrder(t.orders[id])) &&
            (AwaitsCallback(t, id) && v.Fail? ==>
               id in r.orders && r.orders[id] == ReleasedOrder(t.orders[id]) && GivenUp(t, r, now, id, v.status)) &&
            (v == Hold ==> KeptForAdmin(t, r, id))
  {
    AbandonBringsBack(ClaimWritten(t, id), now, id);
  }

  /**
   `snappPayCallback` when no other request comes in between. Only a claiming callback talks to Snapp Pay, and it
   writes what its talk came to. The order becomes paid only if the remote is settled, and if the remote is settled
   a pending order is paid, unless the last thing asked was the status and no answer came: then a charged order is
   released. If the remote is verified but not settled, the order is kept as it is for the admin, with the same
   exception; if it is neither, or was never asked for want of a token, the order is given up.
   */
  method SnappPayCallback(db: Database, remote: Remote, now: Time, id: OrderId, customerOk: bool)
    returns (paid: bool, ghost said: seq<Reply>)
    requires remote.Valid()
    modifies db, remote
    ensures remote.Valid() && remote.replies == old(remote.replies) + said
    ensures db.Snapshot() == CalledBack(old(db.Snapshot()), now, id, customerOk, said)
    ensures NewlyPaid(old(db.Snapshot()), db.Snapshot(), id) ==> remote.mock || remote.state == RemoteSettle
    ensures AwaitsCallback(old(db.Snapshot()), id) && remote.state == RemoteSettle ==>
              PaidUnlessUnheard(old(db.Snapshot()), db.Snapshot(), id, said)
    ensures AwaitsCallback(old(db.Snapshot()), id) && old(db.attempts)[id].hasToken && !remote.mock ==>
              var t, t' := old(db.Snapshot()), db.Snapshot();
              if LastAnswerLost(said) then GivenUp(t, t', now, id, RemoteOther)
              else if remote.state == RemoteVerify then KeptForAdmin(t, t', id)
              else remote.state == RemoteSettle || GivenUp(t, t', now, id, remote.state)
    ensures AwaitsCallback(old(db.Snapshot()), id) && !old(db.attempts)[id].hasToken ==>
              said == [] && GivenUp(old(db.Snapshot()), db.Snapshot(), now, id, RemoteOther)
  {
    said := [];
    var claim := ClaimCallback(db, id);
    if !claim.Claimed? {
      return false, said;
    }
    var verdict := Fail(RemoteOther);
    if claim.hasToken {
      verdict, said := TalkForCallback(remote, customerOk);
    }
    VerdictWritten(old(db.Snapshot()), now, id, verdict);
    paid := Conclude(db, now, id, verdict);
  }

  /**
   `reconcileSnappPay` when no other request comes in between: it never releases an order whose purchase is
   settled, pays an order only if the remote is settled, and does pay a pending order whose purchase it found settled.
   */
  method ReconcileSnappPay(db: Database, remote: Remote, now: Time, id: OrderId)
    returns (paid: bool, ghost verdict: Verdict, ghost said: seq<Reply>)
    requires remote.Valid()
    modifies db, remote
    ensures remote.Valid() && remote.replies == old(remote.replies) + said
    ensures db.Snapshot() == Concluded(old(db.Snapshot()), now, id, verdict)
    ensures ReconcileTalk(old(db.Snapshot()), id, said) == Ended(verdict)
    ensures NewlyPaid(old(db.Snapshot()), db.Snapshot(), id) ==> remote.mock || remote.state == RemoteSettle
    ensures remote.state == RemoteSettle ==> !NewlyReleased(old(db.Snapshot()), db.Snapshot(), id)
    ensures Reconcilable(old(db.Snapshot()), id) && Releasable(old(db.Snapshot()), id) &&
            old(db.attempts)[id].status == Initiated && remote.state == RemoteSettle && AllAnswered(said) ==>
              id in db.orders && db.orders[id] == PaidOrder(old(db.orders)[id])
  {
    paid, verdict, said := false, Error, [];
    if !Reconcilable(db.Snapshot(), id) {
      return;
    }
    var v, replies := TalkForReconcile(remote, db.attempts[id].status == Captured);
    verdict, said := v, replies;
    paid := Conclude(db, now, id, v);
  }

  predicate NewlyReleased(t: Tables, t': Tables, id: OrderId) {
    Releasable(t, id) && id in t'.orders && t'.orders[id].paymentStatus == Failed
  }

  function ReconcileTalk(t: Tables, id: OrderId, said: seq<Reply>): Talk {
    if Reconcilable(t, id) then Follow(Inquiring(t.attempts[id].status == Captured), said) else Ended(Error)
  }

  predicate Reconcilable(t: Tables, id: OrderId) {
    id in t.attempts && t.attempts[id].provider == Provider.SnappPay && t.attempts[id].hasToken
  }
}
