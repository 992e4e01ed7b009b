/** The gateway callbacks and what they write once the gateway has answered (payment.controller.ts). */
module Payment {
  import opened Wrappers
  import opened ShopTables
  import opened OrderReservation
  import opened Basket

  // ------------------------------------------------------------- settling

  function CapturedAttempt(a: Attempt, status: Option<GatewayStatus>): Attempt {
    a.(status := Captured, reference := GatewayReference,
       gatewayStatus := if status.Some? then status else a.gatewayStatus)
  }

  predicate Resurrectable(o: Order) {
    o.paymentStatus == Failed && !o.isDeleted
  }

  function SettledOrder(o: Order): Order {
    if o.paymentStatus == Pending || Resurrectable(o) then PaidOrder(o) else o
  }

  function SettledAttempt(o: Order, a: Attempt, status: Option<GatewayStatus>): Attempt {
    if a.status == Initiated || Resurrectable(o) then CapturedAttempt(a, status) else a
  }

  /**
   The tables after a confirmed payment was written: a pending order is paid; a released one is brought
   back, its units and its code use taken again; any other order is left alone.
   */
  function Settled(t: Tables, id: OrderId, status: Option<GatewayStatus>): (r: Tables)
    requires id in t.orders && id in t.attempts
    ensures SameBaskets(t, r) && SameSales(t, r)
  {
    var o := t.orders[id];
    t.(orders := t.orders[id := SettledOrder(o)],
       attempts := t.attempts[id := SettledAttempt(o, t.attempts[id], status)],
       stock := if Resurrectable(o) then Retaken(t.stock, LiveLines(o.items)) else t.stock,
       codes := if Resurrectable(o) then UseCode(t.codes, o.code) else t.codes)
  }

  /** Whether a settle reports the order as paid just now, so that its paid hooks run. */
  predicate Announces(t: Tables, id: OrderId)
    requires id in t.orders && id in t.attempts
  {
    (t.attempts[id].status == Initiated && t.orders[id].paymentStatus == Pending) || Resurrectable(t.orders[id])
  }

  /**
   The two guarded writes `INITIATED -> PAID` and `PENDING -> PAID`, and, when one of them matched
   nothing, the resurrection with unguarded writes. It only ever does work on a failed order.
   */
  method SettleConfirmed(db: Database, id: OrderId, status: Option<GatewayStatus>) returns (paid: bool)
    requires id in db.orders && id in db.attempts
    modifies db
    ensures paid == Announces(old(db.Snapshot()), id)
    ensures db.Snapshot() == Settled(old(db.Snapshot()), id, status)
  {
    var attemptMatched := db.attempts[id].status == Initiated;
    if attemptMatched {
      db.attempts := db.attempts[id := CapturedAttempt(db.attempts[id], status)];
    }
    var orderMatched := db.orders[id].paymentStatus == Pending;
    if orderMatched {
      db.orders := db.orders[id := db.orders[id].(paymentStatus := Paid, orderStatus := OrderPaid)];
    }
    paid := attemptMatched && orderMatched;
    if !paid {
      var resurrected, shortages := ConfirmPaidAfterRelease(db, id);
      if resurrected {
        db.attempts := db.attempts[id := CapturedAttempt(db.attempts[id], status)];
        db.orders := db.orders[id := db.orders[id].(paymentStatus := Paid, orderStatus := OrderPaid)];
        paid := true;
      }
    }
    assert db.orders == old(db.orders)[id := SettledOrder(old(db.orders)[id])];
    assert db.attempts == old(db.attempts)[id := SettledAttempt(old(db.orders)[id], old(db.attempts)[id], status)];
  }

  predicate AlreadyPaid(t: Tables, id: OrderId) {
    (id in t.attempts && t.attempts[id].status == Captured) || (id in t.orders && t.orders[id].paymentStatus == Paid)
  }

  // -------------------------------------------------------------- failing

  /** A payment that did not go through: the order is released and, if that did something, restored. */
  function Abandoned(t: Tables, now: Time, id: OrderId): (r: Tables)
    ensures var released := Released(t, id);
            r.stock == released.stock && SameOrders(released, r) && SameSales(t, r)
  {
    if !Releasable(t, id) then t
    else Restored(Released(t, id), now, t.orders[id].owner, LiveLines(t.orders[id].items))
  }

  /** What the customer of an order that could be released finds in their basket afterwards. */
  ghost predicate CustomerHasItBack(t: Tables, t': Tables, now: Time, id: OrderId) {
    Releasable(t, id) ==> BasketIsBack(t, t', now, t.orders[id].owner, LiveLines(t.orders[id].items))
  }

  lemma AbandonBringsBack(t: Tables, now: Time, id: OrderId)
    ensures CustomerHasItBack(t, Abandoned(t, now, id), now, id)
  {
    if Releasable(t, id) { RestoreBringsBack(Released(t, id), now, t.orders[id].owner, LiveLines(t.orders[id].items)); }
  }

  method AbandonOrder(db: Database, now: Time, id: OrderId)
    modifies db
    ensures db.Snapshot() == Abandoned(old(db.Snapshot()), now, id)
    ensures CustomerHasItBack(old(db.Snapshot()), db.Snapshot(), now, id)
  {
    AbandonBringsBack(db.Snapshot(), now, id);
    var released := ReleaseOrder(db, id);
    if released {
      assert db.orders[id].items == old(db.orders)[id].items && db.orders[id].owner == old(db.orders)[id].owner;
      RestoreBasketItems(db, now, db.orders[id].owner, LiveLines(db.orders[id].items));
    }
  }

  // ------------------------------------------- Zarinpal and Zibal callback

  datatype GatewayAnswer = CustomerCanceled | VerifyFailed | Verified

  /** A gateway's reference leads to an attempt with its order. */
  predicate Found(t: Tables, id: OrderId) {
    id in t.orders && id in t.attempts
  }

  /** The callback of either gateway when nothing runs between its reads and its writes. */
  method Callback(db: Database, now: Time, id: OrderId, answer: GatewayAnswer) returns (paid: bool)
    modifies db
    ensures var t := old(db.Snapshot());
            if !Found(t, id) || AlreadyPaid(t, id) then !paid && db.Snapshot() == t
            else if answer == Verified then paid == Announces(t, id) && db.Snapshot() == Settled(t, id, None)
            else !paid && db.Snapshot() == Abandoned(t, now, id) && CustomerHasItBack(t, db.Snapshot(), now, id) &&
                 (!t.orders[id].isDeleted && t.orders[id].paymentStatus == Pending ==>
                    id in db.orders && db.orders[id].paymentStatus == Failed && db.orders[id].orderStatus == Canceled)
  {
    if id !in db.attempts || id !in db.orders {
      return false;
    }
    if db.attempts[id].status == Captured || db.orders[id].paymentStatus == Paid {
      return false;
    }
    if answer != Verified {
      AbandonOrder(db, now, id);
      return false;
    }
    paid := SettleConfirmed(db, id, None);
  }

  // ----------------------------------------------------- Snapp Pay callback

  datatype Claim = Missing | Done | Claimed(hasToken: bool)

  predicate Claimable(t: Tables, id: OrderId) {
    && id in t.attempts && t.attempts[id].provider == SnappPay
    && t.attempts[id].status == Initiated && t.attempts[id].gatewayStatus.None?
  }

  function ClaimWritten(t: Tables, id: OrderId): (r: Tables)
    ensures SameBaskets(t, r) && SameSales(t, r) && r.stock == t.stock && r.codes == t.codes && r.orders == t.orders
  {
    if Claimable(t, id)
    then t.(attempts := t.attempts[id := t.attempts[id].(gatewayStatus := Some(CallbackReceived))]) else t
  }

  /** Phase one of `snappPayCallback`: only the first callback claims the attempt. */
  method ClaimCallback(db: Database, id: OrderId) returns (claim: Claim)
    modifies db
    ensures claim.Claimed? <==> Claimable(old(db.Snapshot()), id)
    ensures claim.Missing? <==> id !in old(db.attempts) || old(db.attempts)[id].provider != SnappPay
    ensures claim.Claimed? ==> claim.hasToken == old(db.attempts)[id].hasToken
    ensures claim.Claimed? <==> id in old(db.attempts) && old(db.attempts)[id].provider == SnappPay &&
                                old(db.attempts)[id].status == Initiated && old(db.attempts)[id].gatewayStatus.None?
    ensures db.Snapshot() == ClaimWritten(old(db.Snapshot()), id)
  {
    if id !in db.attempts || db.attempts[id].provider != SnappPay {
      return Missing;
    }
    if db.attempts[id].status == Captured {
      return Done;
    }
    if db.attempts[id].status != Initiated || db.attempts[id].gatewayStatus.Some? {
      return Done;
    }
    db.attempts := db.attempts[id := db.attempts[id].(gatewayStatus := Some(CallbackReceived))];
    claim := Claimed(db.attempts[id].hasToken);
  }

  function WithGatewayStatus(t: Tables, id: OrderId, status: GatewayStatus): (r: Tables)
    ensures SameBaskets(t, r) && SameSales(t, r) && r.stock == t.stock && r.codes == t.codes && r.orders == t.orders
  {
    if id in t.attempts then t.(attempts := t.attempts[id := t.attempts[id].(gatewayStatus := Some(status))]) else t
  }

  /** `finalizeSnappPaid`: an order that is already paid only has its remote status corrected. */
  function Finalized(t: Tables, id: OrderId): (r: Tables)
    requires id in t.orders && id in t.attempts
    ensures SameBaskets(t, r) && SameSales(t, r)
  {
    if AlreadyPaid(t, id) then WithGatewayStatus(t, id, RemoteSettle) else Settled(t, id, Some(RemoteSettle))
  }

  method FinalizeSnappPaid(db: Database, id: OrderId) returns (paid: bool)
    modifies db
    ensures var t := old(db.Snapshot());
            paid == (Found(t, id) && !AlreadyPaid(t, id) && Announces(t, id)) &&
            db.Snapshot() == if Found(t, id) then Finalized(t, id) else t
    ensures paid || (Found(old(db.Snapshot()), id) && AlreadyPaid(old(db.Snapshot()), id)) ==>
              id in db.attempts && db.attempts[id].gatewayStatus == Some(RemoteSettle)
  {
    if id !in db.attempts || id !in db.orders {
      return false;
    }
    if db.attempts[id].status == Captured || db.orders[id].paymentStatus == Paid {
      if db.attempts[id].gatewayStatus != Some(RemoteSettle) {
        db.attempts := db.attempts[id := db.attempts[id].(gatewayStatus := Some(RemoteSettle))];
      }
      assert db.Snapshot() == WithGatewayStatus(old(db.Snapshot()), id, RemoteSettle);
      return false;
    }
    paid := SettleConfirmed(db, id, Some(RemoteSettle));
  }

  /** `failSnappAttempt`. */
  function SnappFailed(t: Tables, now: Time, id: OrderId, status: GatewayStatus): (r: Tables)
    ensures var t1 := Abandoned(t, now, id);
            r.stock == t1.stock && r.orders == t1.orders && r.codes == t1.codes && SameBaskets(t1, r) && SameSales(t1, r)
  {
    var t1 := Abandoned(t, now, id);
    if id in t1.attempts && t1.attempts[id].status != Captured then WithGatewayStatus(t1, id, status) else t1
  }

  method FailSnappAttempt(db: Database, now: Time, id: OrderId, status: GatewayStatus)
    modifies db
    ensures var t := old(db.Snapshot());
            db.Snapshot() == (if Found(t, id) then SnappFailed(t, now, id, status) else t) &&
            (Found(t, id) ==> CustomerHasItBack(t, db.Snapshot(), now, id))
    ensures id in old(db.attempts) && old(db.attempts)[id].status == Captured && !Releasable(old(db.Snapshot()), id) ==>
              db.Snapshot() == old(db.Snapshot())
    ensures Found(old(db.Snapshot()), id) && old(db.attempts)[id].status != Captured ==>
              id in db.attempts && db.attempts[id].gatewayStatus == Some(status)
  {
    if id !in db.attempts || id !in db.orders {
      return;
    }
    AbandonOrder(db, now, id);
    if id in db.attempts && db.attempts[id].status != Captured {
      db.attempts := db.attempts[id := db.attempts[id].(gatewayStatus := Some(status))];
    }
  }

  // ------------------------------------------------------------ properties

  /** The attempt says about the payment what the order says. */
  predicate Agree(o: Order, a: Attempt) {
    match o.paymentStatus
    case Pending => a.status == Initiated
    case Paid => a.status == Captured
    case Failed => a.status == Dropped
  }

  /**
   A verified payment is never dropped: whatever released the order between the callback's read and its
   writes, both rows end paid, exactly unless the order has been deleted while unpaid. It is announced
   exactly when it was not paid yet, and then the order is shown as PAID and the gateway vouches for it.
   */
  lemma VerifiedPaymentLands(t: Tables, id: OrderId, status: Option<GatewayStatus>)
    requires id in t.orders && id in t.attempts && Agree(t.orders[id], t.attempts[id])
    requires t.orders[id].isDeleted ==> t.orders[id].paymentStatus != Pending
    ensures var r := Settled(t, id, status);
            (r.orders[id].paymentStatus == Paid && r.attempts[id].status == Captured <==>
             !t.orders[id].isDeleted || t.orders[id].paymentStatus == Paid) &&
            Agree(r.orders[id], r.attempts[id])
    ensures Announces(t, id) <==> t.orders[id].paymentStatus != Paid && !t.orders[id].isDeleted
    ensures t.orders[id].paymentStatus == Pending ==> Settled(t, id, status).stock == t.stock
    ensures var r := Settled(t, id, status);
            if Announces(t, id) then NowPaid(t, r, id, GatewayReference) && (status.Some? ==> r.attempts[id].gatewayStatus == status)
            else r.orders == t.orders && r.attempts == t.attempts
  {
  }

  /** Announcing settles: the same payment cannot be announced again from the resulting tables. */
  lemma AnnouncedOnce(t: Tables, id: OrderId, status: Option<GatewayStatus>)
    requires id in t.orders && id in t.attempts && Announces(t, id)
    ensures !Announces(Settled(t, id, status), id)
  {
  }

  /**
   A confirmation that comes after the release of a pending order leaves the tables it would have left before it,
   provided that the shelf is not overdrawn and the order's code was counted.
   */
  lemma SettlingAfterReleaseIsSettling(t: Tables, id: OrderId, status: Option<GatewayStatus>)
    requires Releasable(t, id) && id in t.attempts && t.attempts[id].status == Initiated
    requires Counted(t.codes, t.orders[id].code) && forall v :: v in t.stock ==> t.stock[v] >= 0
    ensures Settled(Released(t, id), id, status) == Settled(t, id, status)
  {
    var r := Released(t, id);
    ReleaseThenResurrectIsIdentity(t, id);
    assert Settled(r, id, status).stock == t.stock && Settled(r, id, status).codes == t.codes;
    assert Settled(r, id, status).orders == Settled(t, id, status).orders;
    assert Settled(r, id, status).attempts == Settled(t, id, status).attempts;
  }
}
