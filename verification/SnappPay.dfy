/**
 Snapp Pay: verify and settle against a remote whose calls may take effect and still error
 (snapp-pay.service.ts), and the admin operations on a settled purchase (snapp-pay.controller.ts).
 */
module SnappPay {
  import opened Wrappers
  import opened ShopTables
  import opened OrderMoney

  // ------------------------------------------------------- the remote side

  /** What the remote may become on its own: only an unsettled purchase can lapse. */
  predicate Lapses(from: GatewayStatus, to: GatewayStatus) {
    from == to || ((from == RemotePending || from == RemoteVerify) && (to == RemoteCancel || to == RemoteOther))
  }

  predicate HoldsMoney(s: GatewayStatus) {
    s == RemoteVerify || s == RemoteSettle
  }

  /** A verify call may take effect and still error; it answers well only when the purchase is then verified. */
  predicate VerifyMoves(from: GatewayStatus, to: GatewayStatus, ok: bool) {
    (Lapses(from, to) || (from == RemotePending && to == RemoteVerify)) && (ok ==> HoldsMoney(to))
  }

  /** The same for settle: only a verified purchase is settled, and a good answer means that it is. */
  predicate SettleMoves(from: GatewayStatus, to: GatewayStatus, ok: bool) {
    (Lapses(from, to) || (from == RemoteVerify && to == RemoteSettle)) && (ok ==> to == RemoteSettle)
  }

  /** A status question is answered truthfully or not at all. */
  predicate StatusMoves(from: GatewayStatus, to: GatewayStatus, status: Option<GatewayStatus>) {
    Lapses(from, to) && (status.Some? ==> status.value == to)
  }

  datatype Reply = VerifyReply(ok: bool) | SettleReply(ok: bool) | StatusReply(status: Option<GatewayStatus>)

  /** A reply the remote may give while it moves; in mock mode every call succeeds and nobody is asked. */
  predicate ReplyPossible(from: GatewayStatus, to: GatewayStatus, r: Reply, mock: bool) {
    if mock then to == from && (match r
                                case VerifyReply(ok) => ok
                                case SettleReply(ok) => ok
                                case StatusReply(status) => status == Some(RemoteSettle))
    else match r
         case VerifyReply(ok) => VerifyMoves(from, to, ok)
         case SettleReply(ok) => SettleMoves(from, to, ok)
         case StatusReply(status) => StatusMoves(from, to, status)
  }

  /** One purchase on the remote side. */
  class Remote {
    const mock: bool
    var state: GatewayStatus
    var verifyCalls: nat
    var settleCalls: nat
    /** Everything the remote replied, oldest first. */
    ghost var replies: seq<Reply>
    /** The purchase has been verified at some time. */
    ghost var everVerified: bool

    constructor (mock: bool)
      ensures Valid() && this.mock == mock && state == RemotePending && replies == []
    {
      this.mock, state, verifyCalls, settleCalls := mock, RemotePending, 0, 0;
      replies, everVerified := [], false;
    }

    ghost predicate Valid()
      reads this
    {
      HoldsMoney(state) ==> everVerified
    }

    method Verify() returns (answered: bool)
      requires Valid()
      modifies this
      ensures Valid() && (old(everVerified) || (answered && !mock) ==> everVerified)
      ensures ReplyPossible(old(state), state, VerifyReply(answered), mock)
      ensures replies == old(replies) + [VerifyReply(answered)]
      ensures verifyCalls == old(verifyCalls) + (if mock then 0 else 1) && settleCalls == old(settleCalls)
    {
      if mock {
        answered := true;
      } else {
        verifyCalls := verifyCalls + 1;
        Lapse();
        var reached: bool := *;
        if reached && state == RemotePending {
          state := RemoteVerify;
          everVerified := true;
        }
        var replied: bool := *;
        answered := replied && reached && HoldsMoney(state);
      }
      replies := replies + [VerifyReply(answered)];
    }

    /** May only be called once the purchase is known to have been verified. */
    method Settle() returns (answered: bool)
      requires Valid() && (mock || everVerified)
      modifies this
      ensures Valid() && everVerified == old(everVerified)
      ensures ReplyPossible(old(state), state, SettleReply(answered), mock)
      ensures replies == old(replies) + [SettleReply(answered)]
      ensures settleCalls == old(settleCalls) + (if mock then 0 else 1) && verifyCalls == old(verifyCalls)
    {
      if mock {
        answered := true;
      } else {
        settleCalls := settleCalls + 1;
        Lapse();
        var reached: bool := *;
        if reached && state == RemoteVerify {
          state := RemoteSettle;
        }
        var replied: bool := *;
        answered := replied && state == RemoteSettle;
      }
      replies := replies + [SettleReply(answered)];
    }

    method GetStatus() returns (status: Option<GatewayStatus>)
      requires Valid()
      modifies this
      ensures Valid() && everVerified == old(everVerified)
      ensures ReplyPossible(old(state), state, StatusReply(status), mock)
      ensures replies == old(replies) + [StatusReply(status)]
      ensures verifyCalls == old(verifyCalls) && settleCalls == old(settleCalls)
    {
      if mock {
        status := Some(RemoteSettle);
      } else {
        Lapse();
        var replied: bool := *;
        status := if replied then Some(state) else None;
      }
      replies := replies + [StatusReply(status)];
    }

    method Lapse()
      requires Valid()
      modifies this`state
      ensures Valid() && Lapses(old(state), state)
    {
      var lapsed: bool, into: GatewayStatus := *, *;
      if lapsed && Lapses(state, into) {
        state := into;
      }
    }
  }

  // ------------------------------------------------------------ the talks

  /** What a talk with Snapp Pay comes to. */
  datatype Verdict =
    | Finalize                       // settled: mark the order paid
    | Hold                           // verified but not settled: keep the order for the admin
    | Fail(status: GatewayStatus)    // release the order
    | Mark(status: GatewayStatus)    // only write the status down
    | Error                          // the request throws; nothing is written

  datatype Caller = ByCallback | ByAdmin

  /** Where a talk stands: the call it makes next, or its verdict. */
  datatype Talk =
    | Refusing                                // a callback that says the customer did not pay: asks the status
    | Inquiring(paid: bool)                   // an admin's question, for an attempt read as paid or not
    | Verifying(caller: Caller, attempt: nat)
    | VerifyUnclear(caller: Caller, attempt: nat) // verify errored: asks the status
    | Settling(caller: Caller, attempt: nat)
    | SettleUnclear(caller: Caller, attempt: nat) // settle errored: asks the status
    | SettlingOnce                            // an admin's reconcile of a verified purchase
    | Caught                                  // the callback's handler: asks the status
    | Ended(verdict: Verdict)

  /** `verifyAndSettle` throws: the callback catches it, a reconcile does not. */
  function Thrown(caller: Caller): Talk {
    if caller == ByCallback then Caught else Ended(Error)
  }

  function StatusOr(status: Option<GatewayStatus>): GatewayStatus { status.GetOr(RemoteOther) }

  /** How a talk goes on after a status answer. */
  function AfterStatus(t: Talk, status: Option<GatewayStatus>): Talk {
    match t
    case Refusing =>
      if status == Some(RemoteVerify) || status == Some(RemoteSettle) then Verifying(ByCallback, 0)
      else Ended(Fail(StatusOr(status)))
    case Inquiring(paid) =>
      if status.None? then Ended(Error)
      else if paid then Ended(Mark(status.value))
      else (match status.value
            case RemotePending => Verifying(ByAdmin, 0)
            case RemoteVerify => SettlingOnce
            case RemoteSettle => Ended(Finalize)
            case other => Ended(Fail(other)))
    case VerifyUnclear(caller, attempt) =>
      if status == Some(RemoteVerify) || status == Some(RemoteSettle) then Settling(caller, 0)
      else if status == Some(RemotePending) && attempt < 2 then Verifying(caller, attempt + 1)
      else Thrown(caller)
    case SettleUnclear(caller, attempt) =>
      if status == Some(RemoteSettle) then Ended(Finalize)
      else if attempt < 2 then Settling(caller, attempt + 1)
      else Thrown(caller)
    case Caught =>
      if status == Some(RemoteSettle) then Ended(Finalize)
      else if status == Some(RemoteVerify) then Ended(Hold)
      else Ended(Fail(StatusOr(status)))
    case _ => t
  }

  /** How a talk goes on after a reply to the call it makes. */
  function NextTalk(t: Talk, r: Reply): Talk {
    match r
    case VerifyReply(ok) =>
      if t.Verifying? then (if ok then Settling(t.caller, 0) else VerifyUnclear(t.caller, t.attempt)) else t
    case SettleReply(ok) =>
      if t.Settling? then (if ok then Ended(Finalize) else SettleUnclear(t.caller, t.attempt))
      else if t.SettlingOnce? then Ended(if ok then Finalize else Error)
      else t
    case StatusReply(status) => AfterStatus(t, status)
  }

  /** The reply answers the call the talk makes. */
  predicate Answers(t: Talk, r: Reply) {
    match t
    case Verifying(_, _) => r.VerifyReply?
    case Settling(_, _) => r.SettleReply?
    case SettlingOnce => r.SettleReply?
    case Ended(_) => false
    case _ => r.StatusReply?
  }

  function Follow(t: Talk, said: seq<Reply>): Talk {
    if said == [] then t else NextTalk(Follow(t, said[..|said| - 1]), said[|said| - 1])
  }

  lemma FollowOne(t: Talk, said: seq<Reply>, r: Reply)
    ensures Follow(t, said + [r]) == NextTalk(Follow(t, said), r)
  {
    assert (said + [r])[..|said|] == said;
  }

  lemma {:induction false} FollowConcat(t: Talk, a: seq<Reply>, b: seq<Reply>)
    ensures Follow(t, a + b) == Follow(Follow(t, a), b)
  {
    if b == [] {
      assert a + b == a;
    } else {
      var b' := b[..|b| - 1];
      FollowConcat(t, a, b');
      assert a + b == (a + b') + [b[|b| - 1]];
      FollowOne(t, a + b', b[|b| - 1]);
    }
  }

  /** The last thing said was a status question without an answer. */
  predicate LastAnswerLost(said: seq<Reply>) {
    said != [] && said[|said| - 1] == StatusReply(None)
  }

  /** A talk that threw in the callback goes on with the handler's status question, and that is its last. */
  lemma HandlerEnds(t: Talk, said: seq<Reply>, status: Option<GatewayStatus>)
    requires Follow(t, said) == Caught
    ensures Follow(t, said + [StatusReply(status)]) == AfterStatus(Caught, status)
    ensures LastAnswerLost(said + [StatusReply(status)]) <==> status.None?
  {
    FollowOne(t, said, StatusReply(status));
  }

  lemma LostAtEnd(a: seq<Reply>, b: seq<Reply>)
    requires b != []
    ensures LastAnswerLost(a + b) <==> LastAnswerLost(b)
  {
  }

  predicate Answered(r: Reply) {
    match r
    case VerifyReply(ok) => ok
    case SettleReply(ok) => ok
    case StatusReply(status) => status.Some?
  }

  /** No call errored and no question went unanswered. */
  predicate AllAnswered(said: seq<Reply>) {
    forall i :: 0 <= i < |said| ==> Answered(said[i])
  }

  lemma AllAnsweredConcat(a: seq<Reply>, b: seq<Reply>)
    ensures AllAnswered(a + b) <==> AllAnswered(a) && AllAnswered(b)
  {
    if AllAnswered(a + b) {
      forall i | 0 <= i < |a| ensures Answered(a[i]) { assert (a + b)[i] == a[i]; }
      forall i | 0 <= i < |b| ensures Answered(b[i]) { assert (a + b)[|a| + i] == b[i]; }
    }
  }

  lemma OneAnswered(r: Reply)
    ensures AllAnswered([r]) <==> Answered(r)
  {
    assert [r][0] == r;
  }

  /** One more reply leaves everything answered exactly when it is an answer. */
  lemma AnsweredOneMore(said: seq<Reply>, r: Reply)
    ensures AllAnswered(said + [r]) <==> AllAnswered(said) && Answered(r)
  {
    AllAnsweredConcat(said, [r]);
    OneAnswered(r);
  }

  /** The last thing said is a status, and not one of a purchase that holds money. */
  predicate EndsWithoutMoney(said: seq<Reply>) {
    said != [] && said[|said| - 1].StatusReply? && (said[|said| - 1].status.Some? ==> !HoldsMoney(said[|said| - 1].status.value))
  }

  /** The verify loop: it ends verified, or the purchase cannot be verified and the call throws. */
  method VerifyUntilKnown(remote: Remote, caller: Caller) returns (verified: bool, ghost said: seq<Reply>)
    requires remote.Valid()
    modifies remote
    ensures remote.Valid() && remote.replies == old(remote.replies) + said
    ensures Follow(Verifying(caller, 0), said) == if verified then Settling(caller, 0) else Thrown(caller)
    ensures verified ==> remote.mock || remote.everVerified
    ensures remote.verifyCalls <= old(remote.verifyCalls) + 3 && remote.settleCalls == old(remote.settleCalls)
    ensures remote.mock ==> verified && remote.verifyCalls == old(remote.verifyCalls)
    ensures !verified && remote.state == RemoteSettle ==> StatusReply(None) in said
    ensures !verified ==> !AllAnswered(said) && EndsWithoutMoney(said)
    ensures !verified && said[|said| - 1] == StatusReply(Some(RemotePending)) ==> remote.verifyCalls == old(remote.verifyCalls) + 3
  {
    verified, said := false, [];
    for attempt := 0 to 3
      invariant remote.Valid() && remote.replies == old(remote.replies) + said
      invariant Follow(Verifying(caller, 0), said) == if attempt < 3 then Verifying(caller, attempt) else Thrown(caller)
      invariant remote.verifyCalls == old(remote.verifyCalls) + attempt && remote.settleCalls == old(remote.settleCalls)
      invariant attempt > 0 ==> !AllAnswered(said) && EndsWithoutMoney(said)
      invariant !verified && (remote.mock ==> attempt == 0 && remote.verifyCalls == old(remote.verifyCalls))
      invariant attempt > 0 && remote.state == RemoteSettle ==> StatusReply(None) in said
    {
      var answered := remote.Verify();
      FollowOne(Verifying(caller, 0), said, VerifyReply(answered));
      AnsweredOneMore(said, VerifyReply(answered));
      said := said + [VerifyReply(answered)];
      if answered {
        verified := true;
        return;
      }
      var status := remote.GetStatus();
      FollowOne(Verifying(caller, 0), said, StatusReply(status));
      AnsweredOneMore(said, StatusReply(status));
      said := said + [StatusReply(status)];
      if status == Some(RemoteVerify) || status == Some(RemoteSettle) {
        verified := true;
        return;
      }
      if status != Some(RemotePending) {
        return;
      }
    }
  }

  /** The settle loop. */
  method SettleUntilKnown(remote: Remote, caller: Caller) returns (settled: bool, ghost said: seq<Reply>)
    requires remote.Valid() && (remote.mock || remote.everVerified)
    modifies remote
    ensures remote.Valid() && remote.replies == old(remote.replies) + said
    ensures Follow(Settling(caller, 0), said) == if settled then Ended(Finalize) else Thrown(caller)
    ensures settled ==> (remote.mock || remote.state == RemoteSettle) && said != [] && !LastAnswerLost(said)
    ensures remote.settleCalls <= old(remote.settleCalls) + 3 && remote.verifyCalls == old(remote.verifyCalls)
    ensures remote.everVerified == old(remote.everVerified)
    ensures remote.mock ==> settled && remote.settleCalls == old(remote.settleCalls)
    ensures !settled && remote.state == RemoteSettle ==> StatusReply(None) in said
    ensures !settled ==> !AllAnswered(said) && remote.settleCalls == old(remote.settleCalls) + 3
  {
    settled, said := false, [];
    for attempt := 0 to 3
      invariant remote.Valid() && remote.everVerified == old(remote.everVerified)
      invariant remote.replies == old(remote.replies) + said
      invariant Follow(Settling(caller, 0), said) == if attempt < 3 then Settling(caller, attempt) else Thrown(caller)
      invariant remote.settleCalls == old(remote.settleCalls) + attempt && remote.verifyCalls == old(remote.verifyCalls)
      invariant attempt > 0 ==> !AllAnswered(said)
      invariant !settled && (remote.mock ==> attempt == 0 && remote.settleCalls == old(remote.settleCalls))
      invariant attempt > 0 && remote.state == RemoteSettle ==> StatusReply(None) in said
    {
      var answered := remote.Settle();
      FollowOne(Settling(caller, 0), said, SettleReply(answered));
      AnsweredOneMore(said, SettleReply(answered));
      said := said + [SettleReply(answered)];
      if answered {
        settled := true;
        return;
      }
      var status := remote.GetStatus();
      FollowOne(Settling(caller, 0), said, StatusReply(status));
      AnsweredOneMore(said, StatusReply(status));
      said := said + [StatusReply(status)];
      if status == Some(RemoteSettle) {
        settled := true;
        return;
      }
      if status != Some(RemoteVerify) && attempt == 2 {
        return;
      }
    }
  }

  /**
   `verifyAndSettle`. Returning normally means the remote is settled (or that payments are mocked and nobody was
   asked); at most three verify and three settle calls are made; settle is never called unless verify is known to
   have landed; and a settled remote is missed only when a status question went unanswered. It gives up only after
   three settle calls, after three verify calls, or on a status that is neither pending nor holds money.
   */
  method VerifyAndSettle(remote: Remote, caller: Caller) returns (settled: bool, ghost said: seq<Reply>)
    requires remote.Valid()
    modifies remote
    ensures remote.Valid() && remote.replies == old(remote.replies) + said
    ensures Follow(Verifying(caller, 0), said) == if settled then Ended(Finalize) else Thrown(caller)
    ensures settled ==> (remote.mock || remote.state == RemoteSettle) && said != [] && !LastAnswerLost(said)
    ensures remote.verifyCalls <= old(remote.verifyCalls) + 3 && remote.settleCalls <= old(remote.settleCalls) + 3
    ensures remote.settleCalls > old(remote.settleCalls) ==> remote.everVerified
    ensures remote.mock ==>
              settled && remote.verifyCalls == old(remote.verifyCalls) && remote.settleCalls == old(remote.settleCalls)
    ensures !settled && remote.state == RemoteSettle ==> StatusReply(None) in said
    ensures !settled ==> !AllAnswered(said)
    ensures !settled && remote.settleCalls < old(remote.settleCalls) + 3 ==>
              EndsWithoutMoney(said) &&
              (said[|said| - 1] == StatusReply(Some(RemotePending)) ==> remote.verifyCalls == old(remote.verifyCalls) + 3)
  {
    var verified, first := VerifyUntilKnown(remote, caller);
    if !verified {
      return false, first;
    }
    var done, second := SettleUntilKnown(remote, caller);
    FollowConcat(Verifying(caller, 0), first, second);
    AllAnsweredConcat(first, second);
    settled, said := done, first + second;
  }

  /**
   What a callback has to make of the purchase: pay the order when it is settled, keep the order when it is verified,
   and fail it when it is neither. Only a last question without an answer hides what the purchase is.
   */
  function VerdictOn(state: GatewayStatus, lost: bool): Verdict {
    if lost then Fail(RemoteOther)
    else match state
         case RemoteSettle => Finalize
         case RemoteVerify => Hold
         case other => Fail(other)
  }

  /**
   `verifyAndSettle` in a callback, and the handler that asks for the status when it throws. The verdict is the one the
   purchase calls for, unless that last question went unanswered.
   */
  method SettleOrHandle(remote: Remote) returns (verdict: Verdict, ghost said: seq<Reply>)
    requires remote.Valid()
    modifies remote
    ensures remote.Valid() && remote.replies == old(remote.replies) + said && said != []
    ensures Follow(Verifying(ByCallback, 0), said) == Ended(verdict)
    ensures verdict == Finalize || verdict == Hold || verdict.Fail?
    ensures if remote.mock then verdict == Finalize else verdict == VerdictOn(remote.state, LastAnswerLost(said))
    ensures remote.mock ==> !LastAnswerLost(said)
  {
    var settled, first := VerifyAndSettle(remote, ByCallback);
    if settled {
      verdict, said := Finalize, first;
      return;
    }
    var status := remote.GetStatus();
    HandlerEnds(Verifying(ByCallback, 0), first, status);
    said := first + [StatusReply(status)];
    if status == Some(RemoteSettle) {
      verdict := Finalize;
    } else if status == Some(RemoteVerify) {
      verdict := Hold;
    } else {
      verdict := Fail(StatusOr(status));
    }
  }

  /** Where a callback's talk starts, by what the return URL says of the customer. */
  function CallbackStart(customerOk: bool): Talk {
    if customerOk then Verifying(ByCallback, 0) else Refusing
  }

  /**
   Phase two of `snappPayCallback`, whatever the return URL says of the customer: the verdict is the one the purchase
   calls for, unless the last thing asked was its status and no answer came.
   */
  method TalkForCallback(remote: Remote, customerOk: bool) returns (verdict: Verdict, ghost said: seq<Reply>)
    requires remote.Valid()
    modifies remote
    ensures remote.Valid() && remote.replies == old(remote.replies) + said
    ensures Follow(CallbackStart(customerOk), said) == Ended(verdict)
    ensures verdict == Finalize || verdict == Hold || verdict.Fail?
    ensures if remote.mock then verdict == Finalize else verdict == VerdictOn(remote.state, LastAnswerLost(said))
    ensures remote.mock ==> !LastAnswerLost(said)
  {
    if customerOk {
      verdict, said := SettleOrHandle(remote);
      return;
    }
    var status := remote.GetStatus();
    ghost var asked := [] + [StatusReply(status)];
    FollowOne(Refusing, [], StatusReply(status));
    if status != Some(RemoteVerify) && status != Some(RemoteSettle) {
      verdict, said := Fail(StatusOr(status)), asked;
      return;
    }
    var v, more := SettleOrHandle(remote);
    FollowConcat(Refusing, asked, more);
    LostAtEnd(asked, more);
    verdict, said := v, asked + more;
  }

  /**
   The remote part of `reconcileSnappPay`, for an attempt read as paid or not. It finalizes only what is settled
   and fails only what the remote has answered to be neither pending nor holding money; it throws only when something
   errored or went unanswered, and otherwise finalizes what is settled and fails everything else.
   */
  method TalkForReconcile(remote: Remote, paid: bool) returns (verdict: Verdict, ghost said: seq<Reply>)
    requires remote.Valid()
    modifies remote
    ensures remote.Valid() && remote.replies == old(remote.replies) + said
    ensures Follow(Inquiring(paid), said) == Ended(verdict)
    ensures verdict == Finalize ==> !paid && (remote.mock || remote.state == RemoteSettle)
    ensures verdict.Fail? ==> !paid && remote.state == verdict.status && !HoldsMoney(remote.state) && remote.state != RemotePending
    ensures verdict.Mark? ==> paid && (remote.mock || remote.state == verdict.status)
    ensures verdict != Hold
    ensures !remote.mock && AllAnswered(said) ==>
              verdict == if paid then Mark(remote.state)
                         else if remote.state == RemoteSettle then Finalize else Fail(remote.state)
    ensures remote.mock && !paid ==> verdict == Finalize
  {
    var status := remote.GetStatus();
    FollowOne(Inquiring(paid), [], StatusReply(status));
    AnsweredOneMore([], StatusReply(status));
    said := [] + [StatusReply(status)];
    if status.None? {
      verdict := Error;
      return;
    }
    if paid {
      verdict := Mark(status.value);
      return;
    }
    if status == Some(RemotePending) {
      var settled, more := VerifyAndSettle(remote, ByAdmin);
      FollowConcat(Inquiring(paid), said, more);
      AllAnsweredConcat(said, more);
      said := said + more;
      verdict := if settled then Finalize else Error;
    } else if status == Some(RemoteVerify) {
      var answered := remote.Settle();
      FollowOne(Inquiring(paid), said, SettleReply(answered));
      AnsweredOneMore(said, SettleReply(answered));
      said := said + [SettleReply(answered)];
      verdict := if answered then Finalize else Error;
    } else if status == Some(RemoteSettle) {
      verdict := Finalize;
    } else {
      verdict := Fail(status.value);
    }
  }

  // --------------------------------------------------------------- cancel

  predicate Cancelable(t: Tables, id: OrderId) {
    && id in t.attempts && t.attempts[id].provider == Provider.SnappPay && t.attempts[id].hasToken
    && t.attempts[id].status == Captured && t.attempts[id].gatewayStatus != Some(RemoteCancel)
  }

  /** The writes after a remote cancel: the order is canceled, its payment stays recorded. */
  function CanceledRemotely(t: Tables, id: OrderId): Tables
    requires id in t.attempts
  {
    t.(attempts := t.attempts[id := t.attempts[id].(gatewayStatus := Some(RemoteCancel))],
       orders := if id in t.orders then t.orders[id := t.orders[id].(orderStatus := Canceled)] else t.orders)
  }

  method Cancel(db: Database, id: OrderId, remoteAccepts: bool) returns (ok: bool)
    modifies db
    ensures ok == (Cancelable(old(db.Snapshot()), id) && remoteAccepts)
    ensures ok ==> old(db.attempts)[id].provider == Provider.SnappPay && old(db.attempts)[id].hasToken &&
                   old(db.attempts)[id].status == Captured && old(db.attempts)[id].gatewayStatus != Some(RemoteCancel)
    ensures db.Snapshot() == if ok then CanceledRemotely(old(db.Snapshot()), id) else old(db.Snapshot())
  {
    ok := Cancelable(db.Snapshot(), id) && remoteAccepts;
    if ok {
      db.attempts := db.attempts[id := db.attempts[id].(gatewayStatus := Some(RemoteCancel))];
      if id in db.orders {
        db.orders := db.orders[id := db.orders[id].(orderStatus := Canceled)];
      }
    }
  }

  predicate Reducible(t: Tables, id: OrderId) {
    && id in t.attempts && id in t.orders && t.attempts[id].provider == Provider.SnappPay && t.attempts[id].hasToken
    && t.attempts[id].status == Captured && t.attempts[id].gatewayStatus != Some(RemoteCancel)
  }

  /**
   A cancelled purchase can be neither cancelled again nor reduced. Its order is canceled but stays paid, with its
   items, its amounts and its derived wallet share; no unit goes back to the shelf, no code is given back, and no other
   order or attempt changes.
   */
  lemma CanceledForGood(t: Tables, id: OrderId, other: OrderId)
    requires Cancelable(t, id) && id in t.orders && other != id
    ensures var r := CanceledRemotely(t, id);
            !Cancelable(r, id) && !Reducible(r, id) && (forall q :: ReductionPlan(r, id, q).Throws?) &&
            r.attempts[id].status == Captured && r.attempts[id].reference == t.attempts[id].reference &&
            r.attempts[id].amount == t.attempts[id].amount &&
            r.orders[id].paymentStatus == t.orders[id].paymentStatus && r.orders[id].orderStatus == Canceled &&
            r.orders[id].items == t.orders[id].items && MoneySnapshot(r.orders[id]) == MoneySnapshot(t.orders[id]) &&
            r.stock == t.stock && r.codes == t.codes && r.rows == t.rows &&
            (other in t.orders <==> other in r.orders) && (other in t.orders ==> r.orders[other] == t.orders[other]) &&
            (other in t.attempts ==> other in r.attempts && r.attempts[other] == t.attempts[other]) &&
            (Cancelable(t, other) <==> Cancelable(r, other)) && (Reducible(t, other) <==> Reducible(r, other))
  {
  }

  // --------------------------------------------------------------- reduce

  /** The plan `update` makes from what it reads. */
  function ReductionPlan(t: Tables, id: OrderId, newQuantities: map<nat, nat>): (r: Result<Plan>) {
    if Reducible(t, id) then PlanReduction(t.orders[id], newQuantities) else Throws
  }

  /** The transaction that writes a plan, over whatever the order is by then. */
  function ReductionCommitted(t: Tables, id: OrderId, p: Plan): Tables
    requires id in t.orders && id in t.attempts
  {
    t.(orders := t.orders[id := CommitPlan(t.orders[id], p)],
       attempts := t.attempts[id := t.attempts[id].(amount := p.newPayable)])
  }

  /** The item loop of that transaction, one row at a time. */
  method CommitReduction(db: Database, id: OrderId, p: Plan)
    requires id in db.orders && id in db.attempts
    modifies db
    ensures db.Snapshot() == ReductionCommitted(old(db.Snapshot()), id, p)
    ensures db.attempts[id].amount == db.orders[id].payable
  {
    var o := db.orders[id];
    var items := o.items;
    for i := 0 to |o.items|
      invariant |items| == |o.items|
      invariant forall k :: 0 <= k < i ==> items[k] == ApplyChanges(o.items, p.changes)[k]
      invariant forall k :: i <= k < |items| ==> items[k] == o.items[k]
    {
      if i in p.changes {
        items := items[i := items[i].(quantity := p.changes[i], isDeleted := items[i].isDeleted || p.changes[i] == 0)];
      }
    }
    assert items == ApplyChanges(o.items, p.changes);
    db.orders := db.orders[id := o.(items := items, total := p.newSubtotal, payable := p.newPayable)];
    db.attempts := db.attempts[id := db.attempts[id].(amount := p.newPayable)];
  }

  /** `update` when nothing runs between its read and its write. */
  method Reduce(db: Database, id: OrderId, newQuantities: map<nat, nat>, remoteAccepts: bool) returns (ok: bool)
    modifies db
    ensures var plan := ReductionPlan(old(db.Snapshot()), id, newQuantities);
            ok == (plan.Returns? && remoteAccepts) &&
            db.Snapshot() == if ok then ReductionCommitted(old(db.Snapshot()), id, plan.value) else old(db.Snapshot())
    ensures ok ==> old(db.attempts)[id].provider == Provider.SnappPay && old(db.attempts)[id].hasToken &&
                   old(db.attempts)[id].status == Captured && old(db.attempts)[id].gatewayStatus != Some(RemoteCancel)
  {
    var plan := ReductionPlan(db.Snapshot(), id, newQuantities);
    if plan.Throws? || !remoteAccepts {
      return false;
    }
    CommitReduction(db, id, plan.value);
    ok := true;
  }
}
