/**
 Snapp Pay payments over whole runs: the uninterrupted callback is one of the runs, its talk being a series of calls
 between which anything may happen in other runs, and a purchase that a talk found settled is never dropped.
 */
module SnappLaw {
  import opened Wrappers
  import opened ShopTables
  import opened OrderReservation
  import opened Sweeper
  import opened Payment
  import opened SnappPay
  import opened SnappCallback
  import opened ShopRuns
  import opened StatusLaw
  import opened PaymentLaw

  /** A reply and what the remote is after it. */
  datatype Call = Call(reply: Reply, to: GatewayStatus)

  function Replies(calls: seq<Call>): (r: seq<Reply>)
    ensures |r| == |calls|
  {
    seq(|calls|, i requires 0 <= i < |calls| => calls[i].reply)
  }

  /** Each call is the one the talk makes, and is answered as the remote may answer it. */
  predicate Possible(talk: Talk, from: GatewayStatus, calls: seq<Call>, mock: bool)
    decreases |calls|
  {
    calls == [] || (Answers(talk, calls[0].reply) && ReplyPossible(from, calls[0].to, calls[0].reply, mock) &&
                    Possible(NextTalk(talk, calls[0].reply), calls[0].to, calls[1..], mock))
  }

  function TalkSteps(id: OrderId, talk: Talk, calls: seq<Call>): seq<Step>
    decreases |calls|
  {
    if calls == [] then []
    else [OnPayment(TalkGoesOn(id, talk, calls[0].reply, calls[0].to))] +
         TalkSteps(id, NextTalk(talk, calls[0].reply), calls[1..])
  }

  /** What the remote is after the calls. */
  function RemoteAfter(from: GatewayStatus, calls: seq<Call>): GatewayStatus
    decreases |calls|
  {
    if calls == [] then from else RemoteAfter(calls[0].to, calls[1..])
  }

  lemma FollowFirst(talk: Talk, calls: seq<Call>)
    requires calls != []
    ensures Follow(talk, Replies(calls)) == Follow(NextTalk(talk, calls[0].reply), Replies(calls[1..]))
  {
    assert Replies(calls) == [calls[0].reply] + Replies(calls[1..]);
    FollowConcat(talk, [calls[0].reply], Replies(calls[1..]));
    FollowOne(talk, [], calls[0].reply);
    assert [] + [calls[0].reply] == [calls[0].reply];
  }

  /** A talk nobody interrupts, call by call: it ends where its replies lead, and touches no table. */
  lemma {:induction false} TalkIsARun(w: World, id: OrderId, talk: Talk, calls: seq<Call>)
    requires (id, talk) in w.talks && Possible(talk, RemoteOf(w, id), calls, w.mockMode)
    ensures var end := Run(w, TalkSteps(id, talk, calls));
            (id, Follow(talk, Replies(calls))) in end.talks && end.t == w.t && end.now == w.now &&
            RemoteOf(end, id) == RemoteAfter(RemoteOf(w, id), calls)
    decreases |calls|
  {
    if calls == [] {
      assert Replies(calls) == [];
    } else {
      var e := OnPayment(TalkGoesOn(id, talk, calls[0].reply, calls[0].to));
      var talk' := NextTalk(talk, calls[0].reply);
      FollowFirst(talk, calls);
      RunFirst(w, e, TalkSteps(id, talk', calls[1..]));
      TalkIsARun(Next(w, e), id, talk', calls[1..]);
    }
  }

  /** The step that writes a verdict. */
  function ConcludingStep(id: OrderId, v: Verdict): PaymentStep {
    match v
    case Finalize => SnappFinalize(id)
    case Hold => SnappMark(id, RemoteVerify)
    case Fail(status) => SnappFail(id, status)
    case Mark(status) => SnappMark(id, status)
    case Error => RemoteLapses(id, RemotePending)
  }

  lemma ConcludingStepConcludes(w: World, id: OrderId, v: Verdict)
    requires HasVerdict(w, id, v)
    ensures NextPayment(w, ConcludingStep(id, v)).t == Concluded(w.t, w.now, id, v)
  {
  }

  /** The claim opens the talk and writes the attempt, and nothing else. */
  lemma ClaimingStep(w: World, id: OrderId, customerOk: bool)
    requires Claimable(w.t, id) && w.t.attempts[id].hasToken
    ensures var n := Next(w, OnPayment(SnappClaim(id, customerOk)));
            n.t == ClaimWritten(w.t, id) && (id, CallbackStart(customerOk)) in n.talks &&
            RemoteOf(n, id) == RemoteOf(w, id) && n.mockMode == w.mockMode && n.now == w.now
  {
  }

  lemma TalkedBack(t: Tables, now: Time, id: OrderId, customerOk: bool, said: seq<Reply>, v: Verdict)
    requires Claimable(t, id) && t.attempts[id].hasToken && Follow(CallbackStart(customerOk), said) == Ended(v)
    ensures CalledBack(t, now, id, customerOk, said) == Concluded(ClaimWritten(t, id), now, id, v)
  {
  }

  /**
   The uninterrupted callback is a run of the shop: its claim, its calls one after the other, and the write of its
   verdict leave exactly the tables `SnappPayCallback` leaves for the same replies.
   */
  lemma CallbackIsARun(w: World, id: OrderId, customerOk: bool, calls: seq<Call>, v: Verdict)
    requires Claimable(w.t, id) && w.t.attempts[id].hasToken
    requires Possible(CallbackStart(customerOk), RemoteOf(w, id), calls, w.mockMode)
    requires Follow(CallbackStart(customerOk), Replies(calls)) == Ended(v)
    ensures var claim := [OnPayment(SnappClaim(id, customerOk))];
            var talk := TalkSteps(id, CallbackStart(customerOk), calls);
            Run(w, claim + talk + [OnPayment(ConcludingStep(id, v))]).t ==
            CalledBack(w.t, w.now, id, customerOk, Replies(calls))
  {
    var claim, talk := OnPayment(SnappClaim(id, customerOk)), TalkSteps(id, CallbackStart(customerOk), calls);
    var last := OnPayment(ConcludingStep(id, v));
    ClaimingStep(w, id, customerOk);
    TalkIsARun(Next(w, claim), id, CallbackStart(customerOk), calls);
    ConcludingStepConcludes(Run(Next(w, claim), talk), id, v);
    TalkedBack(w.t, w.now, id, customerOk, Replies(calls), v);
    RunAround(w, claim, talk, last, []);
    assert [claim] + talk + [last] + [] == [claim] + talk + [last];
  }

  lemma FinalizedLands(t: Tables, id: OrderId)
    requires Found(t, id) && Agree(t.orders[id], t.attempts[id]) && !t.orders[id].isDeleted
    ensures PaidOrderAt(Finalized(t, id), id)
    ensures AlreadyPaid(t, id) <==> t.orders[id].paymentStatus == Paid
  {
  }

  /** A finalize that may run pays an order that has not been deleted. */
  lemma FinalizeStepLands(w: World, id: OrderId)
    requires Safe(w) && Known(w, id) && HasVerdict(w, id, Finalize) && !w.t.orders[id].isDeleted
    ensures IsPaid(Next(w, OnPayment(SnappFinalize(id))), id)
    ensures AnnouncedBy(w, OnPayment(SnappFinalize(id)), id) <==> !IsPaid(w, id)
  {
    assert SoundOrder(w.t.orders[id], w.t.attempts[id]);
    FinalizedLands(w.t, id);
  }

  /**
   Once some talk with Snapp Pay has found the purchase settled, the order is paid by that talk's write for good,
   whatever released it meanwhile, unless it was deleted; the write announces it unless it was paid already.
   */
  lemma SettledPurchaseIsNeverDropped(w: World, after: seq<Step>, id: OrderId)
    requires Safe(w) && Known(w, id) && HasVerdict(w, id, Finalize) && !w.t.orders[id].isDeleted
    ensures var end := Run(w, [OnPayment(SnappFinalize(id))] + after);
            IsPaid(end, id) && id in end.t.attempts && end.t.attempts[id].status == Captured
    ensures AnnouncedBy(w, OnPayment(SnappFinalize(id)), id) <==> !IsPaid(w, id)
  {
    var e := OnPayment(SnappFinalize(id));
    FinalizeStepLands(w, id);
    StepKeepsSafe(w, e);
    StatusesAgreeForever(Next(w, e), after);
    RunFirst(w, e, after);
  }

  // ------------------------------------------------- money that is held

  /** A talk that goes on and is told that the purchase is verified never ends by failing or paying the order. */
  lemma VerifiedIsNeitherFailedNorPaid(talk: Talk, said: seq<Reply>, v: Verdict)
    requires !Follow(talk, said).Ended? && Follow(talk, said + [StatusReply(Some(RemoteVerify))]) == Ended(v)
    ensures v == Hold || v == Mark(RemoteVerify) || v == Error
  {
    FollowOne(talk, said, StatusReply(Some(RemoteVerify)));
  }

  lemma LastReply(calls: seq<Call>)
    requires calls != []
    ensures Replies(calls) == Replies(calls[..|calls| - 1]) + [calls[|calls| - 1].reply]
  {
  }

  lemma KeepingStep(w: World, id: OrderId, v: Verdict)
    requires v == Hold || v == Mark(RemoteVerify) || v == Error
    ensures var n := Next(w, OnPayment(ConcludingStep(id, v)));
            n.t == w.t.(attempts := n.t.attempts) &&
            (HasVerdict(w, id, Hold) && v == Hold && id in w.t.attempts ==> KeptForAdmin(w.t, n.t, id))
  {
  }

  /**
   Whoever talks with Snapp Pay, and from wherever the talk is: if the last answer is that the purchase is verified, the
   write of its verdict leaves every order, unit, basket and code as it was.
   */
  lemma VerifiedPurchaseKeepsItsOrder(w: World, id: OrderId, talk: Talk, calls: seq<Call>, v: Verdict)
    requires (id, talk) in w.talks && Possible(talk, RemoteOf(w, id), calls, w.mockMode)
    requires calls != [] && calls[|calls| - 1].reply == StatusReply(Some(RemoteVerify))
    requires !Follow(talk, Replies(calls[..|calls| - 1])).Ended? && Follow(talk, Replies(calls)) == Ended(v)
    ensures var end := Run(w, TalkSteps(id, talk, calls) + [OnPayment(ConcludingStep(id, v))]);
            end.t == w.t.(attempts := end.t.attempts) &&
            (v == Hold && id in w.t.attempts ==> KeptForAdmin(w.t, end.t, id))
  {
    LastReply(calls);
    VerifiedIsNeitherFailedNorPaid(talk, Replies(calls[..|calls| - 1]), v);
    TalkIsARun(w, id, talk, calls);
    RunOneMore(w, TalkSteps(id, talk, calls), OnPayment(ConcludingStep(id, v)));
    KeepingStep(Run(w, TalkSteps(id, talk, calls)), id, v);
  }

  /** No talk about any purchase came to the verdict to fail it with a status under which it holds money. */
  ghost predicate NoHeldMoneyFails(w: World) {
    forall c :: c in w.talks ==> !FailsHeldMoney(c.1)
  }

  predicate FailsHeldMoney(talk: Talk) {
    talk.Ended? && talk.verdict.Fail? && HoldsMoney(talk.verdict.status)
  }

  lemma StepFailsNoHeldMoney(w: World, e: Step)
    requires NoHeldMoneyFails(w)
    ensures NoHeldMoneyFails(Next(w, e))
  {
    if e.OnPayment? { PaymentFailsNoHeldMoney(w, e.p); } else { assert Next(w, e).talks == w.talks; }
  }

  lemma PaymentFailsNoHeldMoney(w: World, p: PaymentStep)
    requires NoHeldMoneyFails(w)
    ensures NoHeldMoneyFails(NextPayment(w, p))
  {
    if p.TalkGoesOn? && (p.id, p.talk) in w.talks { assert !FailsHeldMoney((p.id, p.talk).1); }
  }

  /** In no state of a run can a purchase be failed with a status under which it holds money. */
  lemma {:induction false} HeldMoneyNeverFails(w: World, es: seq<Step>, id: OrderId, status: GatewayStatus)
    requires NoHeldMoneyFails(w) && HoldsMoney(status)
    ensures !HasVerdict(Run(w, es), id, Fail(status))
    ensures Next(Run(w, es), OnPayment(SnappFail(id, status))) == Run(w, es)
    decreases |es|
  {
    if es == [] {
      assert FailsHeldMoney((id, Ended(Fail(status))).1);
    } else {
      StepFailsNoHeldMoney(w, es[0]);
      HeldMoneyNeverFails(Next(w, es[0]), es[1..], id, status);
    }
  }

  // -------------------------------------------------- a charged order lost

  /** The calls are possible and end in the verdict, with the remote in this state. */
  predicate EndsAs(talk: Talk, from: GatewayStatus, calls: seq<Call>, v: Verdict, to: GatewayStatus) {
    Possible(talk, from, calls, false) && Follow(talk, Replies(calls)) == Ended(v) && RemoteAfter(from, calls) == to
  }

  lemma OneCallEarlier(talk: Talk, from: GatewayStatus, c: Call, rest: seq<Call>, v: Verdict, to: GatewayStatus)
    requires Answers(talk, c.reply) && ReplyPossible(from, c.to, c.reply, false)
    requires EndsAs(NextTalk(talk, c.reply), c.to, rest, v, to)
    ensures EndsAs(talk, from, [c] + rest, v, to)
  {
    var calls := [c] + rest;
    assert calls[1..] == rest;
    FollowFirst(talk, calls);
  }

  /** From this settle call on, every settle takes effect or has taken effect, errors, and its status question gets no answer. */
  function UnheardCalls(attempt: nat): seq<Call>
    decreases 3 - attempt
  {
    [Call(SettleReply(false), RemoteSettle)] +
    ([Call(StatusReply(None), RemoteSettle)] +
     if attempt < 2 then UnheardCalls(attempt + 1) else [Call(StatusReply(None), RemoteSettle)])
  }

  lemma {:induction false} UnheardSettles(attempt: nat, from: GatewayStatus)
    requires attempt <= 2 && HoldsMoney(from)
    ensures EndsAs(Settling(ByCallback, attempt), from, UnheardCalls(attempt), Fail(RemoteOther), RemoteSettle)
    decreases 2 - attempt
  {
    var settle, ask := Call(SettleReply(false), RemoteSettle), Call(StatusReply(None), RemoteSettle);
    var rest := if attempt < 2 then UnheardCalls(attempt + 1) else [ask];
    if attempt < 2 {
      UnheardSettles(attempt + 1, RemoteSettle);
      OneCallEarlier(SettleUnclear(ByCallback, attempt), RemoteSettle, ask, rest, Fail(RemoteOther), RemoteSettle);
    } else {
      assert Replies([]) == [];
      OneCallEarlier(Caught, RemoteSettle, ask, [], Fail(RemoteOther), RemoteSettle);
      assert [ask] + [] == [ask];
      OneCallEarlier(SettleUnclear(ByCallback, attempt), RemoteSettle, ask, [ask], Fail(RemoteOther), RemoteSettle);
    }
    OneCallEarlier(Settling(ByCallback, attempt), from, settle, [ask] + rest, Fail(RemoteOther), RemoteSettle);
  }

  /** Verify lands and is answered; of everything asked after that no answer arrives. */
  function UnheardTalk(): seq<Call> { [Call(VerifyReply(true), RemoteVerify)] + UnheardCalls(0) }

  lemma CallbackRunRemote(w: World, id: OrderId, customerOk: bool, calls: seq<Call>, v: Verdict)
    requires Claimable(w.t, id) && w.t.attempts[id].hasToken && v != Error
    requires Possible(CallbackStart(customerOk), RemoteOf(w, id), calls, w.mockMode)
    ensures var claim := [OnPayment(SnappClaim(id, customerOk))];
            var talk := TalkSteps(id, CallbackStart(customerOk), calls);
            var end := Run(w, claim + talk + [OnPayment(ConcludingStep(id, v))]);
            RemoteOf(end, id) == RemoteAfter(RemoteOf(w, id), calls) && end.now == w.now
  {
    var claim, talk := OnPayment(SnappClaim(id, customerOk)), TalkSteps(id, CallbackStart(customerOk), calls);
    var last := OnPayment(ConcludingStep(id, v));
    ClaimingStep(w, id, customerOk);
    TalkIsARun(Next(w, claim), id, CallbackStart(customerOk), calls);
    RunAround(w, claim, talk, last, []);
    assert [claim] + talk + [last] + [] == [claim] + talk + [last];
    assert SameRemote(Run(Next(w, claim), talk), Next(Run(Next(w, claim), talk), last));
  }

  /**
   From every state in which a pending order awaits its callback, there is a run of the callback that releases it
   while its purchase ends settled: the customer is charged for an order that was given up.
   */
  lemma ChargedOrderCanBeReleased(w: World, id: OrderId)
    requires !w.mockMode && AwaitsCallback(w.t, id) && w.t.attempts[id].hasToken && RemoteOf(w, id) == RemotePending
    ensures var talk := TalkSteps(id, CallbackStart(true), UnheardTalk());
            var end := Run(w, [OnPayment(SnappClaim(id, true))] + talk + [OnPayment(SnappFail(id, RemoteOther))]);
            RemoteOf(end, id) == RemoteSettle && id in end.t.orders && end.t.orders[id] == ReleasedOrder(w.t.orders[id])
  {
    var start, calls, v := CallbackStart(true), UnheardTalk(), Fail(RemoteOther);
    UnheardSettles(0, RemoteVerify);
    OneCallEarlier(start, RemotePending, Call(VerifyReply(true), RemoteVerify), UnheardCalls(0), v, RemoteSettle);
    assert EndsAs(start, RemotePending, calls, v, RemoteSettle);
    CallbackIsARun(w, id, true, calls, v);
    CallbackRunRemote(w, id, true, calls, v);
    TalkedBack(w.t, w.now, id, true, Replies(calls), v);
    VerdictWritten(w.t, w.now, id, v);
  }

  // ---------------------------------------------- and the order swept away

  /**
   The sweep does not look at what the gateway holds: an order kept for the admin is released by the first sweep ten minutes
   after its checkout, unless somebody settles it before.
   */
  lemma KeptOrderIsSweptIff(t: Tables, t': Tables, id: OrderId, later: Time)
    requires AwaitsCallback(t, id) && t.orders[id].orderStatus == PendingPayment && KeptForAdmin(t, t', id)
    ensures Releasable(t', id) && (ExpiredOrder(t', later, id) <==> t.orders[id].createdAt + 600_000 <= later)
  {
  }

  /** From this settle call on, every settle errors without effect, and its status question is answered: verified. */
  function HeldCalls(attempt: nat): seq<Call>
    decreases 3 - attempt
  {
    [Call(SettleReply(false), RemoteVerify)] +
    ([Call(StatusReply(Some(RemoteVerify)), RemoteVerify)] +
     if attempt < 2 then HeldCalls(attempt + 1) else [Call(StatusReply(Some(RemoteVerify)), RemoteVerify)])
  }

  lemma {:induction false} HeldSettles(attempt: nat)
    requires attempt <= 2
    ensures EndsAs(Settling(ByCallback, attempt), RemoteVerify, HeldCalls(attempt), Hold, RemoteVerify)
    decreases 2 - attempt
  {
    var settle, ask := Call(SettleReply(false), RemoteVerify), Call(StatusReply(Some(RemoteVerify)), RemoteVerify);
    var rest := if attempt < 2 then HeldCalls(attempt + 1) else [ask];
    if attempt < 2 {
      HeldSettles(attempt + 1);
      OneCallEarlier(SettleUnclear(ByCallback, attempt), RemoteVerify, ask, rest, Hold, RemoteVerify);
    } else {
      assert Replies([]) == [];
      OneCallEarlier(Caught, RemoteVerify, ask, [], Hold, RemoteVerify);
      assert [ask] + [] == [ask];
      OneCallEarlier(SettleUnclear(ByCallback, attempt), RemoteVerify, ask, [ask], Hold, RemoteVerify);
    }
    OneCallEarlier(Settling(ByCallback, attempt), RemoteVerify, settle, [ask] + rest, Hold, RemoteVerify);
  }

  /** Verify lands and is answered; the settles do not take effect. */
  function HeldTalk(): seq<Call> { [Call(VerifyReply(true), RemoteVerify)] + HeldCalls(0) }

  lemma HeldTalkHolds()
    ensures EndsAs(CallbackStart(true), RemotePending, HeldTalk(), Hold, RemoteVerify)
  {
    HeldSettles(0);
    OneCallEarlier(CallbackStart(true), RemotePending, Call(VerifyReply(true), RemoteVerify), HeldCalls(0), Hold, RemoteVerify);
  }

  /** The callback that keeps an order: its claim, its calls, and the write of the status. */
  function KeepingCallback(id: OrderId): seq<Step> {
    [OnPayment(SnappClaim(id, true))] + TalkSteps(id, CallbackStart(true), HeldTalk()) + [OnPayment(SnappMark(id, RemoteVerify))]
  }

  lemma CallbackKeepsTheOrder(w: World, id: OrderId)
    requires !w.mockMode && AwaitsCallback(w.t, id) && w.t.attempts[id].hasToken && RemoteOf(w, id) == RemotePending
    ensures var end := Run(w, KeepingCallback(id));
            KeptForAdmin(w.t, end.t, id) && RemoteOf(end, id) == RemoteVerify && end.now == w.now
  {
    HeldTalkHolds();
    CallbackIsARun(w, id, true, HeldTalk(), Hold);
    CallbackRunRemote(w, id, true, HeldTalk(), Hold);
    TalkedBack(w.t, w.now, id, true, Replies(HeldTalk()), Hold);
    VerdictWritten(w.t, w.now, id, Hold);
  }

  lemma SweepReleases(w: World, id: OrderId)
    requires Releasable(w.t, id)
    ensures var n := Next(w, OnCheckout(SweepOrder(id)));
            id in n.t.orders && n.t.orders[id] == ReleasedOrder(w.t.orders[id]) && RemoteOf(n, id) == RemoteOf(w, id)
  {
  }

  /** What a sweep makes of a kept order once it is ten minutes old. */
  ghost predicate IsSweptLater(o: Order, held: World, id: OrderId) {
    var later := Next(held, Tick(600_000));
    var end := Next(later, OnCheckout(SweepOrder(id)));
    id in held.t.orders && held.t.orders[id] == o && ExpiredOrder(later.t, later.now, id) &&
    id in end.t.orders && end.t.orders[id] == ReleasedOrder(o) && RemoteOf(end, id) == RemoteVerify
  }

  lemma KeptThenSwept(w: World, id: OrderId)
    requires !w.mockMode && AwaitsCallback(w.t, id) && w.t.attempts[id].hasToken && RemoteOf(w, id) == RemotePending
    requires w.t.orders[id].orderStatus == PendingPayment && w.t.orders[id].createdAt <= w.now
    ensures IsSweptLater(w.t.orders[id], Run(w, KeepingCallback(id)), id)
  {
    CallbackKeepsTheOrder(w, id);
    KeptOrderIsSweptIff(w.t, Run(w, KeepingCallback(id)).t, id, w.now + 600_000);
    SweepReleases(Next(Run(w, KeepingCallback(id)), Tick(600_000)), id);
  }

  /**
   So a purchase whose money is held can lose its order: from every state in which a pending order awaits its callback there
   is a run in which the callback keeps the order as it should, and a sweep then releases it while the money stays held.
   */
  lemma HeldOrderCanBeSwept(w: World, id: OrderId)
    requires !w.mockMode && AwaitsCallback(w.t, id) && w.t.attempts[id].hasToken && RemoteOf(w, id) == RemotePending
    ensures var end := Run(w, KeepingCallback(id) + [OnCheckout(SweepOrder(id))]);
            RemoteOf(end, id) == RemoteVerify && id in end.t.orders && end.t.orders[id] == ReleasedOrder(w.t.orders[id])
  {
    CallbackKeepsTheOrder(w, id);
    RunOneMore(w, KeepingCallback(id), OnCheckout(SweepOrder(id)));
    SweepReleases(Run(w, KeepingCallback(id)), id);
  }

  // ------------------------------------------------------------- tokens

  predicate TokenIn(t: Tables, id: OrderId) {
    id in t.attempts && t.attempts[id].hasToken
  }

  predicate HasToken(w: World, id: OrderId) { TokenIn(w.t, id) }

  /** Nobody talks to Snapp Pay about an attempt without a token, so it holds no money for one. */
  ghost predicate TokensHeld(w: World) {
    && (forall id :: id in w.everSettled ==> HasToken(w, id))
    && (forall id :: HoldsMoney(RemoteOf(w, id)) ==> HasToken(w, id))
    && (forall c :: c in w.talks && !c.1.Ended? ==> HasToken(w, c.0))
  }

  lemma CheckoutKeepsToken(w: World, c: CheckoutStep, id: OrderId)
    requires Known(w, id) && HasToken(w, id)
    ensures HasToken(NextCheckout(w, c), id)
  {
    if c.PlaceCheckout? { ReleasedAllOrder(w.t, c.stale, id); }
  }

  lemma MarkKeepsToken(t: Tables, i: OrderId, status: GatewayStatus, id: OrderId)
    requires TokenIn(t, id)
    ensures TokenIn(WithGatewayStatus(t, i, status), id)
  {
  }

  lemma SettleKeepsToken(t: Tables, i: OrderId, status: Option<GatewayStatus>, id: OrderId)
    requires TokenIn(t, id) && i in t.orders && i in t.attempts
    ensures TokenIn(Settled(t, i, status), id)
  {
  }

  lemma AbandonKeepsToken(t: Tables, now: Time, i: OrderId, id: OrderId)
    requires TokenIn(t, id)
    ensures TokenIn(Abandoned(t, now, i), id)
  {
  }

  lemma ClaimKeepsToken(t: Tables, i: OrderId, id: OrderId)
    requires TokenIn(t, id)
    ensures TokenIn(ClaimWritten(t, i), id)
  {
  }

  lemma SnappWriteKeepsToken(w: World, p: PaymentStep, id: OrderId)
    requires HasToken(w, id) && (p.SnappFinalize? || p.SnappFail?)
    ensures HasToken(NextPayment(w, p), id)
  {
    MarkKeepsToken(w.t, p.id, RemoteSettle, id);
    if Known(w, p.id) { SettleKeepsToken(w.t, p.id, Some(RemoteSettle), id); }
    if p.SnappFail? {
      AbandonKeepsToken(w.t, w.now, p.id, id);
      MarkKeepsToken(Abandoned(w.t, w.now, p.id), p.id, p.status, id);
    }
  }

  lemma PaymentKeepsToken(w: World, p: PaymentStep, id: OrderId)
    requires HasToken(w, id)
    ensures HasToken(NextPayment(w, p), id)
  {
    match p
    case CallbackSettle(i) => if Known(w, i) { SettleKeepsToken(w.t, i, None, id); }
    case CallbackFail(i) => AbandonKeepsToken(w.t, w.now, i, id);
    case SnappClaim(i, _) => ClaimKeepsToken(w.t, i, id);
    case SnappFinalize(_) => SnappWriteKeepsToken(w, p, id);
    case SnappFail(_, _) => SnappWriteKeepsToken(w, p, id);
    case SnappMark(i, status) => MarkKeepsToken(w.t, i, status, id);
    case _ => assert NextPayment(w, p).t == w.t;
  }

  lemma AdminKeepsToken(w: World, a: AdminStep, id: OrderId)
    requires HasToken(w, id)
    ensures HasToken(NextAdmin(w, a), id)
  {
  }

  lemma StepKeepsToken(w: World, e: Step, id: OrderId)
    requires Known(w, id) && HasToken(w, id)
    ensures HasToken(Next(w, e), id)
  {
    match e
    case OnCheckout(c) => CheckoutKeepsToken(w, c, id);
    case OnPayment(p) => PaymentKeepsToken(w, p, id);
    case OnAdmin(a) => AdminKeepsToken(w, a, id);
    case _ =>
  }

  /** What a step newly talks about, settles or leaves holding money has a token already. */
  ghost predicate OnlyTokens(w: World, n: World) {
    && (forall id :: id in n.everSettled ==> HasToken(w, id))
    && (forall id :: HoldsMoney(RemoteOf(n, id)) ==> HasToken(w, id))
    && (forall c :: c in n.talks && !c.1.Ended? ==> HasToken(w, c.0))
  }

  lemma RemoteStepOnlyTokens(w: World, id: OrderId, to: GatewayStatus)
    requires TokensHeld(w) && (HoldsMoney(to) ==> HasToken(w, id))
    ensures OnlyTokens(w, RemoteBecomes(w, id, to))
  {
    forall i | HoldsMoney(RemoteOf(RemoteBecomes(w, id, to), i)) ensures HasToken(w, i) {
      if i != id { assert HoldsMoney(RemoteOf(w, i)); }
    }
  }

  lemma PaymentOnlyTokens(w: World, p: PaymentStep)
    requires TokensHeld(w)
    ensures OnlyTokens(w, NextPayment(w, p))
  {
    match p
    case TalkGoesOn(id, talk, reply, to) =>
      if TalkEnabled(w, id, talk, reply, to) {
        assert (id, talk) in w.talks && HasToken(w, (id, talk).0);
        RemoteStepOnlyTokens(w, id, to);
      }
    case RemoteLapses(id, to) =>
      if Lapses(RemoteOf(w, id), to) { RemoteStepOnlyTokens(w, id, to); }
    case _ => assert forall i :: RemoteOf(NextPayment(w, p), i) == RemoteOf(w, i);
  }

  lemma AdminOnlyTokens(w: World, a: AdminStep)
    requires TokensHeld(w)
    ensures OnlyTokens(w, NextAdmin(w, a))
  {
    if a.CancelCall? { RemoteStepOnlyTokens(w, a.id, RemoteCancel); }
    else { assert forall i :: RemoteOf(NextAdmin(w, a), i) == RemoteOf(w, i); }
  }

  lemma StepKeepsTokensHeld(w: World, e: Step)
    requires Safe(w) && TokensHeld(w)
    ensures TokensHeld(Next(w, e))
  {
    var n := Next(w, e);
    match e {
      case OnPayment(p) => PaymentOnlyTokens(w, p);
      case OnAdmin(a) => AdminOnlyTokens(w, a);
      case _ => assert forall i :: RemoteOf(n, i) == RemoteOf(w, i);
    }
    assert OnlyTokens(w, n);
    forall id | HasToken(w, id) ensures HasToken(n, id) {
      StepKeepsToken(w, e, id);
    }
  }

  /** Over any run, only purchases of attempts with a token are talked about, hold money or were ever settled. */
  lemma {:induction false} TokensHeldForever(w: World, es: seq<Step>)
    requires Safe(w) && TokensHeld(w)
    ensures TokensHeld(Run(w, es))
    decreases |es|
  {
    if es != [] {
      StepKeepsSafe(w, es[0]);
      StepKeepsTokensHeld(w, es[0]);
      TokensHeldForever(Next(w, es[0]), es[1..]);
    }
  }
}
