/**
 The wallets as a state machine. A transaction is one step. Where a service reads outside its transaction, the read
 and the write are separate steps; what was read is kept in the world, anything may happen in between, and it may be
 written any number of times, so that requests which read the same need not be told apart.
 */
module WalletRuns {
  import opened Wrappers
  import opened ShopTables
  import opened Wallet
  import opened CashbackRules

  /** An application of cashback past its read. */
  datatype PendingApply = PendingApply(user: UserId, amount: nat)

  datatype RewardKind = CashbackReward | CouponReward

  /** A reward found due and not issued yet; a coupon for a referral may be without an order. */
  datatype PendingIssue = PendingIssue(
    incentive: nat, customer: UserId, order: Option<OrderId>, amount: nat, kind: RewardKind, expiresAt: Option<Time>)

  datatype WalletWorld = WalletWorld(
    b: Books,
    now: Time,
    opening: set<TopUpId>,           // top-ups whose gateway has not answered `topUp` yet
    resolving: set<WithdrawalId>,    // withdrawals an admin request read as pending
    crediting: set<OrderId>,         // referrals a grant read as not credited, on a paid order
    applying: set<PendingApply>,     // applications past the read of the ledger
    issuing: set<PendingIssue>)      // rewards past the check for an earlier one

  datatype TopUpStep =
    | OpenTopUp(topUp: TopUpId, user: UserId, amount: nat)
    | GatewayRefuses(topUp: TopUpId)
    | MockPays(topUp: TopUpId)
    | GatewayAccepts(topUp: TopUpId)
    | TopUpCallback(topUp: TopUpId, verified: bool)

  datatype WithdrawalStep =
    | AskWithdrawal(withdrawal: WithdrawalId, user: UserId, amount: nat)
    | ReadWithdrawal(withdrawal: WithdrawalId)
    | Reject(withdrawal: WithdrawalId)
    | PayOut(withdrawal: WithdrawalId)

  datatype RewardStep =
    | Debit(user: UserId, wanted: int)
    | ReadIssue(pending: PendingIssue)
    | WriteIssue(pending: PendingIssue)
    | ReadApply(user: UserId, orderAmount: nat, requested: Option<int>)
    | WriteApply(apply: PendingApply)
    | OpenReferral(order: OrderId, owner: UserId, amount: nat)
    | ReadReferral(order: OrderId)
    | CreditReferral(order: OrderId)
    | SpinOnce(payment: EventPaymentId, user: UserId, prize: Prize)

  datatype WalletStep = Tick(ms: nat) | OnTopUp(t: TopUpStep) | OnWithdrawal(x: WithdrawalStep) | OnReward(r: RewardStep)

  function Commit(w: WalletWorld, r: Result<Books>): WalletWorld {
    if r.Returns? then w.(b := r.value) else w
  }

  /** The pair of incentive and order has been redeemed; without an order nobody looks. */
  predicate IssuedFor(redemptions: seq<Redemption>, incentive: nat, customer: UserId, order: Option<OrderId>) {
    exists i :: 0 <= i < |redemptions| && redemptions[i].incentive == incentive &&
                redemptions[i].customer == customer && redemptions[i].order == order
  }

  predicate AlreadyIssued(redemptions: seq<Redemption>, p: PendingIssue) {
    p.order.Some? && IssuedFor(redemptions, p.incentive, p.customer, p.order)
  }

  function ReasonOf(kind: RewardKind): Reason {
    if kind == CashbackReward then Cashback else Coupon
  }

  function RedemptionOf(p: PendingIssue): Redemption { Redemption(p.incentive, p.customer, p.order, p.amount) }

  /** The transaction that issues a reward; it does not look for an earlier one again. */
  function IssueWritten(b: Books, p: PendingIssue): Books {
    Redeemed(b, RedemptionOf(p), ReasonOf(p.kind), p.expiresAt)
  }

  /** What `apply` finds it may take from the customer's cashback. */
  function ResolvedAmount(b: Books, u: UserId, orderAmount: nat, requested: Option<int>, now: Time): (r: int)
    ensures r >= 0
  {
    ApplyAmount(if u in b.balances then Available(b.ledger, u, now) else 0, orderAmount, requested)
  }

  /** Nothing was posted, or one ledger row for one of the given reasons together with its balance change. */
  predicate PostsOnly(b: Books, b': Books, reasons: set<Reason>) {
    if b'.ledger == b.ledger then b'.balances == b.balances
    else |b'.ledger| == |b.ledger| + 1 &&
         var e := b'.ledger[|b.ledger|];
         e.reason in reasons && b'.ledger == b.ledger + [e] && b'.balances == Posted(b, e).balances
  }

  const TOP_UP_REASONS := {TopUpCredit}
  const WITHDRAWAL_REASONS := {WithdrawalHold, Adjustment}
  const REWARD_REASONS := {Gift, Cashback, Coupon, Used}

  function NextTopUp(w: WalletWorld, t: TopUpStep): (r: WalletWorld)
    ensures PostsOnly(w.b, r.b, TOP_UP_REASONS)
    ensures r.b.withdrawals == w.b.withdrawals && r.b.referrals == w.b.referrals && r.b.spins == w.b.spins
    ensures r.b.redemptions == w.b.redemptions && r.now == w.now
  {
    var b := w.b;
    match t
    case OpenTopUp(id, u, amount) =>
      if id in b.topUps then w
      else w.(b := b.(topUps := b.topUps[id := TopUp(u, amount, Open, false)]), opening := w.opening + {id})
    case GatewayRefuses(id) =>
      if id in w.opening && id in b.topUps then w.(b := TopUpFailed(b, id), opening := w.opening - {id}) else w
    case MockPays(id) =>
      if id in w.opening && id in b.topUps then w.(b := ToppedUp(b, id), opening := w.opening - {id}) else w
    case GatewayAccepts(id) =>
      if id in w.opening && id in b.topUps
      then w.(b := b.(topUps := b.topUps[id := b.topUps[id].(hasAuthority := true)]), opening := w.opening - {id}) else w
    case TopUpCallback(id, verified) =>
      if id in b.topUps && b.topUps[id].hasAuthority
      then w.(b := if verified then ToppedUp(b, id) else TopUpFailed(b, id)) else w
  }

  function NextWithdrawal(w: WalletWorld, x: WithdrawalStep): (r: WalletWorld)
    ensures PostsOnly(w.b, r.b, WITHDRAWAL_REASONS)
    ensures r.b.topUps == w.b.topUps && r.b.referrals == w.b.referrals && r.b.spins == w.b.spins
    ensures r.b.redemptions == w.b.redemptions && r.now == w.now
  {
    var b := w.b;
    match x
    case AskWithdrawal(id, u, amount) =>
      if id in b.withdrawals then w else Commit(w, WithdrawalRequested(b, id, u, amount))
    case ReadWithdrawal(id) =>
      if id in b.withdrawals && b.withdrawals[id].status == Open then w.(resolving := w.resolving + {id}) else w
    case Reject(id) => if id in w.resolving && id in b.withdrawals then w.(b := WithdrawalRejected(b, id)) else w
    case PayOut(id) => if id in w.resolving && id in b.withdrawals then w.(b := WithdrawalPaid(b, id)) else w
  }

  function NextReward(w: WalletWorld, e: RewardStep): (r: WalletWorld)
    ensures PostsOnly(w.b, r.b, REWARD_REASONS)
    ensures r.b.topUps == w.b.topUps && r.b.withdrawals == w.b.withdrawals && r.now == w.now
    ensures !e.WriteIssue? ==> r.b.redemptions == w.b.redemptions
  {
    var b := w.b;
    match e
    case Debit(u, amount) => Commit(w, Debited(b, u, amount))
    case ReadIssue(p) => if AlreadyIssued(b.redemptions, p) then w else w.(issuing := w.issuing + {p})
    case WriteIssue(p) => if p in w.issuing then w.(b := IssueWritten(b, p)) else w
    case ReadApply(u, orderAmount, requested) =>
      var amount := ResolvedAmount(b, u, orderAmount, requested, w.now);
      if amount > 0 then w.(applying := w.applying + {PendingApply(u, amount)}) else w
    case WriteApply(p) => if p in w.applying then w.(b := Applied(b, p.user, p.amount)) else w
    case OpenReferral(id, owner, amount) =>
      if id in b.referrals then w else w.(b := b.(referrals := b.referrals[id := Referral(owner, amount, false)]))
    case ReadReferral(id) =>
      if id in b.referrals && !b.referrals[id].credited then w.(crediting := w.crediting + {id}) else w
    case CreditReferral(id) => if id in w.crediting && id in b.referrals then w.(b := ReferralCredited(b, id)) else w
    case SpinOnce(payment, u, prize) => Commit(w, Spun(b, payment, u, prize))
  }

  function Next(w: WalletWorld, e: WalletStep): WalletWorld {
    match e
    case Tick(ms) => w.(now := w.now + ms)
    case OnTopUp(t) => NextTopUp(w, t)
    case OnWithdrawal(x) => NextWithdrawal(w, x)
    case OnReward(r) => NextReward(w, r)
  }

  function Run(w: WalletWorld, es: seq<WalletStep>): WalletWorld
    decreases |es|
  {
    if es == [] then w else Run(Next(w, es[0]), es[1..])
  }

  lemma {:induction false} RunConcat(w: WalletWorld, a: seq<WalletStep>, b: seq<WalletStep>)
    ensures Run(w, a + b) == Run(Run(w, a), b)
    decreases |a|
  {
    if a == [] {
      assert a + b == b;
    } else {
      RunConcat(Next(w, a[0]), a[1..], b);
      assert (a + b)[1..] == a[1..] + b;
    }
  }
}
