/**
 Wallets: a balance a customer and one ledger for all, with every service that moves both. Amounts are cents.
 (wallet.service.ts, cashback-grant.service.ts, cashback-apply.service.ts, coupon-trigger.service.ts,
 referral-cashback.service.ts, event-spin.service.ts)
 */
module Wallet {
  import opened Wrappers
  import opened ShopTables

  type TopUpId = nat
  type WithdrawalId = nat

  datatype Reason = Gift | Cashback | Coupon | Used | Adjustment | TopUpCredit | WithdrawalHold

  /** One ledger row; `redeemed` tells whether it came from an incentive redemption. */
  datatype Entry = Entry(user: UserId, amount: int, reason: Reason, expiresAt: Option<Time>, redeemed: bool)

  datatype Progress = Open | Done | Refused

  datatype TopUp = TopUp(user: UserId, amount: nat, status: Progress, hasAuthority: bool)

  datatype Withdrawal = Withdrawal(user: UserId, amount: nat, status: Progress)

  /** The cashback a referral owes the owner of its code. */
  datatype Referral = Referral(owner: UserId, amount: nat, credited: bool)

  datatype Spin = Spin(user: UserId, cashback: nat)

  /** One incentive redemption: at most one a pair of incentive and order is meant to exist. */
  datatype Redemption = Redemption(incentive: nat, customer: UserId, order: Option<OrderId>, amount: int)

  datatype Books = Books(
    balances: map<UserId, int>,
    ledger: seq<Entry>,
    topUps: map<TopUpId, TopUp>,
    withdrawals: map<WithdrawalId, Withdrawal>,
    referrals: map<OrderId, Referral>,
    spins: map<EventPaymentId, Spin>,
    redemptions: seq<Redemption>)

  /** A customer without a wallet has nothing. */
  function BalanceOf(b: Books, u: UserId): int { if u in b.balances then b.balances[u] else 0 }

  // ----------------------------------------------------- what writers leave

  /** A balance change together with its ledger row. */
  function Posted(b: Books, e: Entry): (r: Books)
    ensures r == b.(balances := r.balances, ledger := b.ledger + [e])
  {
    b.(balances := b.balances[e.user := BalanceOf(b, e.user) + e.amount], ledger := b.ledger + [e])
  }

  function Plain(u: UserId, amount: int, reason: Reason): Entry { Entry(u, amount, reason, None, false) }

  /** Crediting a top-up that has not been credited yet. */
  function ToppedUp(b: Books, id: TopUpId): Books {
    if id !in b.topUps || b.topUps[id].status == Done then b
    else Posted(b, Plain(b.topUps[id].user, b.topUps[id].amount, TopUpCredit))
         .(topUps := b.topUps[id := b.topUps[id].(status := Done)])
  }

  function TopUpFailed(b: Books, id: TopUpId): Books {
    if id !in b.topUps || b.topUps[id].status == Done then b
    else b.(topUps := b.topUps[id := b.topUps[id].(status := Refused)])
  }

  predicate Covered(b: Books, u: UserId, amount: int) {
    u in b.balances && b.balances[u] >= amount
  }

  /** `requestWithdrawal`: the amount is held at once. */
  function WithdrawalRequested(b: Books, id: WithdrawalId, u: UserId, amount: nat): Result<Books> {
    if !Covered(b, u, amount) then Throws
    else Returns(Posted(b, Plain(u, 0 - amount, WithdrawalHold)).(withdrawals := b.withdrawals[id := Withdrawal(u, amount, Open)]))
  }

  /** The transaction of a rejection; it does not look at the status again. */
  function WithdrawalRejected(b: Books, id: WithdrawalId): Books
    requires id in b.withdrawals
  {
    Posted(b, Plain(b.withdrawals[id].user, b.withdrawals[id].amount, Adjustment))
    .(withdrawals := b.withdrawals[id := b.withdrawals[id].(status := Refused)])
  }

  function WithdrawalPaid(b: Books, id: WithdrawalId): Books
    requires id in b.withdrawals
  {
    b.(withdrawals := b.withdrawals[id := b.withdrawals[id].(status := Done)])
  }

  /** `debitForCheckout`. */
  function Debited(b: Books, u: UserId, amount: int): Result<Books> {
    if amount <= 0 then Returns(b)
    else if !Covered(b, u, amount) then Throws
    else Returns(Posted(b, Plain(u, 0 - amount, Used)))
  }

  /** An incentive redemption with its wallet credit: a cashback grant or a coupon. */
  function Redeemed(b: Books, r: Redemption, reason: Reason, expiresAt: Option<Time>): Books {
    Posted(b, Entry(r.customer, r.amount, reason, expiresAt, true)).(redemptions := b.redemptions + [r])
  }

  /** The transaction of a referral credit; it does not look at the status again. */
  function ReferralCredited(b: Books, id: OrderId): Books
    requires id in b.referrals
  {
    Posted(b, Plain(b.referrals[id].owner, b.referrals[id].amount, Cashback))
    .(referrals := b.referrals[id := b.referrals[id].(credited := true)])
  }

  datatype Prize = EventCashback(amount: nat) | WalletPrize(amount: nat) | OtherPrize

  /** `spin`: the unique key on the payment makes a second spin throw. */
  function Spun(b: Books, payment: EventPaymentId, u: UserId, prize: Prize): Result<Books> {
    if payment in b.spins then Throws
    else
      var credited := match prize
        case EventCashback(amount) => Posted(b, Plain(u, amount, Cashback))
        case WalletPrize(amount) => Posted(b, Plain(u, amount, Gift))
        case OtherPrize => b;
      Returns(credited.(spins := b.spins[payment := Spin(u, if prize.EventCashback? then prize.amount else 0)]))
  }

  // --------------------------------------------------------------- services

  class WalletDb {
    var balances: map<UserId, int>
    var ledger: seq<Entry>
    var topUps: map<TopUpId, TopUp>
    var withdrawals: map<WithdrawalId, Withdrawal>
    var referrals: map<OrderId, Referral>
    var spins: map<EventPaymentId, Spin>
    var redemptions: seq<Redemption>

    constructor (b: Books)
      ensures State() == b
    {
      balances, ledger, topUps, withdrawals := b.balances, b.ledger, b.topUps, b.withdrawals;
      referrals, spins, redemptions := b.referrals, b.spins, b.redemptions;
    }

    function State(): Books
      reads this
    {
      Books(balances, ledger, topUps, withdrawals, referrals, spins, redemptions)
    }

    /** `wallet.upsert` with an increment, and the ledger row. */
    method Credit(e: Entry)
      modifies this`balances, this`ledger
      ensures State() == Posted(old(State()), e)
    {
      if e.user in balances {
        balances := balances[e.user := balances[e.user] + e.amount];
      } else {
        balances := balances[e.user := e.amount];
      }
      ledger := ledger + [e];
    }

    /** A decrement guarded by the balance, and the ledger row. */
    method GuardedDebit(u: UserId, amount: nat, reason: Reason) returns (matched: bool)
      modifies this`balances, this`ledger
      ensures matched == Covered(old(State()), u, amount)
      ensures State() == if matched then Posted(old(State()), Plain(u, 0 - amount, reason)) else old(State())
    {
      matched := u in balances && balances[u] >= amount;
      if matched {
        balances := balances[u := balances[u] - amount];
        ledger := ledger + [Plain(u, 0 - amount, reason)];
      }
    }

    /** The end of `topUp` in mock mode, where the top-up was created just before. */
    method CreditMockTopUp(id: TopUpId)
      requires id in topUps && topUps[id].status == Open
      modifies this
      ensures State() == ToppedUp(old(State()), id)
    {
      var topUp := topUps[id];
      topUps := topUps[id := topUp.(status := Done)];
      Credit(Plain(topUp.user, topUp.amount, TopUpCredit));
    }

    /** `verifyTopUpCallback`: a top-up that is already paid is left alone, however often its callback arrives. */
    method VerifyTopUpCallback(id: TopUpId, verified: bool) returns (success: bool)
      modifies this
      ensures State() == if verified then ToppedUp(old(State()), id) else TopUpFailed(old(State()), id)
      ensures success <==> id in old(topUps) && (verified || old(topUps)[id].status == Done)
      ensures id in old(topUps) && old(topUps)[id].status != Done ==>
                var x := old(topUps)[id];
                id in topUps && topUps[id].status == (if verified then Done else Refused) &&
                BalanceOf(State(), x.user) == old(BalanceOf(State(), topUps[id].user)) + (if verified then x.amount else 0)
    {
      if id !in topUps {
        return false;
      }
      if topUps[id].status == Done {
        return true;
      }
      var topUp := topUps[id];
      if !verified {
        topUps := topUps[id := topUp.(status := Refused)];
        return false;
      }
      topUps := topUps[id := topUp.(status := Done)];
      Credit(Plain(topUp.user, topUp.amount, TopUpCredit));
      success := true;
    }

    method RequestWithdrawal(id: WithdrawalId, u: UserId, amount: nat) returns (ok: bool)
      requires id !in withdrawals
      modifies this
      ensures var r := WithdrawalRequested(old(State()), id, u, amount);
              ok == r.Returns? && State() == if ok then r.value else old(State())
      ensures ok <==> u in old(balances) && old(balances)[u] >= amount
      ensures ok ==> id in withdrawals && withdrawals[id].status == Open && withdrawals[id].user == u &&
                     withdrawals[id].amount == amount && BalanceOf(State(), u) == old(BalanceOf(State(), u)) - amount
    {
      if u !in balances || balances[u] < amount {
        return false;
      }
      ok := GuardedDebit(u, amount, WithdrawalHold);
      if !ok {
        return false;
      }
      withdrawals := withdrawals[id := Withdrawal(u, amount, Open)];
    }

    /** `resolveWithdrawal` when nothing runs between its read and its write. */
    method ResolveWithdrawal(id: WithdrawalId, reject: bool) returns (ok: bool)
      modifies this
      ensures ok <==> id in old(withdrawals) && old(withdrawals)[id].status == Open
      ensures State() == if !ok then old(State())
                         else if reject then WithdrawalRejected(old(State()), id) else WithdrawalPaid(old(State()), id)
    {
      if id !in withdrawals || withdrawals[id].status != Open {
        return false;
      }
      var request := withdrawals[id];
      if reject {
        Credit(Plain(request.user, request.amount, Adjustment));
        withdrawals := withdrawals[id := request.(status := Refused)];
      } else {
        withdrawals := withdrawals[id := request.(status := Done)];
      }
      ok := true;
    }

    method DebitForCheckout(u: UserId, amount: int) returns (ok: bool)
      modifies this
      ensures var r := Debited(old(State()), u, amount);
              ok == r.Returns? && State() == if ok then r.value else old(State())
      ensures ok <==> amount <= 0 || (u in old(balances) && old(balances)[u] >= amount)
      ensures BalanceOf(State(), u) == old(BalanceOf(State(), u)) - if ok && amount > 0 then amount else 0
    {
      if amount <= 0 {
        return true;
      }
      ok := GuardedDebit(u, amount, Used);
    }

    /** The transaction of `issueCoupon` and of a cashback grant. */
    method Redeem(r: Redemption, reason: Reason, expiresAt: Option<Time>)
      modifies this
      ensures State() == Redeemed(old(State()), r, reason, expiresAt)
    {
      redemptions := redemptions + [r];
      Credit(Entry(r.customer, r.amount, reason, expiresAt, true));
    }

    /** `ReferralCashbackService.grantForOrder` when nothing runs between its read and its write. */
    method GrantReferralCashback(id: OrderId, paid: bool) returns (granted: bool)
      modifies this
      ensures granted <==> id in old(referrals) && !old(referrals)[id].credited && old(referrals)[id].amount > 0 && paid
      ensures State() == if granted then ReferralCredited(old(State()), id) else old(State())
    {
      if id !in referrals || referrals[id].credited || referrals[id].amount == 0 || !paid {
        return false;
      }
      var row := referrals[id];
      Credit(Plain(row.owner, row.amount, Cashback));
      referrals := referrals[id := row.(credited := true)];
      granted := true;
    }

    /** `spin` once the prize is drawn; the prize is written in the same transaction as the spin. */
    method SpinWheel(payment: EventPaymentId, u: UserId, prize: Prize) returns (ok: bool)
      modifies this
      ensures var r := Spun(old(State()), payment, u, prize);
              ok == r.Returns? && State() == if ok then r.value else old(State())
      ensures ok <==> payment !in old(spins)
      ensures BalanceOf(State(), u) ==
              old(BalanceOf(State(), u)) + if ok && !prize.OtherPrize? then prize.amount else 0
    {
      if payment in spins {
        return false;
      }
      var cashback := 0;
      match prize {
        case EventCashback(amount) =>
          cashback := amount;
          Credit(Plain(u, amount, Cashback));
        case WalletPrize(amount) =>
          Credit(Plain(u, amount, Gift));
        case OtherPrize =>
      }
      spins := spins[payment := Spin(u, cashback)];
      ok := true;
    }
  }
}
