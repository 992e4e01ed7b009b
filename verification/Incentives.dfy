/**
 Rewards on paid orders and referrals and the spending of cashback (cashback-grant.service.ts,
 cashback-apply.service.ts, coupon-rules.ts, coupon-trigger.service.ts), each as it runs when nothing comes in
 between; `WalletRuns` has their reads and writes as steps of their own.
 */
module Incentives {
  import opened Wrappers
  import opened ShopTables
  import opened Wallet
  import opened CashbackRules
  import opened WalletRuns
  import opened WalletLaw
  import LoyaltyTiers
  import Pricing

  // --------------------------------------------------------- using cashback

  /** What `apply` tells its caller. */
  datatype Application = Application(applied: int, payable: int, remaining: int)

  /** As much as the order, the request and the available cashback allow, and not less. */
  predicate MostThatFits(amount: int, available: int, orderAmount: nat, requested: Option<int>) {
    && 0 < amount <= available && amount <= orderAmount && (requested.Some? ==> amount <= requested.value)
    && (amount == available || amount == orderAmount || requested == Some(amount))
  }

  /** `CashbackApplyService.apply` when nothing comes between its read and its write. */
  method Apply(db: WalletDb, u: UserId, orderAmount: nat, requested: Option<int>, now: Time) returns (r: Result<Application>)
    modifies db
    ensures r.Throws? <==>
            u !in old(db.balances) || old(Available(db.ledger, u, now)) == 0 || orderAmount == 0 ||
            (requested.Some? && requested.value <= 0)
    ensures EverythingRanOut(old(db.ledger), u, now) ==> r.Throws?
    ensures r.Throws? ==> db.State() == old(db.State())
    ensures r.Returns? ==>
              MostThatFits(r.value.applied, old(Available(db.ledger, u, now)), orderAmount, requested) &&
              db.State() == Applied(old(db.State()), u, r.value.applied) &&
              r.value.payable == orderAmount - r.value.applied && r.value.remaining == Available(db.ledger, u, now)
  {
    if EverythingRanOut(db.ledger, u, now) { NothingIsLeft(db.ledger, u, now); }
    var available := if u in db.balances then Available(db.ledger, u, now) else 0;
    var amount := ApplyAmount(available, orderAmount, requested);
    if amount <= 0 {
      return Throws;
    }
    LateApplyTakesFromAvailableIff(db.State(), u, amount, now);
    db.ledger := db.ledger + [Plain(u, 0 - amount, Used)];
    db.balances := db.balances[u := db.balances[u] - amount];
    r := Returns(Application(amount, orderAmount - amount, available - amount));
  }

  /** After an application, what is available at the same time is exactly what was, less what was applied. */
  lemma ApplyTakesFromAvailable(b: Books, u: UserId, orderAmount: nat, requested: Option<int>, now: Time)
    requires ResolvedAmount(b, u, orderAmount, requested, now) > 0
    ensures var amount := ResolvedAmount(b, u, orderAmount, requested, now);
            MostThatFits(amount, Available(b.ledger, u, now), orderAmount, requested) &&
            Available(Applied(b, u, amount).ledger, u, now) == Available(b.ledger, u, now) - amount
  {
  }

  lemma ReadingStep(w: WalletWorld, u: UserId, orderAmount: nat, requested: Option<int>, amount: nat)
    requires amount == ResolvedAmount(w.b, u, orderAmount, requested, w.now) > 0
    ensures var read := OnReward(ReadApply(u, orderAmount, requested));
            Next(w, read).b == w.b && PendingApply(u, amount) in Next(w, read).applying &&
            AppliedFor(w, read, u) == 0 && amount <= AvailableIn(w, u) == AvailableIn(Next(w, read), u)
  {
  }

  /** The uninterrupted application is its read and its write as steps of a run, and takes nothing beyond what is there. */
  lemma ApplyIsARun(w: WalletWorld, u: UserId, orderAmount: nat, requested: Option<int>)
    requires ResolvedAmount(w.b, u, orderAmount, requested, w.now) > 0
    ensures var amount := ResolvedAmount(w.b, u, orderAmount, requested, w.now);
            var read, write := OnReward(ReadApply(u, orderAmount, requested)), OnReward(WriteApply(PendingApply(u, amount)));
            Run(w, [read] + [write]).b == Applied(w.b, u, amount) && ExcessIn(w, [read] + [write], u) == 0
  {
    var amount := ResolvedAmount(w.b, u, orderAmount, requested, w.now);
    var read, write := OnReward(ReadApply(u, orderAmount, requested)), OnReward(WriteApply(PendingApply(u, amount)));
    ReadingStep(w, u, orderAmount, requested, amount);
    ApplyingStep(Next(w, read), u, amount);
    StepsOf(w, read, [write], u);
    assert [write] == [write] + [];
    StepsOf(Next(w, read), write, [], u);
  }

  /**
   Cashback that was withdrawn can still be applied: a held withdrawal does not count as used. Whoever asks for
   the whole of a balance that is covered by cashback and then applies the cashback owes the shop that amount.
   */
  lemma WithdrawnCashbackCanBeApplied(b: Books, id: WithdrawalId, u: UserId, amount: nat, now: Time)
    requires u in b.balances && b.balances[u] == amount > 0 && Available(b.ledger, u, now) >= amount
    ensures var asked := WithdrawalRequested(b, id, u, amount);
            asked.Returns? && BalanceOf(asked.value, u) == 0 &&
            ApplyAmount(Available(asked.value.ledger, u, now), amount, None) == amount &&
            BalanceOf(Applied(asked.value, u, amount), u) == 0 - amount
  {
  }

  // ---------------------------------------------------------------- rewards

  /** The terms the reward kinds share. */
  datatype Window = Window(isActive: bool, startsAt: Time, endsAt: Time, targetSegment: Option<nat>)

  predicate InWindow(t: Window, segment: Option<nat>, now: Time) {
    t.isActive && t.startsAt <= now <= t.endsAt && (t.targetSegment.Some? ==> segment == t.targetSegment)
  }

  /** `calculateCashbackAmount` and `calculateCouponRewardAmount` on an order, clamped to the order. */
  function RewardOn(valueType: LoyaltyTiers.ValueType, value: real, orderAmount: nat): (r: real)
    ensures 0.0 <= r <= orderAmount as real
  {
    LoyaltyTiers.Clamp(
      if valueType == LoyaltyTiers.Percentage then Pricing.Share(orderAmount, value) else value * 100.0, orderAmount as real)
  }

  /** A reward as it is stored, in whole cents. */
  function RewardCents(valueType: LoyaltyTiers.ValueType, value: real, orderAmount: nat): (r: nat)
    ensures r <= orderAmount
  {
    Pricing.Round(RewardOn(valueType, value, orderAmount))
  }

  /** `calculateCouponRewardAmount` without an order: there is nothing to take a percentage of. */
  function ReferralReward(valueType: LoyaltyTiers.ValueType, value: real): (r: real)
    ensures r >= 0.0 && (valueType == LoyaltyTiers.Percentage ==> r == 0.0)
  {
    if valueType == LoyaltyTiers.Percentage || value < 0.0 then 0.0 else value * 100.0
  }

  /** A reward is its percentage of the order, or its tomans up to the order, and is stored to the cent. */
  lemma RewardIsWorth(valueType: LoyaltyTiers.ValueType, value: real, orderAmount: nat)
    requires value >= 0.0
    ensures var exact := if valueType == LoyaltyTiers.Percentage then orderAmount as real * value / 100.0 else value * 100.0;
            RewardOn(valueType, value, orderAmount) == (if exact < orderAmount as real then exact else orderAmount as real) &&
            Pricing.ToTheCent(RewardCents(valueType, value, orderAmount), RewardOn(valueType, value, orderAmount))
  {
    LoyaltyTiers.NoNegativeProduct(orderAmount as real, value);
  }

  datatype CashbackTerms = CashbackTerms(
    incentive: nat, window: Window, minPurchase: Option<int>, valueType: LoyaltyTiers.ValueType, value: real,
    expiresAfterDays: Option<nat>)

  datatype Trigger =
    FirstPurchase | PurchaseAbove(minAmount: Option<int>) | CategoryPurchase(category: Option<nat>) | ReferralConfirmed

  datatype CouponTerms = CouponTerms(
    incentive: nat, window: Window, trigger: Trigger, valueType: LoyaltyTiers.ValueType, value: real)

  /** A paid order as the reward services read it. */
  datatype PaidOrder = PaidOrder(
    id: OrderId, customer: UserId, amount: nat, paidAt: Option<Time>, isFirst: bool, categories: set<nat>)

  /** What one incentive would give on one occasion, if it is due. */
  datatype Offer = Offer(due: bool, p: PendingIssue)

  /** Cashback is judged, and expires, from the moment the order was paid. */
  function CashbackOffer(t: CashbackTerms, o: PaidOrder, segment: Option<nat>, clock: Time): Offer {
    var now := o.paidAt.GetOr(clock);
    Offer(InWindow(t.window, segment, now) && (t.minPurchase.Some? ==> o.amount >= t.minPurchase.value) &&
          RewardOn(t.valueType, t.value, o.amount) > 0.0,
          PendingIssue(t.incentive, o.customer, Some(o.id), RewardCents(t.valueType, t.value, o.amount), CashbackReward,
                       if t.expiresAfterDays.Some? then Some(now + t.expiresAfterDays.value * DAY_MS) else None))
  }

  predicate Triggered(t: Trigger, o: PaidOrder) {
    match t
    case FirstPurchase => o.isFirst
    case PurchaseAbove(minAmount) => minAmount.Some? && o.amount >= minAmount.value
    case CategoryPurchase(category) => category.Some? && category.value in o.categories
    case ReferralConfirmed => false
  }

  function CouponOffer(t: CouponTerms, o: PaidOrder, segment: Option<nat>, clock: Time): Offer {
    Offer(InWindow(t.window, segment, clock) && Triggered(t.trigger, o) && RewardOn(t.valueType, t.value, o.amount) > 0.0,
          PendingIssue(t.incentive, o.customer, Some(o.id), RewardCents(t.valueType, t.value, o.amount), CouponReward, None))
  }

  /** A confirmed referral may name an order or not; its reward is never measured on one. */
  function ReferralOffer(t: CouponTerms, referrer: UserId, order: Option<OrderId>, segment: Option<nat>, clock: Time): Offer {
    var reward := ReferralReward(t.valueType, t.value);
    Offer(t.trigger.ReferralConfirmed? && InWindow(t.window, segment, clock) && reward > 0.0,
          PendingIssue(t.incentive, referrer, order, Pricing.Round(reward), CouponReward, None))
  }

  const A_DAY: int := 24 * 60 * 60 * 1000

  /**
   Cashback granted for an order with a life of n days can be spent until n days after the order was paid, and then not
   any more; whatever else was granted or used stays as it is.
   */
  lemma GrantedCashbackRunsOut(b: Books, o: PaidOrder, t: CashbackTerms, segment: Option<nat>, clock: Time, at: Time)
    requires CashbackOffer(t, o, segment, clock).due && t.expiresAfterDays.Some? && o.paidAt.Some?
    requires !AlreadyIssued(b.redemptions, CashbackOffer(t, o, segment, clock).p)
    ensures var after := IssuedOne(b, CashbackOffer(t, o, segment, clock)).ledger;
            var end := o.paidAt.value + t.expiresAfterDays.value * A_DAY;
            (at < end && LeftOver(b.ledger, o.customer, at) >= 0 ==>
               Available(after, o.customer, at) ==
               Available(b.ledger, o.customer, at) + RewardCents(t.valueType, t.value, o.amount)) &&
            (end <= at ==> Available(after, o.customer, at) == Available(b.ledger, o.customer, at))
  {
    var p := CashbackOffer(t, o, segment, clock).p;
    var e := Entry(p.customer, p.amount, Cashback, p.expiresAt, true);
    assert IssueWritten(b, p).ledger == b.ledger + [e];
    if at < e.expiresAt.value {
      if LeftOver(b.ledger, o.customer, at) >= 0 { UnexpiredAddsItsAmount(b.ledger, e, o.customer, at); }
    } else {
      RunOutIsNothing(b.ledger, e, [], o.customer, at);
      assert b.ledger + [e] + [] == b.ledger + [e] && b.ledger + [] == b.ledger;
    }
  }

  /** An incentive that is switched on, has started, is not over, and is meant for the customer's segment. */
  predicate IsOpen(t: Window, segment: Option<nat>, at: Time) {
    t.isActive && !(at < t.startsAt) && !(t.endsAt < at) && (t.targetSegment.None? || t.targetSegment == segment)
  }

  /** Cashback is due on every order of the segment, paid while the incentive is open, that is large enough to earn any. */
  lemma CashbackIsDueIff(t: CashbackTerms, o: PaidOrder, segment: Option<nat>, clock: Time)
    requires t.value > 0.0
    ensures CashbackOffer(t, o, segment, clock).due <==>
            IsOpen(t.window, segment, if o.paidAt.Some? then o.paidAt.value else clock) && o.amount > 0 &&
            (t.minPurchase.Some? ==> t.minPurchase.value <= o.amount)
  {
    RewardIsWorth(t.valueType, t.value, o.amount);
    var amount := o.amount as real;
    assert amount > 0.0 ==> amount * t.value > 0.0;
  }

  /** A coupon is due while the incentive is open, for what its trigger names; a purchase never triggers a referral coupon. */
  lemma CouponIsDueIff(t: CouponTerms, o: PaidOrder, segment: Option<nat>, clock: Time)
    requires t.value > 0.0
    ensures CouponOffer(t, o, segment, clock).due <==>
            IsOpen(t.window, segment, clock) && o.amount > 0 &&
            ((t.trigger.FirstPurchase? && o.isFirst) ||
             (t.trigger.PurchaseAbove? && t.trigger.minAmount.Some? && t.trigger.minAmount.value <= o.amount) ||
             (t.trigger.CategoryPurchase? && t.trigger.category.Some? && t.trigger.category.value in o.categories))
  {
    RewardIsWorth(t.valueType, t.value, o.amount);
    var amount := o.amount as real;
    assert amount > 0.0 ==> amount * t.value > 0.0;
  }

  /** A referral coupon is a fixed amount; a percentage has nothing to be taken of and is never due. */
  lemma ReferralIsDueIff(t: CouponTerms, referrer: UserId, order: Option<OrderId>, segment: Option<nat>, clock: Time)
    ensures var f := ReferralOffer(t, referrer, order, segment, clock);
            (f.due <==> t.trigger.ReferralConfirmed? && IsOpen(t.window, segment, clock) && t.value > 0.0 && t.valueType.FixedAmount?) &&
            (f.due ==> Pricing.ToTheCent(f.p.amount, t.value * 100.0) && f.p.customer == referrer && f.p.order == order)
  {
  }

  /** A coupon is credited to the balance and is not cashback: nothing more can be applied as such. */
  lemma CouponsAreNotCashback(b: Books, t: CouponTerms, o: PaidOrder, segment: Option<nat>, clock: Time, u: UserId, at: Time)
    ensures var f := CouponOffer(t, o, segment, clock);
            var r := IssuedOne(b, f);
            Available(r.ledger, u, at) == Available(b.ledger, u, at) &&
            BalanceOf(r, u) == BalanceOf(b, u) +
              if f.due && !AlreadyIssued(b.redemptions, f.p) && u == o.customer then RewardCents(t.valueType, t.value, o.amount) else 0
  {
    var p := CouponOffer(t, o, segment, clock).p;
    BearingOfMore(b.ledger, Entry(p.customer, p.amount, Coupon, None, true), u, at);
    AvailableIsWhatIsLeft(b.ledger, u, at);
    AvailableIsWhatIsLeft(b.ledger + [Entry(p.customer, p.amount, Coupon, None, true)], u, at);
  }

  function IssuedOne(b: Books, f: Offer): (r: Books)
    ensures b.redemptions <= r.redemptions
  {
    if !f.due || AlreadyIssued(b.redemptions, f.p) then b else IssueWritten(b, f.p)
  }

  /** One pass of a reward service over its incentives. */
  function Issued(b: Books, offers: seq<Offer>): Books
    decreases |offers|
  {
    if offers == [] then b else Issued(IssuedOne(b, offers[0]), offers[1..])
  }

  function CashbackOffers(terms: seq<CashbackTerms>, o: PaidOrder, segment: Option<nat>, clock: Time): (r: seq<Offer>)
    ensures |r| == |terms|
  {
    seq(|terms|, i requires 0 <= i < |terms| => CashbackOffer(terms[i], o, segment, clock))
  }

  function CouponOffers(terms: seq<CouponTerms>, o: PaidOrder, segment: Option<nat>, clock: Time): (r: seq<Offer>)
    ensures |r| == |terms|
  {
    seq(|terms|, i requires 0 <= i < |terms| => CouponOffer(terms[i], o, segment, clock))
  }

  function ReferralOffers(terms: seq<CouponTerms>, referrer: UserId, order: Option<OrderId>, segment: Option<nat>, clock: Time)
    : (r: seq<Offer>)
    ensures |r| == |terms|
  {
    seq(|terms|, i requires 0 <= i < |terms| => ReferralOffer(terms[i], referrer, order, segment, clock))
  }

  method HasRedemption(redemptions: seq<Redemption>, incentive: nat, customer: UserId, order: Option<OrderId>)
    returns (found: bool)
    ensures found == IssuedFor(redemptions, incentive, customer, order)
  {
    for i := 0 to |redemptions|
      invariant forall k :: 0 <= k < i ==>
                              !(redemptions[k].incentive == incentive && redemptions[k].customer == customer &&
                                redemptions[k].order == order)
    {
      var r := redemptions[i];
      if r.incentive == incentive && r.customer == customer && r.order == order {
        return true;
      }
    }
    found := false;
  }

  /** One turn of the grant loop: skipped when granted before, not qualified, or worth nothing. */
  method GrantOne(db: WalletDb, o: PaidOrder, t: CashbackTerms, segment: Option<nat>, clock: Time) returns (granted: bool)
    modifies db
    ensures db.State() == IssuedOne(old(db.State()), CashbackOffer(t, o, segment, clock))
    ensures |db.redemptions| == |old(db.redemptions)| + if granted then 1 else 0
  {
    var now := o.paidAt.GetOr(clock);
    var already := HasRedemption(db.redemptions, t.incentive, o.customer, Some(o.id));
    if already || !InWindow(t.window, segment, now) || (t.minPurchase.Some? && o.amount < t.minPurchase.value) {
      return false;
    }
    if RewardOn(t.valueType, t.value, o.amount) <= 0.0 {
      return false;
    }
    var amount := RewardCents(t.valueType, t.value, o.amount);
    var expiresAt := if t.expiresAfterDays.Some? then Some(now + t.expiresAfterDays.value * DAY_MS) else None;
    db.Redeem(Redemption(t.incentive, o.customer, Some(o.id), amount), Cashback, expiresAt);
    granted := true;
  }

  /** `CashbackGrantService.grantForOrder`; the granted incentives are returned. */
  method GrantForOrder(db: WalletDb, o: PaidOrder, terms: seq<CashbackTerms>, segment: Option<nat>, clock: Time)
    returns (results: seq<nat>)
    modifies db
    ensures db.State() == Issued(old(db.State()), CashbackOffers(terms, o, segment, clock))
    ensures |db.redemptions| == |old(db.redemptions)| + |results|
  {
    ghost var offers := CashbackOffers(terms, o, segment, clock);
    results := [];
    for i := 0 to |terms|
      invariant Issued(old(db.State()), offers) == Issued(db.State(), offers[i..])
      invariant |db.redemptions| == |old(db.redemptions)| + |results|
    {
      assert offers[i..][0] == offers[i] && offers[i..][1..] == offers[i + 1..];
      var granted := GrantOne(db, o, terms[i], segment, clock);
      if granted {
        results := results + [terms[i].incentive];
      }
    }
  }

  /** One turn of the coupon loop. */
  method IssueOne(db: WalletDb, o: PaidOrder, t: CouponTerms, segment: Option<nat>, clock: Time) returns (issued: bool)
    modifies db
    ensures db.State() == IssuedOne(old(db.State()), CouponOffer(t, o, segment, clock))
    ensures |db.redemptions| == |old(db.redemptions)| + if issued then 1 else 0
  {
    var already := HasRedemption(db.redemptions, t.incentive, o.customer, Some(o.id));
    if already || !InWindow(t.window, segment, clock) {
      return false;
    }
    var matches := false;
    match t.trigger {
      case FirstPurchase => matches := o.isFirst;
      case PurchaseAbove(minAmount) => matches := minAmount.Some? && o.amount >= minAmount.value;
      case CategoryPurchase(category) => matches := category.Some? && category.value in o.categories;
      case ReferralConfirmed =>
    }
    if !matches || RewardOn(t.valueType, t.value, o.amount) <= 0.0 {
      return false;
    }
    var amount := RewardCents(t.valueType, t.value, o.amount);
    db.Redeem(Redemption(t.incentive, o.customer, Some(o.id), amount), Coupon, None);
    issued := true;
  }

  /** `CouponTriggerService.onOrderCompleted`. */
  method OnOrderCompleted(db: WalletDb, o: PaidOrder, terms: seq<CouponTerms>, segment: Option<nat>, clock: Time)
    returns (results: seq<nat>)
    modifies db
    ensures db.State() == Issued(old(db.State()), CouponOffers(terms, o, segment, clock))
    ensures |db.redemptions| == |old(db.redemptions)| + |results|
  {
    ghost var offers := CouponOffers(terms, o, segment, clock);
    results := [];
    for i := 0 to |terms|
      invariant Issued(old(db.State()), offers) == Issued(db.State(), offers[i..])
      invariant |db.redemptions| == |old(db.redemptions)| + |results|
    {
      assert offers[i..][0] == offers[i] && offers[i..][1..] == offers[i + 1..];
      var issued := IssueOne(db, o, terms[i], segment, clock);
      if issued {
        results := results + [terms[i].incentive];
      }
    }
  }

  /** One turn of the referral loop: an earlier coupon is looked for only when the referral names an order. */
  method IssueReferral(db: WalletDb, referrer: UserId, order: Option<OrderId>, t: CouponTerms, segment: Option<nat>, clock: Time)
    returns (issued: bool)
    requires t.trigger.ReferralConfirmed?
    modifies db
    ensures db.State() == IssuedOne(old(db.State()), ReferralOffer(t, referrer, order, segment, clock))
    ensures |db.redemptions| == |old(db.redemptions)| + if issued then 1 else 0
  {
    if order.Some? {
      var already := HasRedemption(db.redemptions, t.incentive, referrer, order);
      if already {
        return false;
      }
    }
    var reward := ReferralReward(t.valueType, t.value);
    if !InWindow(t.window, segment, clock) || reward <= 0.0 {
      return false;
    }
    db.Redeem(Redemption(t.incentive, referrer, order, Pricing.Round(reward)), Coupon, None);
    issued := true;
  }

  /** `CouponTriggerService.onReferralConfirmed`. */
  method OnReferralConfirmed(db: WalletDb, referrer: UserId, order: Option<OrderId>, terms: seq<CouponTerms>,
                             segment: Option<nat>, clock: Time)
    returns (results: seq<nat>)
    requires forall i :: 0 <= i < |terms| ==> terms[i].trigger.ReferralConfirmed?
    modifies db
    ensures db.State() == Issued(old(db.State()), ReferralOffers(terms, referrer, order, segment, clock))
    ensures |db.redemptions| == |old(db.redemptions)| + |results|
  {
    ghost var offers := ReferralOffers(terms, referrer, order, segment, clock);
    results := [];
    for i := 0 to |terms|
      invariant Issued(old(db.State()), offers) == Issued(db.State(), offers[i..])
      invariant |db.redemptions| == |old(db.redemptions)| + |results|
    {
      assert offers[i..][0] == offers[i] && offers[i..][1..] == offers[i + 1..];
      var issued := IssueReferral(db, referrer, order, terms[i], segment, clock);
      if issued {
        results := results + [terms[i].incentive];
      }
    }
  }

  // ------------------------------------------------------------- properties

  lemma {:induction false} IssuedGrows(b: Books, offers: seq<Offer>)
    ensures b.redemptions <= Issued(b, offers).redemptions
    decreases |offers|
  {
    if offers != [] { IssuedGrows(IssuedOne(b, offers[0]), offers[1..]); }
  }

  lemma IssuedForGood(earlier: seq<Redemption>, later: seq<Redemption>, p: PendingIssue)
    requires earlier <= later && AlreadyIssued(earlier, p)
    ensures AlreadyIssued(later, p)
  {
  }

  predicate Settled(b: Books, f: Offer) {
    !f.due || AlreadyIssued(b.redemptions, f.p)
  }

  /** After a pass, each of its offers for an order is issued or was not due. */
  lemma {:induction false} PassSettles(b: Books, offers: seq<Offer>, k: nat)
    requires k < |offers| && offers[k].p.order.Some?
    ensures Settled(Issued(b, offers), offers[k])
    decreases |offers|
  {
    var b1 := IssuedOne(b, offers[0]);
    if k > 0 {
      PassSettles(b1, offers[1..], k - 1);
    } else if offers[0].due {
      if !AlreadyIssued(b.redemptions, offers[0].p) {
        assert b1.redemptions[|b.redemptions|] == RedemptionOf(offers[0].p);
      }
      IssuedGrows(b1, offers[1..]);
      IssuedForGood(b1.redemptions, Issued(b1, offers[1..]).redemptions, offers[0].p);
    }
  }

  /** A pass changes nothing if and only if it has nothing left to issue. */
  lemma {:induction false} PassIsIdleIff(b: Books, offers: seq<Offer>)
    ensures Issued(b, offers) == b <==> forall k :: 0 <= k < |offers| ==> Settled(b, offers[k])
    decreases |offers|
  {
    if offers != [] {
      var b1 := IssuedOne(b, offers[0]);
      if Settled(b, offers[0]) {
        PassIsIdleIff(b, offers[1..]);
        forall k | 0 <= k < |offers| && forall j :: 0 <= j < |offers[1..]| ==> Settled(b, offers[1..][j])
          ensures Settled(b, offers[k])
        {
          if k > 0 { assert offers[k] == offers[1..][k - 1]; }
        }
        forall k | 0 <= k < |offers[1..]| && forall j :: 0 <= j < |offers| ==> Settled(b, offers[j])
          ensures Settled(b, offers[1..][k])
        {
          assert offers[1..][k] == offers[k + 1];
        }
      } else {
        IssuedGrows(b1, offers[1..]);
        assert |b1.redemptions| == |b.redemptions| + 1;
      }
    }
  }

  /**
   Granting cashback a second time on an order whose payment time is recorded adds no redemption, moves no
   balance and writes no ledger row, at whatever time it happens.
   */
  lemma GrantingTwiceIsOnce(b: Books, o: PaidOrder, terms: seq<CashbackTerms>, segment: Option<nat>, clock: Time, later: Time)
    requires o.paidAt.Some?
    ensures var once := Issued(b, CashbackOffers(terms, o, segment, clock));
            Issued(once, CashbackOffers(terms, o, segment, later)) == once
  {
    var offers := CashbackOffers(terms, o, segment, clock);
    assert CashbackOffers(terms, o, segment, later) == offers;
    forall k | 0 <= k < |offers| ensures Settled(Issued(b, offers), offers[k]) {
      PassSettles(b, offers, k);
    }
    PassIsIdleIff(Issued(b, offers), offers);
  }

  /** A coupon that was due when an order was completed is not issued again by any later pass over that order. */
  lemma CouponsOnceAreOnce(b: Books, o: PaidOrder, terms: seq<CouponTerms>, segment: Option<nat>, clock: Time, later: Time, k: nat)
    requires k < |terms| && CouponOffer(terms[k], o, segment, clock).due
    ensures var once := Issued(b, CouponOffers(terms, o, segment, clock));
            IssuedOne(once, CouponOffer(terms[k], o, segment, later)) == once
  {
    PassSettles(b, CouponOffers(terms, o, segment, clock), k);
  }

  /** However often the services pass over an order, one pass after the other, no incentive is redeemed twice for it. */
  lemma {:induction false} PassesKeepOncePerOrder(b: Books, offers: seq<Offer>)
    requires OncePerOrder(b.redemptions)
    ensures OncePerOrder(Issued(b, offers).redemptions)
    decreases |offers|
  {
    if offers != [] {
      if offers[0].due && !AlreadyIssued(b.redemptions, offers[0].p) { LateIssueKeepsOncePerOrderIff(b, offers[0].p); }
      PassesKeepOncePerOrder(IssuedOne(b, offers[0]), offers[1..]);
    }
  }

  function DueTotal(offers: seq<Offer>): nat {
    if offers == [] then 0 else (if offers[0].due then offers[0].p.amount else 0) + DueTotal(offers[1..])
  }

  /** Referrals that name no order are not told apart: every time one is confirmed, everything due is paid again. */
  lemma {:induction false} WithoutOrderEveryPassPays(b: Books, offers: seq<Offer>, u: UserId)
    requires forall i :: 0 <= i < |offers| ==> offers[i].p.order.None? && offers[i].p.customer == u
    ensures BalanceOf(Issued(b, offers), u) == BalanceOf(b, u) + DueTotal(offers)
    decreases |offers|
  {
    if offers != [] { WithoutOrderEveryPassPays(IssuedOne(b, offers[0]), offers[1..], u); }
  }

  // ------------------------------------------------------- passes as runs

  /** The steps of a pass that nothing interrupts. */
  function PassSteps(b: Books, offers: seq<Offer>): seq<WalletStep>
    decreases |offers|
  {
    if offers == [] then []
    else if !offers[0].due || AlreadyIssued(b.redemptions, offers[0].p) then PassSteps(b, offers[1..])
    else [OnReward(ReadIssue(offers[0].p))] +
         ([OnReward(WriteIssue(offers[0].p))] + PassSteps(IssuedOne(b, offers[0]), offers[1..]))
  }

  /** It is a run that issues nothing late, and ends with the books the services leave. */
  lemma {:induction false} PassIsARun(w: WalletWorld, offers: seq<Offer>)
    ensures Run(w, PassSteps(w.b, offers)).b == Issued(w.b, offers)
    ensures NothingIssuedAgain(w, PassSteps(w.b, offers))
    decreases |offers|
  {
    if offers != [] {
      if offers[0].due && !AlreadyIssued(w.b.redemptions, offers[0].p) {
        var check, write := OnReward(ReadIssue(offers[0].p)), OnReward(WriteIssue(offers[0].p));
        var rest := PassSteps(IssuedOne(w.b, offers[0]), offers[1..]);
        assert ([check] + ([write] + rest))[1..] == [write] + rest && ([write] + rest)[1..] == rest;
        PassIsARun(Next(Next(w, check), write), offers[1..]);
      } else {
        PassIsARun(w, offers[1..]);
      }
    }
  }
}
