/**
 What a basket costs: discount sources, shipping, packaging and the wallet, as the checkout preview computes
 them and as checkout charges them (basket.controller.ts, discount.service.ts, welcome-tier.rules.ts,
 referral.service.ts, wallet.service.ts). Amounts are cents; percentages are reals.
 */
module Pricing {
  import opened Wrappers
  import opened ShopTables
  import opened OrderMoney
  import opened LoyaltyTiers

  /** `Math.round`: halves go up. */
  function Round(x: real): (r: int)
    ensures x - 0.5 < r as real <= x + 0.5
  {
    (x + 0.5).Floor
  }

  function Share(amount: int, percent: real): real { amount as real * percent / 100.0 }

  /** A percentage between 0 and 100 of an amount, rounded, lies between zero and the amount. */
  lemma ShareBounds(amount: int, percent: real)
    requires amount >= 0 && 0.0 <= percent <= 100.0
    ensures 0.0 <= Share(amount, percent) <= amount as real
    ensures 0 <= Round(Share(amount, percent)) <= amount
  {
    assert amount as real * percent >= 0.0;
    assert amount as real * (100.0 - percent) >= 0.0;
  }

  // ------------------------------------------------------- discount sources

  datatype Scope = Everyone | SingleUser(user: Option<UserId>) | MultipleUsers(users: set<UserId>) | UserGroup

  datatype TableCode = TableCode(
    isDeleted: bool, isActive: bool, validFrom: Time, validTo: Time, maxTotalUses: Option<nat>, scope: Scope,
    minOrder: Option<int>, valueType: ValueType, value: real)

  datatype ReferralCode = ReferralCode(
    owner: UserId, isActive: bool, isDeleted: bool, discountPercent: real, cashbackPercent: real)

  /** `computeDiscountAmountCents`, clamped to the subtotal. */
  function DiscountCents(subtotal: int, valueType: ValueType, value: real): (r: int)
    ensures subtotal >= 0 ==> 0 <= r <= subtotal
  {
    var raw := if valueType == Percentage then Round(Share(subtotal, value)) else Round(value * 100.0);
    Min(Max(raw, 0), subtotal)
  }

  predicate TableCodeValid(c: TableCode, used: int, user: UserId, subtotal: int, now: Time) {
    && !c.isDeleted && c.isActive && c.validFrom <= now <= c.validTo
    && (c.maxTotalUses.Some? ==> used < c.maxTotalUses.value)
    && (match c.scope
        case Everyone => true
        case UserGroup => false
        case MultipleUsers(users) => user in users
        case SingleUser(owner) => owner.None? || owner.value == user)
    && (c.minOrder.Some? ==> subtotal >= c.minOrder.value)
  }

  /** `lookupLoyaltyDiscount` once the code is found. */
  function LoyaltyCents(d: Detail, segment: Option<nat>, uses: nat, subtotal: int, now: Time): (r: Result<int>)
    ensures subtotal >= 0 && r.Returns? ==> 0 <= r.value <= subtotal
  {
    var order := subtotal as real / 100.0;
    if ValidateRedemption(d, segment, uses, order, now).Some? then Throws
    else Returns(Round(DiscountAmount(d, uses, order) * 100.0))
  }

  /** Not more than half a cent away. */
  predicate ToTheCent(cents: int, exact: real) {
    exact - 0.5 < cents as real <= exact + 0.5
  }

  /** A table code takes off its percentage of the subtotal, or its tomans up to the subtotal, to the cent. */
  lemma TableCodeIsWorth(subtotal: nat, valueType: ValueType, value: real)
    requires 0.0 <= value && (valueType == Percentage ==> value <= 100.0)
    ensures var exact := if valueType == Percentage then subtotal as real * value / 100.0 else value * 100.0;
            if exact >= subtotal as real then DiscountCents(subtotal, valueType, value) == subtotal
            else ToTheCent(DiscountCents(subtotal, valueType, value), exact)
  {
    if valueType == Percentage { ShareBounds(subtotal, value); }
  }

  /** A loyalty code takes off what its rules say for the order in tomans, to the cent. */
  lemma LoyaltyCodeIsWorth(d: Detail, segment: Option<nat>, uses: nat, subtotal: nat, now: Time, rate: real)
    requires LoyaltyCents(d, segment, uses, subtotal, now).Returns?
    requires RateOf(d, uses, subtotal as real / 100.0) == Some(rate) && rate >= 0.0
    ensures ToTheCent(LoyaltyCents(d, segment, uses, subtotal, now).value,
                      TakenOff(d.valueType, rate, subtotal as real / 100.0) * 100.0)
    ensures LoyaltyCents(d, segment, uses, subtotal, now).value as real / 100.0 ==
            InCents(DiscountAmount(d, uses, subtotal as real / 100.0))
  {
    RateIsTakenOff(d, uses, rate, subtotal as real / 100.0);
  }

  /** `assertPercentRules` of referral codes. */
  predicate PercentRules(c: ReferralCode) {
    0.0 <= c.discountPercent && 0.0 <= c.cashbackPercent && c.discountPercent + c.cashbackPercent <= 20.0
  }

  const MAX_REFERRAL_USES_PER_BUYER := 3

  function ReferralDiscount(c: ReferralCode, subtotal: int): int { Round(Share(subtotal, c.discountPercent)) }

  /** Cashback for the code's owner, in whole tomans. */
  function ReferralCashback(c: ReferralCode, subtotal: int): int {
    Round(subtotal as real / 100.0 * c.cashbackPercent / 100.0)
  }

  predicate ReferralValid(c: ReferralCode, uses: nat, user: UserId) {
    c.isActive && !c.isDeleted && c.owner != user && uses < MAX_REFERRAL_USES_PER_BUYER
  }

  /** The welcome discount of the first three paid orders: 10, 15 and 20 percent. */
  const WELCOME_TIERS: seq<real> := [10.0, 15.0, 20.0]

  function WelcomeDiscount(priorPaid: nat, subtotal: int): Option<int> {
    if priorPaid < |WELCOME_TIERS| then Some(Round(Share(subtotal, WELCOME_TIERS[priorPaid]))) else None
  }

  /** What referral gives away on one order, to the buyer and to the owner, stays within a fifth of it plus rounding. */
  lemma ReferralGivesAwayAtMostAFifth(c: ReferralCode, subtotal: int)
    requires PercentRules(c) && subtotal >= 0
    ensures 0 <= ReferralDiscount(c, subtotal) <= subtotal && 0 <= ReferralCashback(c, subtotal)
    ensures ReferralDiscount(c, subtotal) as real + 100.0 * ReferralCashback(c, subtotal) as real <=
            subtotal as real / 5.0 + 50.5
  {
  }

  /** The buyer saves the code's discount percentage, to the cent; its owner earns the cashback percentage, to the toman. */
  lemma ReferralIsWorth(c: ReferralCode, subtotal: nat)
    ensures ToTheCent(ReferralDiscount(c, subtotal), subtotal as real * c.discountPercent / 100.0)
    ensures ToTheCent(ReferralCashback(c, subtotal), subtotal as real * c.cashbackPercent / 10_000.0)
  {
    assert subtotal as real / 100.0 * c.cashbackPercent / 100.0 == subtotal as real * c.cashbackPercent / 10_000.0;
  }

  /** The first three orders are a tenth, fifteen percent and a fifth off, to the cent; there is nothing for the fourth. */
  lemma WelcomeIsWorth(priorPaid: nat, subtotal: nat)
    ensures WelcomeDiscount(priorPaid, subtotal).Some? <==> priorPaid <= 2
    ensures priorPaid <= 2 ==>
              ToTheCent(WelcomeDiscount(priorPaid, subtotal).value, subtotal as real * (10 + 5 * priorPaid) as real / 100.0)
  {
  }

  // ------------------------------------------------------------------ rules

  /** What a checkout reads and does not write. */
  datatype Rules = Rules(
    codes: map<Code, TableCode>, loyalty: map<Code, Detail>, referrals: map<Code, ReferralCode>,
    segment: Option<nat>, priorPaid: nat, shippingPrices: map<nat, nat>, freeShippingThreshold: nat, packaging: nat)

  predicate RulesSound(rules: Rules) {
    forall c :: c in rules.referrals ==> PercentRules(rules.referrals[c])
  }

  /** How often codes were used: table codes by anyone, loyalty and referral codes by this customer. */
  datatype Counts = Counts(table: map<Code, int>, loyalty: map<Code, nat>, referral: map<Code, nat>)

  /** What checkout writes: use counts, and the customer's free-shipping grants (oldest first) and wallet. */
  datatype Holdings = Holdings(counts: Counts, grants: seq<nat>, wallet: Option<int>)

  datatype Cart = Cart(user: UserId, subtotal: nat, shippingMethod: Option<nat>, code: Option<Code>, walletRequested: int)

  function UsesOf(uses: map<Code, nat>, c: Code): nat { if c in uses then uses[c] else 0 }

  function TableUses(n: Counts, c: Code): int { if c in n.table then n.table[c] else 0 }

  datatype Source = NoSource | FromTable(code: Code) | FromLoyalty(code: Code) | FromReferral(code: Code) | FromWelcome

  /** The discount of a basket and where it came from. */
  function DiscountOf(rules: Rules, n: Counts, b: Cart, now: Time): Result<(int, Source)> {
    if b.code.None? then
      var welcome := WelcomeDiscount(rules.priorPaid, b.subtotal);
      Returns(if welcome.Some? then (welcome.value, FromWelcome) else (0, NoSource))
    else
      var c := b.code.value;
      if c in rules.codes then
        if !TableCodeValid(rules.codes[c], TableUses(n, c), b.user, b.subtotal, now) then Throws
        else Returns((DiscountCents(b.subtotal, rules.codes[c].valueType, rules.codes[c].value), FromTable(c)))
      else if c in rules.loyalty then
        var cents := LoyaltyCents(rules.loyalty[c], rules.segment, UsesOf(n.loyalty, c), b.subtotal, now);
        if cents.Throws? then Throws else Returns((cents.value, FromLoyalty(c)))
      else if c in rules.referrals then
        if !ReferralValid(rules.referrals[c], UsesOf(n.referral, c), b.user) then Throws
        else Returns((ReferralDiscount(rules.referrals[c], b.subtotal), FromReferral(c)))
      else Throws
  }

  /** A table code is taken from whoever may use it, while it is open and has uses left, for a large enough basket. */
  lemma TableCodeIsTakenIff(rules: Rules, n: Counts, b: Cart, now: Time)
    requires b.code.Some? && b.code.value in rules.codes
    ensures var row := rules.codes[b.code.value];
            DiscountOf(rules, n, b, now).Returns? <==>
            row.isActive && !row.isDeleted && row.validFrom <= now <= row.validTo &&
            (row.maxTotalUses.Some? ==> TableUses(n, b.code.value) < row.maxTotalUses.value) &&
            (row.minOrder.Some? ==> row.minOrder.value <= b.subtotal) &&
            (row.scope.Everyone? || (row.scope.MultipleUsers? && b.user in row.scope.users) ||
             (row.scope.SingleUser? && (row.scope.user.None? || row.scope.user.value == b.user)))
  {
  }

  /** A referral code is taken from anybody but its owner, three times at most. */
  lemma ReferralIsTakenIff(rules: Rules, n: Counts, b: Cart, now: Time)
    requires b.code.Some? && b.code.value in rules.referrals
    requires b.code.value !in rules.codes && b.code.value !in rules.loyalty
    ensures var row := rules.referrals[b.code.value];
            DiscountOf(rules, n, b, now).Returns? <==>
            row.isActive && !row.isDeleted && row.owner != b.user && UsesOf(n.referral, b.code.value) <= 2
  {
  }

  /** A usage-stepped loyalty code takes off what the tier of the customer's next use says, to the cent. */
  lemma LoyaltyDiscountIsWorth(rules: Rules, n: Counts, b: Cart, now: Time, i: nat)
    requires b.code.Some? && b.code.value !in rules.codes && b.code.value in rules.loyalty && DiscountOf(rules, n, b, now).Returns?
    requires var d := rules.loyalty[b.code.value];
             d.tierType == UsageStepped && TiersAllowed(d.tierType, d.valueType, d.tiers, Some(d.usageType)) &&
             i < |d.tiers| && d.tiers[i].usageIndex == Some(UsesOf(n.loyalty, b.code.value) + 1)
    ensures var d := rules.loyalty[b.code.value];
            ToTheCent(DiscountOf(rules, n, b, now).value.0,
                      TakenOff(d.valueType, d.tiers[i].value, b.subtotal as real / 100.0) * 100.0)
  {
    var d := rules.loyalty[b.code.value];
    UsageTierIsWorth(d, UsesOf(n.loyalty, b.code.value), i, b.subtotal as real / 100.0);
  }

  /** A loyalty code is taken as its rules say, for the customer's segment and own earlier uses and the order in tomans. */
  lemma LoyaltyIsTakenIff(rules: Rules, n: Counts, b: Cart, now: Time)
    requires b.code.Some? && b.code.value !in rules.codes && b.code.value in rules.loyalty
    ensures var d, uses, order := rules.loyalty[b.code.value], UsesOf(n.loyalty, b.code.value), b.subtotal as real / 100.0;
            DiscountOf(rules, n, b, now).Returns? <==>
            d.isActive && d.startsAt <= now <= d.endsAt && (d.targetSegment.None? || rules.segment == d.targetSegment) &&
            (d.minPurchase.None? || d.minPurchase.value <= order) &&
            (uses == 0 || d.usageType == MultiUse) && (d.tierType == UsageStepped ==> uses + 1 <= |d.tiers|)
  {
  }

  /** What the other sources take off: a table or referral code its value, and without a code the welcome discount. */
  lemma DiscountIsWorth(rules: Rules, n: Counts, b: Cart, now: Time)
    requires DiscountOf(rules, n, b, now).Returns?
    ensures var cents := DiscountOf(rules, n, b, now).value.0;
            if b.code.None? then
              if rules.priorPaid <= 2 then ToTheCent(cents, b.subtotal as real * (10 + 5 * rules.priorPaid) as real / 100.0)
              else cents == 0
            else if b.code.value in rules.codes then
              var row := rules.codes[b.code.value];
              cents == DiscountCents(b.subtotal, row.valueType, row.value)
            else b.code.value !in rules.loyalty ==>
              b.code.value in rules.referrals &&
              ToTheCent(cents, b.subtotal as real * rules.referrals[b.code.value].discountPercent / 100.0)
  {
    if b.code.None? {
      WelcomeIsWorth(rules.priorPaid, b.subtotal);
    } else if b.code.value in rules.referrals {
      ReferralIsWorth(rules.referrals[b.code.value], b.subtotal);
    }
  }

  /** Whichever source it comes from, a discount lies between zero and the subtotal. */
  lemma DiscountWithinSubtotal(rules: Rules, n: Counts, b: Cart, now: Time)
    requires RulesSound(rules) && DiscountOf(rules, n, b, now).Returns?
    ensures 0 <= DiscountOf(rules, n, b, now).value.0 <= b.subtotal
  {
    if b.code.None? {
      if rules.priorPaid < |WELCOME_TIERS| { ShareBounds(b.subtotal, WELCOME_TIERS[rules.priorPaid]); }
    } else if b.code.value !in rules.codes && b.code.value !in rules.loyalty && b.code.value in rules.referrals {
      ReferralGivesAwayAtMostAFifth(rules.referrals[b.code.value], b.subtotal);
    }
  }

  // --------------------------------------------------------------- shipping

  predicate HasGrant(grants: seq<nat>) {
    exists i :: 0 <= i < |grants| && grants[i] > 0
  }

  predicate OverThreshold(rules: Rules, subtotal: int) {
    rules.freeShippingThreshold > 0 && subtotal >= rules.freeShippingThreshold
  }

  function ShippingPrice(rules: Rules, b: Cart): Result<nat> {
    if b.shippingMethod.None? then Returns(0)
    else if b.shippingMethod.value !in rules.shippingPrices then Throws
    else Returns(rules.shippingPrices[b.shippingMethod.value])
  }

  /** The oldest grant with a use left loses one. */
  function Consumed(grants: seq<nat>): (r: seq<nat>)
    ensures |r| == |grants|
  {
    if grants == [] then []
    else if grants[0] > 0 then [grants[0] - 1] + grants[1..]
    else [grants[0]] + Consumed(grants[1..])
  }

  function TotalUses(grants: seq<nat>): nat {
    if grants == [] then 0 else grants[0] + TotalUses(grants[1..])
  }

  /** Consuming takes exactly one use when there is one, and none otherwise. */
  lemma {:induction false} ConsumedTakesOne(grants: seq<nat>)
    ensures TotalUses(Consumed(grants)) == TotalUses(grants) - if HasGrant(grants) then 1 else 0
    ensures !HasGrant(grants) ==> Consumed(grants) == grants
  {
    if grants != [] && grants[0] == 0 {
      ConsumedTakesOne(grants[1..]);
      assert Consumed(grants)[1..] == Consumed(grants[1..]);
      if HasGrant(grants) {
        var i :| 0 <= i < |grants| && grants[i] > 0;
        assert grants[1..][i - 1] > 0;
      }
      if HasGrant(grants[1..]) {
        var i :| 0 <= i < |grants[1..]| && grants[1..][i] > 0;
        assert grants[i + 1] > 0;
      }
    } else if grants != [] {
      assert Consumed(grants)[1..] == grants[1..];
    }
  }

  // ---------------------------------------------------------------- preview

  datatype PriceQuote = PriceQuote(subtotal: int, discount: int, shipping: int, packaging: int, wallet: int, payable: int)

  /** `applyToCheckout`. */
  function WalletApplied(wallet: Option<int>, requested: int, remaining: int): int {
    if requested <= 0 || remaining <= 0 || wallet.None? then 0
    else Max(0, Min(Min(requested, wallet.value), remaining))
  }

  function ShippingCharged(rules: Rules, h: Holdings, b: Cart, price: nat): nat {
    if price > 0 && (OverThreshold(rules, b.subtotal) || HasGrant(h.grants)) then 0 else price
  }

  /** Shipping is charged in full, unless the basket is large enough or the customer has a grant with a use left. */
  lemma ShippingIsFreeIff(rules: Rules, h: Holdings, b: Cart, price: nat)
    ensures var large := 0 < rules.freeShippingThreshold && rules.freeShippingThreshold <= b.subtotal;
            ShippingCharged(rules, h, b, price) == if large || (exists i :: 0 <= i < |h.grants| && h.grants[i] > 0) then 0 else price
  {
  }

  /** What the wallet pays is the most that the customer asked for, that the balance allows and that is left to pay. */
  lemma WalletPaysTheMost(wallet: Option<int>, requested: int, remaining: int)
    ensures var w, balance := WalletApplied(wallet, requested, remaining), wallet.GetOr(0);
            if requested > 0 && remaining > 0 && balance > 0
            then w <= requested && w <= balance && w <= remaining && (w == requested || w == balance || w == remaining)
            else w == 0
  {
  }

  /** A method nobody offers is refused; one that is offered has its price, and without a method nothing is shipped. */
  lemma ShippingIsPriced(rules: Rules, b: Cart)
    ensures b.shippingMethod.None? ==> ShippingPrice(rules, b) == Returns(0)
    ensures b.shippingMethod.Some? ==>
              var m := b.shippingMethod.value;
              (ShippingPrice(rules, b).Returns? <==> m in rules.shippingPrices) &&
              (m in rules.shippingPrices ==> ShippingPrice(rules, b).value == rules.shippingPrices[m])
  {
  }

  /** `checkoutPreview`; it writes nothing. */
  function Preview(rules: Rules, h: Holdings, b: Cart, now: Time): Result<PriceQuote> {
    var price := ShippingPrice(rules, b);
    var discount := DiscountOf(rules, h.counts, b, now);
    if price.Throws? || discount.Throws? then Throws
    else Returns(QuoteFor(rules, h, b, discount.value.0, ShippingCharged(rules, h, b, price.value)))
  }

  /** A preview goes through exactly when there is a price for the shipping and for the code, and follows from the discount. */
  lemma PreviewFollowsDiscount(rules: Rules, h: Holdings, counts: Counts, b: Cart, now: Time)
    ensures Preview(rules, h, b, now).Returns? <==> ShippingPrice(rules, b).Returns? && DiscountOf(rules, h.counts, b, now).Returns?
    ensures DiscountOf(rules, counts, b, now) == DiscountOf(rules, h.counts, b, now) ==>
              Preview(rules, h.(counts := counts), b, now) == Preview(rules, h, b, now)
  {
  }

  function QuoteFor(rules: Rules, h: Holdings, b: Cart, discount: int, shipping: int): PriceQuote {
    var remaining := Remaining(b.subtotal, discount, shipping, rules.packaging);
    var wallet := WalletApplied(h.wallet, b.walletRequested, remaining);
    PriceQuote(b.subtotal, discount, shipping, rules.packaging, wallet, remaining - wallet)
  }

  /** Every quote is one an order can be made from: no part is negative and nothing is taken twice. */
  lemma QuotesAreValid(rules: Rules, h: Holdings, b: Cart, now: Time)
    requires RulesSound(rules) && Preview(rules, h, b, now).Returns?
    ensures var q := Preview(rules, h, b, now).value;
            ValidQuote(q.subtotal, Quote(q.discount, q.shipping, q.packaging, q.wallet)) && q.payable >= 0 &&
            q.payable == Remaining(q.subtotal, q.discount, q.shipping, q.packaging) - q.wallet &&
            q.subtotal == b.subtotal && q.packaging == rules.packaging &&
            (q.wallet > 0 ==> h.wallet.Some? && q.wallet <= h.wallet.value)
  {
    DiscountWithinSubtotal(rules, h.counts, b, now);
  }

  // --------------------------------------------------------------- checkout

  function CountUse(uses: map<Code, nat>, c: Code): map<Code, nat> { uses[c := UsesOf(uses, c) + 1] }

  /** The chosen shipping method costs something and the basket is too small to ship for free. */
  predicate NeedsGrant(rules: Rules, b: Cart) {
    ShippingPrice(rules, b).Returns? && ShippingPrice(rules, b).value > 0 && !OverThreshold(rules, b.subtotal)
  }

  function WithUse(n: Counts, source: Source): Counts {
    match source
    case FromTable(c) => n.(table := n.table[c := TableUses(n, c) + 1])
    case FromLoyalty(c) => n.(loyalty := CountUse(n.loyalty, c))
    case FromReferral(c) => n.(referral := CountUse(n.referral, c))
    case _ => n
  }

  /** The holdings once a checkout has been charged. */
  function Charged(rules: Rules, h: Holdings, b: Cart, source: Source, q: PriceQuote): Holdings {
    Holdings(
      WithUse(h.counts, source),
      if NeedsGrant(rules, b) then Consumed(h.grants) else h.grants,
      if q.wallet > 0 && h.wallet.Some? then Some(h.wallet.value - q.wallet) else h.wallet)
  }

  /** `debitForCheckout` goes through: there is nothing to debit, or the balance covers it. */
  predicate DebitCovered(wallet: Option<int>, amount: int) {
    amount <= 0 || (wallet.Some? && wallet.value >= amount)
  }

  /**
   A checkout counts the code it used once and no other code, takes one use of a grant exactly when it needed one and there
   was one, and takes from the wallet what the quote says, leaving no balance below zero.
   */
  lemma ChargedOnce(rules: Rules, h: Holdings, b: Cart, source: Source, q: PriceQuote, c: Code)
    requires DebitCovered(h.wallet, q.wallet) && ShippingPrice(rules, b).Returns?
    ensures var r := Charged(rules, h, b, source, q);
            TableUses(r.counts, c) == TableUses(h.counts, c) + (if source == FromTable(c) then 1 else 0) &&
            UsesOf(r.counts.loyalty, c) == UsesOf(h.counts.loyalty, c) + (if source == FromLoyalty(c) then 1 else 0) &&
            UsesOf(r.counts.referral, c) == UsesOf(h.counts.referral, c) + (if source == FromReferral(c) then 1 else 0) &&
            TotalUses(r.grants) == TotalUses(h.grants) -
              (if ShippingPrice(rules, b).value > 0 && HasGrant(h.grants) &&
                  !(0 < rules.freeShippingThreshold && rules.freeShippingThreshold <= b.subtotal) then 1 else 0) &&
            (q.wallet > 0 ==> r.wallet == Some(h.wallet.GetOr(0) - q.wallet) && r.wallet.value >= 0) &&
            (q.wallet <= 0 ==> r.wallet == h.wallet)
  {
    ConsumedTakesOne(h.grants);
  }

  /** An application computed from the balance it is debited from is always covered. */
  lemma TimelyDebitIsCovered(rules: Rules, h: Holdings, b: Cart, discount: int, shipping: int)
    ensures DebitCovered(h.wallet, QuoteFor(rules, h, b, discount, shipping).wallet)
  {
  }

  lemma {:induction false} ConsumedAt(grants: seq<nat>, i: nat)
    requires i < |grants| && grants[i] > 0 && forall k :: 0 <= k < i ==> grants[k] == 0
    ensures Consumed(grants) == grants[i := grants[i] - 1]
  {
    if i > 0 { ConsumedAt(grants[1..], i - 1); }
  }

  /** The rows a checkout writes for one customer. */
  class CheckoutDesk {
    var counts: Counts
    var grants: seq<nat>
    var wallet: Option<int>

    constructor (h: Holdings)
      ensures State() == h
    {
      counts, grants, wallet := h.counts, h.grants, h.wallet;
    }

    function State(): Holdings
      reads this
    {
      Holdings(counts, grants, wallet)
    }

    method RollBack(h: Holdings)
      modifies this
      ensures State() == h
    {
      counts, grants, wallet := h.counts, h.grants, h.wallet;
    }

    /** `consumeFreeShipping`: the oldest grant with a use left. */
    method ConsumeFreeShipping() returns (consumed: bool)
      modifies this`grants
      ensures consumed == HasGrant(old(grants))
      ensures grants == Consumed(old(grants))
    {
      for i := 0 to |grants|
        invariant grants == old(grants)
        invariant forall k :: 0 <= k < i ==> grants[k] == 0
      {
        if grants[i] > 0 {
          ConsumedAt(grants, i);
          grants := grants[i := grants[i] - 1];
          return true;
        }
      }
      ConsumedTakesOne(grants);
      consumed := false;
    }

    /** `debitForCheckout`: guarded by the balance. */
    method DebitForCheckout(amount: int) returns (ok: bool)
      modifies this`wallet
      ensures ok == DebitCovered(old(wallet), amount)
      ensures wallet == if ok && amount > 0 then Some(old(wallet).value - amount) else old(wallet)
    {
      if amount <= 0 {
        return true;
      }
      if wallet.None? || wallet.value < amount {
        return false;
      }
      wallet := Some(wallet.value - amount);
      ok := true;
    }

    /** The discount branch of checkout: a table code is counted on the spot, the others once the order exists. */
    method ChooseDiscount(rules: Rules, b: Cart, now: Time) returns (r: Result<(int, Source)>)
      modifies this`counts
      ensures r == DiscountOf(rules, old(counts), b, now)
      ensures counts == if r.Returns? && r.value.1.FromTable? then WithUse(old(counts), r.value.1) else old(counts)
    {
      if b.code.None? {
        var welcome := WelcomeDiscount(rules.priorPaid, b.subtotal);
        return Returns(if welcome.Some? then (welcome.value, FromWelcome) else (0, NoSource));
      }
      var c := b.code.value;
      if c in rules.codes {
        var code := rules.codes[c];
        var used := TableUses(counts, c);
        if !TableCodeValid(code, used, b.user, b.subtotal, now) {
          return Throws;
        }
        r := Returns((DiscountCents(b.subtotal, code.valueType, code.value), FromTable(c)));
        counts := counts.(table := counts.table[c := used + 1]);
      } else if c in rules.loyalty {
        var cents := LoyaltyCents(rules.loyalty[c], rules.segment, UsesOf(counts.loyalty, c), b.subtotal, now);
        r := if cents.Throws? then Throws else Returns((cents.value, FromLoyalty(c)));
      } else if c in rules.referrals {
        if !ReferralValid(rules.referrals[c], UsesOf(counts.referral, c), b.user) {
          return Throws;
        }
        r := Returns((ReferralDiscount(rules.referrals[c], b.subtotal), FromReferral(c)));
      } else {
        r := Throws;
      }
    }

    /** The shipping branch of checkout: the threshold goes first, so that no grant is used without need. */
    method ChargeShipping(rules: Rules, b: Cart) returns (r: Result<nat>)
      modifies this`grants
      ensures r.Throws? <==> ShippingPrice(rules, b).Throws?
      ensures r.Returns? ==> r.value == ShippingCharged(rules, old(State()), b, ShippingPrice(rules, b).value)
      ensures grants == if NeedsGrant(rules, b) then Consumed(old(grants)) else old(grants)
    {
      if b.shippingMethod.None? {
        return Returns(0);
      }
      if b.shippingMethod.value !in rules.shippingPrices {
        return Throws;
      }
      var price := rules.shippingPrices[b.shippingMethod.value];
      if price > 0 {
        if OverThreshold(rules, b.subtotal) {
          return Returns(0);
        }
        var consumed := ConsumeFreeShipping();
        if consumed {
          return Returns(0);
        }
      }
      r := Returns(price);
    }

    /**
     What is left to pay, and the debit of the wallet's part. The balance was read outside the transaction that debits
     it, so the guard of the debit fails exactly when the balance no longer covers what was computed from it.
     */
    method ChargeWallet(rules: Rules, b: Cart, discount: int, shipping: int, read: Option<int>) returns (r: Result<PriceQuote>)
      modifies this`wallet
      ensures var quote := QuoteFor(rules, old(State()).(wallet := read), b, discount, shipping);
              (r.Returns? <==> DebitCovered(old(wallet), quote.wallet)) &&
              (r.Returns? ==> r.value == quote) &&
              wallet == if r.Returns? && quote.wallet > 0 then Some(old(wallet).value - quote.wallet) else old(wallet)
    {
      var remaining := b.subtotal - discount + shipping + rules.packaging;
      var applied := if b.walletRequested != 0 then WalletApplied(read, b.walletRequested, remaining) else 0;
      var debited := DebitForCheckout(applied);
      if !debited {
        return Throws;
      }
      r := Returns(PriceQuote(b.subtotal, discount, shipping, rules.packaging, applied, remaining - applied));
    }

    /** The redemption rows written once the order exists. */
    method RecordRedemption(source: Source)
      modifies this`counts
      ensures counts == if source.FromTable? then old(counts) else WithUse(old(counts), source)
    {
      if source.FromLoyalty? {
        counts := counts.(loyalty := CountUse(counts.loyalty, source.code));
      } else if source.FromReferral? {
        counts := counts.(referral := CountUse(counts.referral, source.code));
      }
    }

    /**
     The money of `checkout`, on the use counts it reads in its transaction and the balance `read` before. It goes
     through exactly when the preview on these does, the checks only checkout makes hold and the balance still covers
     the wallet's part; it then charges exactly that quote, and otherwise writes nothing.
     */
    method Checkout(rules: Rules, b: Cart, now: Time, read: Option<int>, otherChecksHold: bool) returns (r: Result<PriceQuote>)
      modifies this
      ensures var shown := Preview(rules, old(State()).(wallet := read), b, now);
              (r.Returns? <==> shown.Returns? && otherChecksHold && DebitCovered(old(wallet), shown.value.wallet)) &&
              (r.Returns? ==> r == shown)
      ensures r.Returns? ==>
                State() == Charged(rules, old(State()), b, DiscountOf(rules, old(counts), b, now).value.1, r.value)
      ensures r.Throws? ==> State() == old(State())
    {
      var saved := State();
      var shipping := ChargeShipping(rules, b);
      if shipping.Throws? {
        RollBack(saved);
        return Throws;
      }
      var discount := ChooseDiscount(rules, b, now);
      if discount.Throws? || !otherChecksHold {
        RollBack(saved);
        return Throws;
      }
      r := ChargeWallet(rules, b, discount.value.0, shipping.value, read);
      if r.Throws? {
        RollBack(saved);
        return;
      }
      RecordRedemption(discount.value.1);
    }
  }
}
