/**
 Tiered loyalty codes: what the admin may save (discount-incentive.service.ts), what a redemption is worth
 (discount-redemption.rules.ts), and the run of one code's redemptions (discount-redemption.service.ts).
 */
module LoyaltyTiers {
  import opened Wrappers
  import opened Sorting

  datatype ValueType = Percentage | FixedAmount
  datatype TierType = Flat | Stepped | UsageStepped
  datatype UsageType = SingleUse | MultiUse

  datatype Tier = Tier(minAmount: Option<real>, usageIndex: Option<int>, value: real)

  // ------------------------------------------------------------ admin rules

  predicate ValueAllowed(t: ValueType, value: real) {
    match t
    case Percentage => 0.0 < value <= 100.0
    case FixedAmount => 0.0 < value
  }

  predicate ValuesAllowed(t: ValueType, tiers: seq<Tier>) {
    forall i :: 0 <= i < |tiers| ==> ValueAllowed(t, tiers[i].value)
  }

  predicate DistinctMinimums(tiers: seq<Tier>) {
    && (forall i :: 0 <= i < |tiers| ==> tiers[i].minAmount.Some?)
    && (forall i, j :: 0 <= i < j < |tiers| ==> tiers[i].minAmount.value != tiers[j].minAmount.value)
  }

  function Indexes(tiers: seq<Tier>): seq<Option<int>> {
    seq(|tiers|, i requires 0 <= i < |tiers| => tiers[i].usageIndex)
  }

  /** The uses 1, 2, ..., n. */
  function Uses(n: nat): (r: seq<Option<int>>)
    ensures |r| == n
  {
    seq(n, i => Some(i + 1))
  }

  /** What `assertTierRules` lets through: each use from 1 to n has its own tier, each minimum occurs once. */
  predicate TiersAllowed(tierType: TierType, t: ValueType, tiers: seq<Tier>, usage: Option<UsageType>) {
    match tierType
    case Flat => tiers == []
    case Stepped => tiers != [] && DistinctMinimums(tiers) && ValuesAllowed(t, tiers)
    case UsageStepped =>
      tiers != [] && usage == Some(MultiUse) && multiset(Indexes(tiers)) == multiset(Uses(|tiers|)) && ValuesAllowed(t, tiers)
  }

  function IndexKey(i: Option<int>): real { i.GetOr(0) as real }

  /** Sorted and compared place by place with 1, 2, ..., n: the check finds exactly the permutations. */
  lemma SequentialIffPermutation(indexes: seq<Option<int>>)
    ensures SortBy(indexes, IndexKey) == Uses(|indexes|) <==> multiset(indexes) == multiset(Uses(|indexes|))
  {
    var sorted, uses := SortBy(indexes, IndexKey), Uses(|indexes|);
    SortIsSortedPermutation(indexes, IndexKey);
    if multiset(indexes) == multiset(uses) {
      SortedIsUnique(uses, sorted, IndexKey);
    }
  }

  /** `indexes.every((v, i) => v === i + 1)` after sorting. */
  method AreSequential(indexes: seq<Option<int>>) returns (ok: bool)
    ensures ok <==> multiset(indexes) == multiset(Uses(|indexes|))
  {
    var sorted := SortBy(indexes, IndexKey);
    SequentialIffPermutation(indexes);
    for i := 0 to |sorted|
      invariant forall k :: 0 <= k < i ==> sorted[k] == Some(k + 1)
    {
      if sorted[i] != Some(i + 1) {
        assert Uses(|indexes|)[i] == Some(i + 1);
        return false;
      }
    }
    assert sorted == Uses(|indexes|);
    ok := true;
  }

  method AssertTierRules(tierType: TierType, t: ValueType, tiers: seq<Tier>, usage: Option<UsageType>) returns (ok: bool)
    ensures ok <==> TiersAllowed(tierType, t, tiers, usage)
    ensures ok && tierType == UsageStepped ==> usage == Some(MultiUse)
    ensures ok && tierType != Flat ==>
              tiers != [] && forall i :: 0 <= i < |tiers| ==> 0.0 < tiers[i].value && (t == Percentage ==> tiers[i].value <= 100.0)
  {
    match tierType
    case Flat => ok := tiers == [];
    case Stepped =>
      if tiers == [] {
        return false;
      }
      ok := AssertSteps(t, tiers);
    case UsageStepped =>
      if tiers == [] || usage != Some(MultiUse) {
        return false;
      }
      var sequential := AreSequential(Indexes(tiers));
      if !sequential {
        return false;
      }
      for i := 0 to |tiers|
        invariant forall k :: 0 <= k < i ==> ValueAllowed(t, tiers[k].value)
      {
        if !ValueAllowed(t, tiers[i].value) {
          return false;
        }
      }
      ok := true;
  }

  /** The loop over the tiers of a STEPPED code, remembering the minimums it has seen. */
  method AssertSteps(t: ValueType, tiers: seq<Tier>) returns (ok: bool)
    ensures ok <==> DistinctMinimums(tiers) && ValuesAllowed(t, tiers)
  {
    var seen: set<real> := {};
    ghost var at: map<real, nat> := map[];
    for i := 0 to |tiers|
      invariant forall k :: 0 <= k < i ==> tiers[k].minAmount.Some? && ValueAllowed(t, tiers[k].value)
      invariant forall x :: x in seen ==> x in at && at[x] < i && tiers[at[x]].minAmount.value == x
      invariant forall k :: 0 <= k < i ==> tiers[k].minAmount.value in seen
      invariant forall j, k :: 0 <= j < k < i ==> tiers[j].minAmount.value != tiers[k].minAmount.value
    {
      var tier := tiers[i];
      if tier.minAmount.None? {
        return false;
      }
      var minimum := tier.minAmount.value;
      if minimum in seen {
        assert tiers[at[minimum]].minAmount.value == tiers[i].minAmount.value;
        return false;
      }
      seen := seen + {minimum};
      at := at[minimum := i];
      if !ValueAllowed(t, tier.value) {
        return false;
      }
    }
    ok := true;
  }

  // -------------------------------------------------------- redemption rules

  datatype Detail = Detail(
    isActive: bool, startsAt: int, endsAt: int, targetSegment: Option<nat>, usageType: UsageType,
    minPurchase: Option<real>, valueType: ValueType, tierType: TierType, value: real, tiers: seq<Tier>)

  datatype Failure = Inactive | NotStarted | Expired | WrongSegment | AlreadyUsed | UsageLimitReached | BelowMinimum

  /** `validateRedemption`; `None` is valid. */
  function ValidateRedemption(d: Detail, segment: Option<nat>, uses: nat, orderAmount: real, now: int): Option<Failure> {
    if !d.isActive then Some(Inactive)
    else if now < d.startsAt then Some(NotStarted)
    else if now > d.endsAt then Some(Expired)
    else if d.targetSegment.Some? && segment != d.targetSegment then Some(WrongSegment)
    else if d.usageType == SingleUse && uses > 0 then Some(AlreadyUsed)
    else if d.tierType == UsageStepped && uses >= |d.tiers| then Some(UsageLimitReached)
    else if d.minPurchase.Some? && orderAmount < d.minPurchase.value then Some(BelowMinimum)
    else None
  }

  /**
   A code is accepted while it is open, from the segment it is meant for, for an order that is large enough, and as
   long as the customer has a use of it left.
   */
  lemma CodeIsAcceptedIff(d: Detail, segment: Option<nat>, uses: nat, orderAmount: real, now: int)
    ensures ValidateRedemption(d, segment, uses, orderAmount, now).None? <==>
            d.isActive && d.startsAt <= now <= d.endsAt && (d.targetSegment.None? || segment == d.targetSegment) &&
            (d.minPurchase.None? || d.minPurchase.value <= orderAmount) &&
            (uses == 0 || d.usageType == MultiUse) && (d.tierType == UsageStepped ==> uses + 1 <= |d.tiers|)
  {
  }

  /** `tiers.find(t => t.usageIndex === use)`. */
  function FindUse(tiers: seq<Tier>, use: int): (r: Option<Tier>)
    ensures r.Some? ==> r.value in tiers && r.value.usageIndex == Some(use)
    ensures r.None? ==> forall i :: 0 <= i < |tiers| ==> tiers[i].usageIndex != Some(use)
  {
    if tiers == [] then None
    else if tiers[0].usageIndex == Some(use) then Some(tiers[0])
    else FindUse(tiers[1..], use)
  }

  predicate Reached(t: Tier, orderAmount: real) {
    t.minAmount.Some? && t.minAmount.value <= orderAmount
  }

  function ReachedTiers(tiers: seq<Tier>, orderAmount: real): (r: seq<Tier>)
    ensures forall t :: t in r <==> t in tiers && Reached(t, orderAmount)
  {
    if tiers == [] then []
    else (if Reached(tiers[0], orderAmount) then [tiers[0]] else []) + ReachedTiers(tiers[1..], orderAmount)
  }

  function FallingKey(t: Tier): real { 0.0 - t.minAmount.GetOr(0.0) }

  /** The reached tiers sorted by falling minimum, and the first of them. */
  function HighestReached(tiers: seq<Tier>, orderAmount: real): Option<Tier> {
    var sorted := SortBy(ReachedTiers(tiers, orderAmount), FallingKey);
    if sorted == [] then None else Some(sorted[0])
  }

  function RateOf(d: Detail, uses: nat, orderAmount: real): Option<real> {
    match d.tierType
    case Flat => Some(d.value)
    case UsageStepped => var tier := FindUse(d.tiers, uses + 1); if tier.Some? then Some(tier.value.value) else None
    case Stepped => var tier := HighestReached(d.tiers, orderAmount); if tier.Some? then Some(tier.value.value) else None
  }

  function Clamp(x: real, most: real): real {
    var floor := if x < 0.0 then 0.0 else x;
    if floor < most then floor else most
  }

  /** `calculateDiscountAmount`, never below zero and never above the order. */
  function DiscountAmount(d: Detail, uses: nat, orderAmount: real): (r: real)
    ensures orderAmount >= 0.0 ==> 0.0 <= r <= orderAmount
  {
    var rate := RateOf(d, uses, orderAmount);
    if rate.None? then 0.0
    else Clamp(if d.valueType == Percentage then orderAmount * rate.value / 100.0 else rate.value, orderAmount)
  }

  // ------------------------------------------------------------- properties

  /** The tier a STEPPED code picks is a reached one with the greatest minimum; none only if none is reached. */
  lemma SteppedPicksGreatest(tiers: seq<Tier>, orderAmount: real)
    ensures var best := HighestReached(tiers, orderAmount);
            (best.None? <==> forall t :: t in tiers ==> !Reached(t, orderAmount)) &&
            (best.Some? ==> best.value in tiers && Reached(best.value, orderAmount) &&
                            forall t :: t in tiers && Reached(t, orderAmount) ==>
                                          t.minAmount.value <= best.value.minAmount.value)
  {
    var reached := ReachedTiers(tiers, orderAmount);
    var sorted := SortBy(reached, FallingKey);
    SortIsSortedPermutation(reached, FallingKey);
    forall t ensures t in reached <==> t in sorted {
      assert t in multiset(reached) <==> t in multiset(sorted);
    }
    if sorted == [] {
      forall t | t in tiers ensures !Reached(t, orderAmount) {
        assert t !in reached;
      }
    } else {
      assert sorted[0] in reached;
      forall t | t in tiers && Reached(t, orderAmount) ensures t.minAmount.value <= sorted[0].minAmount.value {
        assert t in sorted;
        var k :| 0 <= k < |sorted| && sorted[k] == t;
        assert k == 0 || FallingKey(sorted[0]) <= FallingKey(sorted[k]);
      }
    }
  }

  /** An accepted STEPPED list gives the same tier however its tiers are ordered. */
  lemma SteppedIgnoresOrder(a: seq<Tier>, b: seq<Tier>, t: ValueType, usage: Option<UsageType>, orderAmount: real)
    requires TiersAllowed(Stepped, t, a, usage) && multiset(a) == multiset(b)
    ensures HighestReached(a, orderAmount) == HighestReached(b, orderAmount)
  {
    SteppedPicksGreatest(a, orderAmount);
    SteppedPicksGreatest(b, orderAmount);
    forall x ensures x in a <==> x in b {
      assert x in multiset(a) <==> x in multiset(b);
    }
    var best, best' := HighestReached(a, orderAmount), HighestReached(b, orderAmount);
    if best.Some? && best'.Some? {
      var i :| 0 <= i < |a| && a[i] == best.value;
      var j :| 0 <= j < |a| && a[j] == best'.value;
      assert best.value.minAmount == best'.value.minAmount;
    }
  }

  /** In an accepted USAGE_STEPPED list every use from 1 to n has exactly one tier, and no other use has one. */
  lemma UseHasItsTier(t: ValueType, tiers: seq<Tier>, usage: Option<UsageType>, use: int)
    requires TiersAllowed(UsageStepped, t, tiers, usage)
    ensures FindUse(tiers, use).Some? <==> 1 <= use <= |tiers|
    ensures FindUse(tiers, use).Some? ==>
              exists i :: 0 <= i < |tiers| && tiers[i] == FindUse(tiers, use).value &&
                          forall j :: 0 <= j < |tiers| && tiers[j].usageIndex == Some(use) ==> j == i
  {
    var indexes, uses := Indexes(tiers), Uses(|tiers|);
    assert Some(use) in multiset(indexes) <==> Some(use) in multiset(uses);
    if 1 <= use <= |tiers| {
      assert uses[use - 1] == Some(use);
      var i :| 0 <= i < |indexes| && indexes[i] == Some(use);
      assert tiers[i].usageIndex == Some(use);
      UsesOnce(|tiers|, use);
      forall j | 0 <= j < |tiers| && tiers[j].usageIndex == Some(use) ensures j == i {
        if j != i { TwiceCountsTwo(indexes, if i < j then i else j, if i < j then j else i); }
      }
    } else {
      assert Some(use) !in indexes;
      forall i | 0 <= i < |tiers| ensures tiers[i].usageIndex != Some(use) {
        assert indexes[i] in indexes;
      }
    }
  }

  lemma {:induction false} UsesOnce(n: nat, use: int)
    requires 1 <= use <= n
    ensures multiset(Uses(n))[Some(use)] == 1
  {
    assert Uses(n) == Uses(n - 1) + [Some(n)];
    if use == n {
      assert Some(n) !in Uses(n - 1);
    } else {
      UsesOnce(n - 1, use);
    }
  }

  lemma TwiceCountsTwo<T>(s: seq<T>, i: nat, j: nat)
    requires i < j < |s| && s[i] == s[j]
    ensures multiset(s)[s[i]] >= 2
  {
    assert s == s[..i] + [s[i]] + s[i + 1..j] + [s[j]] + s[j + 1..];
  }

  /** What a percentage or a fixed amount takes off an order: never more than there is. */
  function TakenOff(t: ValueType, value: real, orderAmount: real): real {
    var cut := if t == Percentage then orderAmount * value / 100.0 else value;
    if cut < orderAmount then cut else orderAmount
  }

  /** A discount of any rate that is not negative takes off just that. */
  lemma RateIsTakenOff(d: Detail, uses: nat, rate: real, orderAmount: real)
    requires RateOf(d, uses, orderAmount) == Some(rate) && rate >= 0.0 && orderAmount >= 0.0
    ensures DiscountAmount(d, uses, orderAmount) == TakenOff(d.valueType, rate, orderAmount)
  {
    NoNegativeProduct(orderAmount, rate);
  }

  lemma NoNegativeProduct(a: real, b: real)
    requires a >= 0.0 && b >= 0.0
    ensures a * b >= 0.0 && a * b / 100.0 >= 0.0
  {
  }

  /** A USAGE_STEPPED code takes off what the tier numbered with the use says, and never more than the order. */
  lemma UsageTierIsWorth(d: Detail, uses: nat, i: nat, orderAmount: real)
    requires d.tierType == UsageStepped && TiersAllowed(d.tierType, d.valueType, d.tiers, Some(d.usageType))
    requires i < |d.tiers| && d.tiers[i].usageIndex == Some(uses + 1) && orderAmount >= 0.0
    ensures DiscountAmount(d, uses, orderAmount) ==
            TakenOff(d.valueType, d.tiers[i].value, orderAmount)
  {
    UseHasItsTier(d.valueType, d.tiers, Some(d.usageType), uses + 1);
    FindUseFinds(d.tiers, i, uses + 1);
    assert ValueAllowed(d.valueType, d.tiers[i].value);
    RateIsTakenOff(d, uses, d.tiers[i].value, orderAmount);
  }

  lemma FindUseFinds(tiers: seq<Tier>, i: nat, use: int)
    requires i < |tiers| && tiers[i].usageIndex == Some(use)
    ensures FindUse(tiers, use).Some?
  {
  }

  /** A STEPPED code takes off what the reached tier with the greatest minimum says, and nothing when none is reached. */
  lemma SteppedTierIsWorth(d: Detail, uses: nat, i: nat, orderAmount: real)
    requires d.tierType == Stepped && TiersAllowed(d.tierType, d.valueType, d.tiers, Some(d.usageType)) && orderAmount >= 0.0
    requires i < |d.tiers| && d.tiers[i].minAmount.Some? && d.tiers[i].minAmount.value <= orderAmount
    requires forall j :: 0 <= j < |d.tiers| && d.tiers[j].minAmount.Some? && d.tiers[j].minAmount.value <= orderAmount ==>
                           d.tiers[j].minAmount.value <= d.tiers[i].minAmount.value
    ensures DiscountAmount(d, uses, orderAmount) ==
            TakenOff(d.valueType, d.tiers[i].value, orderAmount)
  {
    SteppedPicksGreatest(d.tiers, orderAmount);
    var best := HighestReached(d.tiers, orderAmount);
    assert d.tiers[i] in d.tiers && Reached(d.tiers[i], orderAmount);
    var j :| 0 <= j < |d.tiers| && d.tiers[j] == best.value;
    assert d.tiers[j].minAmount.value == d.tiers[i].minAmount.value;
    assert ValueAllowed(d.valueType, d.tiers[i].value);
    RateIsTakenOff(d, uses, d.tiers[i].value, orderAmount);
  }

  lemma UnreachedIsWorthNothing(d: Detail, uses: nat, orderAmount: real)
    requires d.tierType == Stepped
    requires forall j :: 0 <= j < |d.tiers| && d.tiers[j].minAmount.Some? ==> orderAmount < d.tiers[j].minAmount.value
    ensures DiscountAmount(d, uses, orderAmount) == 0.0
  {
    SteppedPicksGreatest(d.tiers, orderAmount);
    forall t | t in d.tiers ensures !Reached(t, orderAmount) {
      var j :| 0 <= j < |d.tiers| && d.tiers[j] == t;
    }
  }

  /** A FLAT code takes off its own value, however often it was used. */
  lemma FlatIsWorth(d: Detail, uses: nat, orderAmount: real)
    requires d.tierType == Flat && d.value >= 0.0 && orderAmount >= 0.0
    ensures DiscountAmount(d, uses, orderAmount) ==
            TakenOff(d.valueType, d.value, orderAmount)
  {
    RateIsTakenOff(d, uses, d.value, orderAmount);
  }

  /** Every use an accepted list allows takes something off an order that costs anything. */
  lemma AcceptedTiersPay(d: Detail, uses: nat, orderAmount: real)
    requires d.tierType == UsageStepped && TiersAllowed(d.tierType, d.valueType, d.tiers, Some(d.usageType))
    requires uses < |d.tiers| && orderAmount > 0.0
    ensures 0.0 < DiscountAmount(d, uses, orderAmount) <= orderAmount
  {
    UseHasItsTier(d.valueType, d.tiers, Some(d.usageType), uses + 1);
    var i :| 0 <= i < |d.tiers| && d.tiers[i] == FindUse(d.tiers, uses + 1).value;
    UsageTierIsWorth(d, uses, i, orderAmount);
    assert ValueAllowed(d.valueType, d.tiers[i].value);
    assert orderAmount * d.tiers[i].value / 100.0 > 0.0;
  }

  // ------------------------------------------------------ redeeming a code

  datatype Redemption = Redemption(customer: nat, amount: real)

  function PriorUses(log: seq<Redemption>, customer: nat): nat {
    if log == [] then 0
    else (if log[|log| - 1].customer == customer then 1 else 0) + PriorUses(log[..|log| - 1], customer)
  }

  datatype Request = Request(customer: nat, segment: Option<nat>, orderAmount: real, now: int)

  predicate Accepts(d: Detail, log: seq<Redemption>, r: Request) {
    ValidateRedemption(d, r.segment, PriorUses(log, r.customer), r.orderAmount, r.now).None?
  }

  /** The log after `redeem`; a refused request adds nothing. */
  function AfterRedeem(d: Detail, log: seq<Redemption>, r: Request): seq<Redemption> {
    if Accepts(d, log, r)
    then log + [Redemption(r.customer, DiscountAmount(d, PriorUses(log, r.customer), r.orderAmount))] else log
  }

  /** The redemptions of one code. */
  class RedemptionLog {
    var entries: seq<Redemption>

    constructor ()
      ensures entries == []
    {
      entries := [];
    }

    /** `redeem`: counts the customer's earlier redemptions and, if the rules accept, appends this one. */
    method Redeem(d: Detail, r: Request) returns (answer: Result<real>)
      modifies this
      ensures answer.Returns? <==> Accepts(d, old(entries), r)
      ensures entries == AfterRedeem(d, old(entries), r)
      ensures answer.Returns? ==> |entries| == |old(entries)| + 1 && entries[|old(entries)|] == Redemption(r.customer, answer.value)
    {
      var uses := 0;
      for i := 0 to |entries|
        invariant uses == PriorUses(entries[..i], r.customer)
      {
        assert entries[..i + 1][..i] == entries[..i];
        if entries[i].customer == r.customer {
          uses := uses + 1;
        }
      }
      assert entries[..|entries|] == entries;
      if ValidateRedemption(d, r.segment, uses, r.orderAmount, r.now).Some? {
        return Throws;
      }
      answer := Returns(DiscountAmount(d, uses, r.orderAmount));
      entries := entries + [Redemption(r.customer, answer.value)];
    }
  }

  // ------------------------------------------------------ uses over runs

  /** A checkout past its count: whose, how many uses it counted, and the order it computed the discount of. */
  datatype Count = Count(customer: nat, uses: nat, orderAmount: real)

  /**
   `redeem` counts and writes under one lock. Checkout counts the same rows under another lock and writes its own only
   once its order exists, so a `redeem` may come between the two.
   */
  datatype UseStep =
    | RedeemNow(r: Request)
    | CheckoutCounts(r: Request)
    | CheckoutWrites(c: Count)

  /** The redemptions, in order, and the checkouts past their count. */
  datatype UseLog = UseLog(entries: seq<Redemption>, counted: set<Count>)

  const NO_USES := UseLog([], {})

  /** An amount as checkout stores it: in whole cents. */
  function InCents(x: real): (r: real)
    ensures x - 0.005 < r <= x + 0.005
  {
    (x * 100.0 + 0.5).Floor as real / 100.0
  }

  function NextUse(d: Detail, s: UseLog, e: UseStep): UseLog {
    match e
    case RedeemNow(r) => s.(entries := AfterRedeem(d, s.entries, r))
    case CheckoutCounts(r) =>
      if Accepts(d, s.entries, r)
      then s.(counted := s.counted + {Count(r.customer, PriorUses(s.entries, r.customer), r.orderAmount)}) else s
    case CheckoutWrites(c) =>
      if c in s.counted
      then s.(entries := s.entries + [Redemption(c.customer, InCents(DiscountAmount(d, c.uses, c.orderAmount)))]) else s
  }

  function RunUses(d: Detail, s: UseLog, es: seq<UseStep>): UseLog
    decreases |es|
  {
    if es == [] then s else RunUses(d, NextUse(d, s, es[0]), es[1..])
  }

  /** A redemption as it came about: the use it was computed for, the order, and the amount that was written. */
  datatype Grant = Grant(use: nat, orderAmount: real, amount: real, inCents: bool)

  /** The amount a step writes, if it writes one. */
  function AmountWritten(d: Detail, s: UseLog, e: UseStep): real {
    var entries := NextUse(d, s, e).entries;
    if |entries| > |s.entries| then entries[|s.entries|].amount else 0.0
  }

  /** What a step grants the customer, if it writes a redemption of theirs. */
  function GrantedBy(d: Detail, s: UseLog, e: UseStep, customer: nat): seq<Grant> {
    match e
    case RedeemNow(r) =>
      if r.customer == customer && Accepts(d, s.entries, r)
      then [Grant(PriorUses(s.entries, customer) + 1, r.orderAmount, AmountWritten(d, s, e), false)] else []
    case CheckoutCounts(_) => []
    case CheckoutWrites(c) =>
      if c.customer == customer && c in s.counted then [Grant(c.uses + 1, c.orderAmount, AmountWritten(d, s, e), true)] else []
  }

  /** What a run grants the customer, in order. */
  function Granted(d: Detail, s: UseLog, es: seq<UseStep>, customer: nat): seq<Grant>
    decreases |es|
  {
    if es == [] then []
    else GrantedBy(d, s, es[0], customer) + Granted(d, NextUse(d, s, es[0]), es[1..], customer)
  }

  /** A checkout of the customer writes while what it counted is still the count. */
  predicate InTime(s: UseLog, e: UseStep, customer: nat) {
    e.CheckoutWrites? && e.c.customer == customer && e.c in s.counted ==> e.c.uses == PriorUses(s.entries, customer)
  }

  /** All of the customer's checkouts do. */
  predicate CountsInTime(d: Detail, s: UseLog, es: seq<UseStep>, customer: nat)
    decreases |es|
  {
    es == [] || (InTime(s, es[0], customer) && CountsInTime(d, NextUse(d, s, es[0]), es[1..], customer))
  }

  lemma OneMoreUse(d: Detail, s: UseLog, e: UseStep, customer: nat)
    ensures PriorUses(NextUse(d, s, e).entries, customer) ==
            PriorUses(s.entries, customer) + |GrantedBy(d, s, e, customer)|
  {
  }

  /** Checkouts only got past their count with a use that has its tier, and nobody's uses become fewer. */
  predicate CountedSoundly(d: Detail, s: UseLog) {
    forall c :: c in s.counted ==> c.uses < |d.tiers| && c.uses <= PriorUses(s.entries, c.customer)
  }

  lemma StepCountsSoundly(d: Detail, s: UseLog, e: UseStep)
    requires d.tierType == UsageStepped && CountedSoundly(d, s)
    ensures CountedSoundly(d, NextUse(d, s, e))
  {
  }

  /** Each was computed for one of the uses 1 to n, at the latest for the one it is after `prior` others. */
  predicate HaveTheirTiers(granted: seq<Grant>, n: nat, prior: nat) {
    forall k :: 0 <= k < |granted| ==> 1 <= granted[k].use <= n && granted[k].use <= prior + k + 1
  }

  lemma HaveTheirTiersConcat(first: seq<Grant>, rest: seq<Grant>, n: nat, prior: nat)
    requires HaveTheirTiers(first, n, prior) && HaveTheirTiers(rest, n, prior + |first|)
    ensures HaveTheirTiers(first + rest, n, prior)
  {
    var all := first + rest;
    forall k | 0 <= k < |all| ensures 1 <= all[k].use <= n && all[k].use <= prior + k + 1 {
      if k >= |first| { assert all[k] == rest[k - |first|]; }
    }
  }

  lemma GrantHasItsTier(d: Detail, s: UseLog, e: UseStep, customer: nat)
    requires d.tierType == UsageStepped && CountedSoundly(d, s)
    ensures HaveTheirTiers(GrantedBy(d, s, e, customer), |d.tiers|, PriorUses(s.entries, customer))
  {
  }

  /** Every redemption is counted, and is computed for a use that has its tier, at the latest for the one it is. */
  lemma {:induction false} UsesAreCounted(d: Detail, s: UseLog, es: seq<UseStep>, customer: nat)
    requires d.tierType == UsageStepped && CountedSoundly(d, s)
    ensures var granted := Granted(d, s, es, customer);
            PriorUses(RunUses(d, s, es).entries, customer) == PriorUses(s.entries, customer) + |granted| &&
            HaveTheirTiers(granted, |d.tiers|, PriorUses(s.entries, customer))
    decreases |es|
  {
    if es != [] {
      var next := NextUse(d, s, es[0]);
      OneMoreUse(d, s, es[0], customer);
      StepCountsSoundly(d, s, es[0]);
      GrantHasItsTier(d, s, es[0], customer);
      UsesAreCounted(d, next, es[1..], customer);
      HaveTheirTiersConcat(GrantedBy(d, s, es[0], customer), Granted(d, next, es[1..], customer), |d.tiers|,
                           PriorUses(s.entries, customer));
    }
  }

  predicate Consecutive(granted: seq<Grant>, from: nat) {
    forall k :: 0 <= k < |granted| ==> granted[k].use == from + k + 1
  }

  lemma ConsecutiveConcat(first: seq<Grant>, rest: seq<Grant>, from: nat)
    ensures Consecutive(first + rest, from) <==> Consecutive(first, from) && Consecutive(rest, from + |first|)
  {
    var all := first + rest;
    if Consecutive(all, from) {
      forall k | 0 <= k < |first| ensures first[k].use == from + k + 1 { assert all[k] == first[k]; }
      forall k | 0 <= k < |rest| ensures rest[k].use == from + |first| + k + 1 { assert all[|first| + k] == rest[k]; }
    }
  }

  /** A step writes the use that is next exactly when it is in time. */
  lemma NextUseIff(d: Detail, s: UseLog, e: UseStep, customer: nat)
    ensures Consecutive(GrantedBy(d, s, e, customer), PriorUses(s.entries, customer)) <==> InTime(s, e, customer)
  {
    var written := GrantedBy(d, s, e, customer);
    assert written == [] || written == [written[0]];
  }

  /** They are consecutive exactly when no checkout of the customer wrote on a count that had changed. */
  lemma {:induction false} UsesAreConsecutiveIff(d: Detail, s: UseLog, es: seq<UseStep>, customer: nat)
    ensures CountsInTime(d, s, es, customer) <==>
            Consecutive(Granted(d, s, es, customer), PriorUses(s.entries, customer))
    decreases |es|
  {
    if es != [] {
      var next := NextUse(d, s, es[0]);
      OneMoreUse(d, s, es[0], customer);
      NextUseIff(d, s, es[0], customer);
      UsesAreConsecutiveIff(d, next, es[1..], customer);
      ConsecutiveConcat(GrantedBy(d, s, es[0], customer), Granted(d, next, es[1..], customer),
                        PriorUses(s.entries, customer));
    }
  }

  /**
   Over any run of redemptions of a code with n accepted usage tiers, by `redeem` and by checkout and by whomever, each
   of a customer's redemptions is computed for a use that has its tier. The k-th is computed for use k, for every k,
   exactly when no checkout of the customer wrote on a count that had changed, and then there are never more than n.
   */
  lemma KthUseGetsKthTier(d: Detail, es: seq<UseStep>, customer: nat)
    requires d.tierType == UsageStepped && TiersAllowed(d.tierType, d.valueType, d.tiers, Some(d.usageType))
    ensures var granted := Granted(d, NO_USES, es, customer);
            |granted| == PriorUses(RunUses(d, NO_USES, es).entries, customer) &&
            (forall k :: 0 <= k < |granted| ==>
                           FindUse(d.tiers, granted[k].use).Some? &&
                           FindUse(d.tiers, granted[k].use).value.usageIndex == Some(granted[k].use)) &&
            (CountsInTime(d, NO_USES, es, customer) <==> Consecutive(granted, 0)) &&
            (CountsInTime(d, NO_USES, es, customer) ==> |granted| <= |d.tiers|)
  {
    var granted := Granted(d, NO_USES, es, customer);
    UsesAreCounted(d, NO_USES, es, customer);
    UsesAreConsecutiveIff(d, NO_USES, es, customer);
    forall k | 0 <= k < |granted| ensures FindUse(d.tiers, granted[k].use).Some? {
      UseHasItsTier(d.valueType, d.tiers, Some(d.usageType), granted[k].use);
    }
    if CountsInTime(d, NO_USES, es, customer) && granted != [] {
      assert granted[|granted| - 1].use == |granted|;
    }
  }

  /** The amount written is the one computed for the use, in whole cents if checkout wrote it. */
  predicate Priced(d: Detail, g: Grant) {
    g.use >= 1 && g.amount == if g.inCents then InCents(DiscountAmount(d, g.use - 1, g.orderAmount))
                              else DiscountAmount(d, g.use - 1, g.orderAmount)
  }

  lemma {:induction false} GrantsArePriced(d: Detail, s: UseLog, es: seq<UseStep>, customer: nat)
    ensures forall k :: 0 <= k < |Granted(d, s, es, customer)| ==> Priced(d, Granted(d, s, es, customer)[k])
    decreases |es|
  {
    if es != [] { GrantsArePriced(d, NextUse(d, s, es[0]), es[1..], customer); }
  }

  /**
   And it is worth what tier k says: the k-th redemption of a customer whose checkouts wrote in time takes off the
   percentage or the amount of the tier numbered k, and never more than the order.
   */
  lemma KthUseIsWorthKthTier(d: Detail, es: seq<UseStep>, customer: nat, k: nat, i: nat)
    requires d.tierType == UsageStepped && TiersAllowed(d.tierType, d.valueType, d.tiers, Some(d.usageType))
    requires CountsInTime(d, NO_USES, es, customer)
    requires k < |Granted(d, NO_USES, es, customer)| && Granted(d, NO_USES, es, customer)[k].orderAmount >= 0.0
    requires i < |d.tiers| && d.tiers[i].usageIndex == Some(k + 1)
    ensures var g, rate := Granted(d, NO_USES, es, customer)[k], d.tiers[i].value;
            var worth := TakenOff(d.valueType, rate, g.orderAmount);
            g.amount == if g.inCents then InCents(worth) else worth
  {
    var g := Granted(d, NO_USES, es, customer)[k];
    UsesAreConsecutiveIff(d, NO_USES, es, customer);
    GrantsArePriced(d, NO_USES, es, customer);
    assert Priced(d, g) && g.use - 1 == k;
    UsageTierIsWorth(d, k, i, g.orderAmount);
  }

  /** Checkouts of a single-use code only got past their count when it was zero. */
  predicate CountedNone(s: UseLog) {
    forall c :: c in s.counted ==> c.uses == 0
  }

  predicate AllFirst(granted: seq<Grant>) {
    forall k :: 0 <= k < |granted| ==> granted[k].use == 1
  }

  lemma AllFirstConcat(first: seq<Grant>, rest: seq<Grant>)
    requires AllFirst(first) && AllFirst(rest)
    ensures AllFirst(first + rest)
  {
  }

  lemma SingleUseStep(d: Detail, s: UseLog, e: UseStep, customer: nat)
    requires d.usageType == SingleUse && CountedNone(s)
    ensures AllFirst(GrantedBy(d, s, e, customer)) && CountedNone(NextUse(d, s, e))
  {
  }

  lemma {:induction false} SingleUsesAreFirst(d: Detail, s: UseLog, es: seq<UseStep>, customer: nat)
    requires d.usageType == SingleUse && CountedNone(s)
    ensures AllFirst(Granted(d, s, es, customer))
    ensures PriorUses(RunUses(d, s, es).entries, customer) ==
            PriorUses(s.entries, customer) + |Granted(d, s, es, customer)|
    decreases |es|
  {
    if es != [] {
      var next := NextUse(d, s, es[0]);
      OneMoreUse(d, s, es[0], customer);
      SingleUseStep(d, s, es[0], customer);
      SingleUsesAreFirst(d, next, es[1..], customer);
      AllFirstConcat(GrantedBy(d, s, es[0], customer), Granted(d, next, es[1..], customer));
    }
  }

  /** A customer redeems a single-use code at most once, unless a checkout of theirs wrote on a count that had changed. */
  lemma SingleUseIsUsedOnce(d: Detail, es: seq<UseStep>, customer: nat)
    requires d.usageType == SingleUse && CountsInTime(d, NO_USES, es, customer)
    ensures PriorUses(RunUses(d, NO_USES, es).entries, customer) <= 1
  {
    SingleUsesAreFirst(d, NO_USES, es, customer);
    UsesAreConsecutiveIff(d, NO_USES, es, customer);
    var granted := Granted(d, NO_USES, es, customer);
    if granted != [] { assert granted[|granted| - 1].use == |granted|; }
  }

  /** A `redeem` between a checkout's count and its write: both get the same use, so the last use is had twice. */
  lemma RedeemDuringCheckout(d: Detail, s: UseLog, r: Request)
    requires Accepts(d, s.entries, r)
    ensures var n := PriorUses(s.entries, r.customer);
            var es := [CheckoutCounts(r)] + ([RedeemNow(r)] + [CheckoutWrites(Count(r.customer, n, r.orderAmount))]);
            |Granted(d, s, es, r.customer)| == 2 &&
            Granted(d, s, es, r.customer)[0].use == Granted(d, s, es, r.customer)[1].use == n + 1
  {
    var n := PriorUses(s.entries, r.customer);
    var count, redeem, write := CheckoutCounts(r), RedeemNow(r), CheckoutWrites(Count(r.customer, n, r.orderAmount));
    assert ([count] + ([redeem] + [write]))[1..] == [redeem] + [write] && ([redeem] + [write])[1..] == [write];
    var s1 := NextUse(d, s, count);
    var s2 := NextUse(d, s1, redeem);
    var s3 := NextUse(d, s2, write);
    assert Granted(d, s2, [write], r.customer) == GrantedBy(d, s2, write, r.customer) + Granted(d, s3, [write][1..], r.customer);
    assert Granted(d, s1, [redeem] + [write], r.customer) ==
           GrantedBy(d, s1, redeem, r.customer) + Granted(d, s2, [write], r.customer);
  }
}
