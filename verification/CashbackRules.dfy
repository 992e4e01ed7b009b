/** How much cashback a customer may still spend (cashback-rules.ts). */
module CashbackRules {
  import opened Wrappers
  import opened Sums
  import opened ShopTables
  import opened OrderMoney
  import opened Wallet

  /** The part of one ledger row that can still be spent as cashback. */
  function GrantLeft(e: Entry, u: UserId, now: Time): int {
    if e.user == u && e.reason == Cashback && (e.expiresAt.None? || e.expiresAt.value > now) then e.amount else 0
  }

  function UsedAmount(e: Entry, u: UserId): int { if e.user == u && e.reason == Used then e.amount else 0 }

  function ValidGrants(ledger: seq<Entry>, u: UserId, now: Time): int {
    if ledger == [] then 0 else ValidGrants(ledger[..|ledger| - 1], u, now) + GrantLeft(ledger[|ledger| - 1], u, now)
  }

  function UsedTotal(ledger: seq<Entry>, u: UserId): int {
    if ledger == [] then 0 else UsedTotal(ledger[..|ledger| - 1], u) + UsedAmount(ledger[|ledger| - 1], u)
  }

  /** `computeAvailableCashback`. */
  function Available(ledger: seq<Entry>, u: UserId, now: Time): (r: int)
    ensures r >= 0
  {
    Max(0, ValidGrants(ledger, u, now) + UsedTotal(ledger, u))
  }

  /** `resolveCashbackApplyAmount`. */
  function ApplyAmount(available: int, orderAmount: int, requested: Option<int>): int {
    var ceiling := Min(available, orderAmount);
    Max(0, if requested.None? then ceiling else Min(requested.value, ceiling))
  }

  /** The write of cashback `apply`: a ledger row and an unguarded decrement. */
  function Applied(b: Books, u: UserId, amount: int): Books {
    Posted(b, Plain(u, 0 - amount, Used))
  }

  lemma AppendedEntry(ledger: seq<Entry>, e: Entry, u: UserId, now: Time)
    ensures ValidGrants(ledger + [e], u, now) == ValidGrants(ledger, u, now) + GrantLeft(e, u, now)
    ensures UsedTotal(ledger + [e], u) == UsedTotal(ledger, u) + UsedAmount(e, u)
  {
  }

  // ------------------------------------------------------- what is left

  /** A cashback row that has run out. */
  predicate RunOut(e: Entry, now: Time) {
    e.reason == Cashback && e.expiresAt.Some? && e.expiresAt.value <= now
  }

  /** The customer's rows that bear on their cashback: what was granted and has not run out, and what was used. */
  function Bearing(ledger: seq<Entry>, u: UserId, now: Time): map<nat, int> {
    map i: nat | i < |ledger| && ledger[i].user == u &&
                 (ledger[i].reason == Used || (ledger[i].reason == Cashback && !RunOut(ledger[i], now))) :: ledger[i].amount
  }

  /** What these rows come to, in whatever order they are added up. */
  ghost function LeftOver(ledger: seq<Entry>, u: UserId, now: Time): int {
    Sum(Bearing(ledger, u, now))
  }

  lemma BearingOfMore(ledger: seq<Entry>, e: Entry, u: UserId, now: Time)
    ensures LeftOver(ledger + [e], u, now) ==
            LeftOver(ledger, u, now) +
            if e.user == u && (e.reason == Used || (e.reason == Cashback && !RunOut(e, now))) then e.amount else 0
  {
    var one, all := Bearing(ledger, u, now), Bearing(ledger + [e], u, now);
    if e.user == u && (e.reason == Used || (e.reason == Cashback && !RunOut(e, now))) {
      var next: nat := |ledger|;
      assert all == one[next := e.amount];
      SumUpdate(one, next, e.amount);
    } else {
      assert all == one;
    }
  }

  lemma {:induction false} GrantsAndUsesAreLeftOver(ledger: seq<Entry>, u: UserId, now: Time)
    ensures ValidGrants(ledger, u, now) + UsedTotal(ledger, u) == LeftOver(ledger, u, now)
  {
    if ledger == [] {
      assert Bearing(ledger, u, now) == map[];
    } else {
      var before := ledger[..|ledger| - 1];
      GrantsAndUsesAreLeftOver(before, u, now);
      BearingOfMore(before, ledger[|ledger| - 1], u, now);
      assert ledger == before + [ledger[|ledger| - 1]];
    }
  }

  /** Available is what has been granted, has not run out and has not been used; never less than nothing. */
  lemma AvailableIsWhatIsLeft(ledger: seq<Entry>, u: UserId, now: Time)
    ensures Available(ledger, u, now) == if LeftOver(ledger, u, now) > 0 then LeftOver(ledger, u, now) else 0
  {
    GrantsAndUsesAreLeftOver(ledger, u, now);
  }

  /** Cashback that has not run out adds its amount to what is available, if no more was used than granted. */
  lemma UnexpiredAddsItsAmount(ledger: seq<Entry>, e: Entry, u: UserId, now: Time)
    requires e.user == u && e.reason == Cashback && e.amount >= 0 && (e.expiresAt.None? || now < e.expiresAt.value)
    requires LeftOver(ledger, u, now) >= 0
    ensures Available(ledger + [e], u, now) == Available(ledger, u, now) + e.amount
  {
    AvailableIsWhatIsLeft(ledger, u, now);
    AvailableIsWhatIsLeft(ledger + [e], u, now);
    BearingOfMore(ledger, e, u, now);
  }

  /** A row that has run out can be put in or taken out anywhere: nothing becomes available or unavailable by it. */
  lemma {:induction false} RunOutIsNothing(before: seq<Entry>, e: Entry, later: seq<Entry>, u: UserId, now: Time)
    requires e.reason == Cashback && e.expiresAt.Some? && e.expiresAt.value <= now
    ensures LeftOver(before + [e] + later, u, now) == LeftOver(before + later, u, now)
    ensures Available(before + [e] + later, u, now) == Available(before + later, u, now)
    decreases |later|
  {
    if later == [] {
      assert before + [e] + later == before + [e] && before + later == before;
      BearingOfMore(before, e, u, now);
    } else {
      var rest, last := later[..|later| - 1], later[|later| - 1];
      RunOutIsNothing(before, e, rest, u, now);
      assert before + [e] + later == before + [e] + rest + [last] && before + later == before + rest + [last];
      BearingOfMore(before + [e] + rest, last, u, now);
      BearingOfMore(before + rest, last, u, now);
    }
    AvailableIsWhatIsLeft(before + [e] + later, u, now);
    AvailableIsWhatIsLeft(before + later, u, now);
  }

  /** Every grant of the customer has run out, and uses only took away. */
  predicate EverythingRanOut(ledger: seq<Entry>, u: UserId, now: Time) {
    forall i :: 0 <= i < |ledger| && ledger[i].user == u ==>
                  (ledger[i].reason == Cashback ==> RunOut(ledger[i], now)) &&
                  (ledger[i].reason == Used ==> ledger[i].amount <= 0)
  }

  lemma {:induction false} NothingIsLeft(ledger: seq<Entry>, u: UserId, now: Time)
    requires EverythingRanOut(ledger, u, now)
    ensures LeftOver(ledger, u, now) <= 0 && Available(ledger, u, now) == 0
  {
    if ledger == [] {
      assert Bearing(ledger, u, now) == map[];
    } else {
      var before := ledger[..|ledger| - 1];
      NothingIsLeft(before, u, now);
      BearingOfMore(before, ledger[|ledger| - 1], u, now);
      assert ledger == before + [ledger[|ledger| - 1]];
    }
    AvailableIsWhatIsLeft(ledger, u, now);
  }

  predicate GrantsPositive(ledger: seq<Entry>) {
    forall i :: 0 <= i < |ledger| && ledger[i].reason == Cashback ==> ledger[i].amount >= 0
  }

  lemma {:induction false} GrantsOnlyExpire(ledger: seq<Entry>, u: UserId, now: Time, later: Time)
    requires GrantsPositive(ledger) && now <= later
    ensures ValidGrants(ledger, u, later) <= ValidGrants(ledger, u, now)
  {
    if ledger != [] { GrantsOnlyExpire(ledger[..|ledger| - 1], u, now, later); }
  }

  /** Rows that are neither new cashback for the customer nor refunds of used credit. */
  predicate NoNewGrants(more: seq<Entry>, u: UserId) {
    forall i :: 0 <= i < |more| && more[i].user == u ==>
                  more[i].reason != Cashback && (more[i].reason == Used ==> more[i].amount <= 0)
  }

  /** Without new grants, whatever else is posted, available cashback never rises as time passes. */
  lemma {:induction false} AvailableNeverRises(ledger: seq<Entry>, more: seq<Entry>, u: UserId, now: Time, later: Time)
    requires GrantsPositive(ledger) && NoNewGrants(more, u) && now <= later
    ensures Available(ledger + more, u, later) <= Available(ledger, u, now)
    decreases |more|
  {
    if more == [] {
      assert ledger + more == ledger;
      GrantsOnlyExpire(ledger, u, now, later);
    } else {
      var rest := more[..|more| - 1];
      AvailableNeverRises(ledger, rest, u, now, later);
      assert ledger + more == (ledger + rest) + [more[|more| - 1]];
      AppendedEntry(ledger + rest, more[|more| - 1], u, later);
    }
  }

  /**
   An application takes exactly its amount from what is available if and only if that much is available when it is
   written, whatever was available when it was read. What it takes beyond that is taken from nothing.
   */
  lemma LateApplyTakesFromAvailableIff(b: Books, u: UserId, amount: nat, now: Time)
    ensures Available(Applied(b, u, amount).ledger, u, now) == Available(b.ledger, u, now) - amount <==>
            amount <= Available(b.ledger, u, now)
    ensures amount + Available(Applied(b, u, amount).ledger, u, now) ==
            Available(b.ledger, u, now) + Max(0, amount - Available(b.ledger, u, now))
  {
  }
}
