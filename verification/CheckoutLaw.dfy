/**
 Checkout as one transaction, tables and money together, against the preview that came before it
 (basket.controller.ts). Checkout releases the customer's stale orders before it looks at the code; the preview
 releases nothing.
 */
module CheckoutLaw {
  import opened Wrappers
  import opened ShopTables
  import opened OrderReservation
  import opened OrderMoney
  import opened Basket
  import Pricing

  /** What a customer asks checkout for; `welcomeLabel` is what an automatic discount is recorded under. */
  datatype Ask = Ask(
    user: UserId, provider: Provider, newId: OrderId, shippingMethod: Option<nat>, code: Option<Code>,
    walletRequested: int, welcomeLabel: Code)

  function TableCounts(codes: map<Code, CodeRow>): map<Code, int> {
    map c | c in codes :: codes[c].usedCount
  }

  /** The rules are about the codes of the table, with their caps. */
  ghost predicate SameCodes(rules: Pricing.Rules, codes: map<Code, CodeRow>) {
    && (forall c :: c in rules.codes <==> c in codes)
    && (forall c :: c in codes && c in rules.codes ==> rules.codes[c].maxTotalUses == codes[c].maxTotalUses)
  }

  function OnTables(h: Pricing.Holdings, codes: map<Code, CodeRow>): Pricing.Holdings {
    h.(counts := h.counts.(table := TableCounts(codes)))
  }

  function ActiveBasket(t: Tables, u: UserId): Option<BasketId> {
    LatestBasket(t.baskets, u, true, |t.baskets|)
  }

  function CartOf(t: Tables, b: BasketId, picked: seq<VariantId>, a: Ask): Pricing.Cart {
    Pricing.Cart(a.user, Subtotal(ItemsOf(t, b, picked)), a.shippingMethod, a.code, a.walletRequested)
  }

  /** `checkoutPreview` on the tables as they are. */
  function Shown(rules: Pricing.Rules, h: Pricing.Holdings, t: Tables, now: Time, a: Ask, picked: seq<VariantId>)
    : Result<Pricing.PriceQuote>
  {
    var basket := ActiveBasket(t, a.user);
    if basket.None? || picked == [] then Throws
    else Pricing.Preview(rules, OnTables(h, t.codes), CartOf(t, basket.value, picked, a), now)
  }

  predicate AllHeld(t: Tables, now: Time, u: UserId, picked: seq<VariantId>) {
    var basket := ActiveBasket(t, u);
    basket.Some? && forall i :: 0 <= i < |picked| ==> StillHeld(t, now, basket.value, picked[i])
  }

  /**
   What checkout charges on tables whose stale orders are released: the price for the balance `read` before, if the
   checks only checkout makes hold and the balance still covers the wallet's part.
   */
  function PriceCharged(
      rules: Pricing.Rules, h: Pricing.Holdings, t: Tables, now: Time, a: Ask, picked: seq<VariantId>, read: Option<int>,
      otherChecksHold: bool)
    : Result<Pricing.PriceQuote>
  {
    var price := Shown(rules, h.(wallet := read), t, now, a, picked);
    if price.Returns? && otherChecksHold && AllHeld(t, now, a.user, picked) && Pricing.DebitCovered(h.wallet, price.value.wallet)
    then price else Throws
  }

  /** What checkout charges: it releases the stale orders first. */
  function ChargedQuote(
      rules: Pricing.Rules, h: Pricing.Holdings, t: Tables, now: Time, a: Ask, stale: seq<OrderId>, picked: seq<VariantId>,
      read: Option<int>, otherChecksHold: bool)
    : Result<Pricing.PriceQuote>
  {
    PriceCharged(rules, h, ReleasedAll(t, stale), now, a, picked, read, otherChecksHold)
  }

  function ChoiceOf(rules: Pricing.Rules, a: Ask): CodeChoice {
    if a.code.None? then
      if rules.priorPaid < |Pricing.WELCOME_TIERS| then OtherCode(a.welcomeLabel) else NoCode
    else if a.code.value in rules.codes then TableCode(a.code.value)
    else OtherCode(a.code.value)
  }

  function RequestOf(rules: Pricing.Rules, a: Ask, q: Pricing.PriceQuote): CheckoutRequest {
    CheckoutRequest(a.user, a.provider, a.newId, ChoiceOf(rules, a), Quote(q.discount, q.shipping, q.packaging, q.wallet))
  }

  /** The request before anything is priced; the query for stale orders needs no more. */
  function Unpriced(a: Ask): CheckoutRequest {
    CheckoutRequest(a.user, a.provider, a.newId, NoCode, Quote(0, 0, 0, 0))
  }

  // ------------------------------------------------------ the transaction

  lemma UnpricedAsksTheSame(t: Tables, now: Time, a: Ask, req: CheckoutRequest, stale: seq<OrderId>)
    requires req.user == a.user && req.provider == a.provider && IsStaleAnswer(t, now, Unpriced(a), stale)
    ensures IsStaleAnswer(t, now, req, stale)
  {
    forall id ensures IsStale(t, now, req, id) == IsStale(t, now, Unpriced(a), id) {}
  }

  /** A code that was priced is one that may be ordered with. */
  lemma PricedIsAccepted(rules: Pricing.Rules, h: Pricing.Holdings, t: Tables, now: Time, a: Ask, picked: seq<VariantId>)
    requires SameCodes(rules, t.codes) && a.welcomeLabel !in t.codes && Shown(rules, h, t, now, a, picked).Returns?
    ensures CodeAccepted(t.codes, ChoiceOf(rules, a))
  {
  }

  /** The desk counts the code that the order counts. */
  lemma CountsStayTogether(rules: Pricing.Rules, h: Pricing.Holdings, t: Tables, a: Ask, b: Pricing.Cart, q: Pricing.PriceQuote, now: Time)
    requires SameCodes(rules, t.codes) && b.code == a.code && h.counts.table == TableCounts(t.codes)
    requires Pricing.DiscountOf(rules, h.counts, b, now).Returns?
    ensures var source := Pricing.DiscountOf(rules, h.counts, b, now).value.1;
            Pricing.Charged(rules, h, b, source, q).counts.table ==
            TableCounts(if ChoiceOf(rules, a).TableCode? then UseCode(t.codes, Some(ChoiceOf(rules, a).code)) else t.codes)
  {
  }

  /** The codes of the tables a release leaves are those it found, with their caps. */
  lemma {:induction false} ReleasesKeepCodes(rules: Pricing.Rules, t: Tables, ids: seq<OrderId>)
    requires SameCodes(rules, t.codes)
    ensures SameCodes(rules, ReleasedAll(t, ids).codes)
    decreases |ids|
  {
    if ids != [] { ReleasesKeepCodes(rules, Released(t, ids[0]), ids[1..]); }
  }

  /** What is charged is ordered: the transaction commits for the request made of the quote. */
  lemma ChargedIsCheckedOut(
      rules: Pricing.Rules, h: Pricing.Holdings, t: Tables, now: Time, a: Ask, stale: seq<OrderId>, picked: seq<VariantId>,
      read: Option<int>, otherChecksHold: bool)
    requires SameCodes(rules, t.codes) && a.welcomeLabel !in t.codes
    requires ChargedQuote(rules, h, t, now, a, stale, picked, read, otherChecksHold).Returns?
    ensures var q := ChargedQuote(rules, h, t, now, a, stale, picked, read, otherChecksHold).value;
            CheckedOut(t, now, RequestOf(rules, a, q), stale, picked).Returns?
  {
    var t1 := ReleasedAll(t, stale);
    ReleasesKeepCodes(rules, t, stale);
    assert a.welcomeLabel !in t1.codes;
    PricedIsAccepted(rules, h.(wallet := read), t1, now, a, picked);
  }

  /** What is charged for the rows of a basket is what the order made of them says and what its attempt asks for. */
  lemma ChargedIsAsked(rules: Pricing.Rules, h: Pricing.Holdings, t: Tables, now: Time, a: Ask, b: BasketId,
                       picked: seq<VariantId>, read: Option<int>, otherChecksHold: bool)
    requires ActiveBasket(t, a.user) == Some(b) && IsRowsAnswer(t, b, picked)
    requires PriceCharged(rules, h, t, now, a, picked, read, otherChecksHold).Returns?
    ensures var q := PriceCharged(rules, h, t, now, a, picked, read, otherChecksHold).value;
            var t' := Ordered(t, now, RequestOf(rules, a, q), b, ItemsOf(t, b, picked));
            q.subtotal == BasketValue(t, b) && AwaitsPayment(t', now, RequestOf(rules, a, q), q.subtotal) &&
            t'.orders[a.newId].payable == t'.attempts[a.newId].amount == q.payable
  {
    var q := PriceCharged(rules, h, t, now, a, picked, read, otherChecksHold).value;
    ItemsAreWorthTheBasket(t, b, picked);
    OrderedAwaitsPayment(t, now, RequestOf(rules, a, q), b, ItemsOf(t, b, picked));
  }

  /**
   The basket the customer saw has become an order over what its rows cost, with the amounts of the quote, and an attempt
   that asks for exactly what the quote leaves to pay.
   */
  ghost predicate OrderAsks(rules: Pricing.Rules, t: Tables, t': Tables, now: Time, a: Ask, q: Pricing.PriceQuote) {
    var basket := ActiveBasket(t, a.user);
    && basket.Some? && q.subtotal == BasketValue(t, basket.value) && IsOrdered(t, t', now, RequestOf(rules, a, q))
    && a.newId in t'.orders && a.newId in t'.attempts && t'.orders[a.newId].total == q.subtotal
    && t'.orders[a.newId].payable == t'.attempts[a.newId].amount == q.payable
  }

  lemma ChargedIsOrdered(
      rules: Pricing.Rules, h: Pricing.Holdings, t: Tables, now: Time, a: Ask, stale: seq<OrderId>, picked: seq<VariantId>,
      read: Option<int>, otherChecksHold: bool)
    requires a.newId !in t.orders && IsStaleAnswer(t, now, Unpriced(a), stale)
    requires ActiveBasket(t, a.user).Some? && IsRowsAnswer(t, ActiveBasket(t, a.user).value, picked)
    requires ChargedQuote(rules, h, t, now, a, stale, picked, read, otherChecksHold).Returns?
    requires var q := ChargedQuote(rules, h, t, now, a, stale, picked, read, otherChecksHold).value;
             CheckedOut(t, now, RequestOf(rules, a, q), stale, picked).Returns?
    ensures var q := ChargedQuote(rules, h, t, now, a, stale, picked, read, otherChecksHold).value;
            OrderAsks(rules, t, CheckedOut(t, now, RequestOf(rules, a, q), stale, picked).value, now, a, q)
  {
    var t1, b := ReleasedAll(t, stale), ActiveBasket(t, a.user).value;
    var q := ChargedQuote(rules, h, t, now, a, stale, picked, read, otherChecksHold).value;
    assert IsRowsAnswer(t1, b, picked) && RowValues(t1, b) == RowValues(t, b);
    ChargedIsAsked(rules, h, t1, now, a, b, picked, read, otherChecksHold);
    UnpricedAsksTheSame(t, now, a, RequestOf(rules, a, q), stale);
    CheckoutCommits(t, now, RequestOf(rules, a, q), stale, picked);
  }

  /** The second half of the transaction, once the stale orders are released and the rows are read. */
  method ChargeAndPlace(db: Database, desk: Pricing.CheckoutDesk, rules: Pricing.Rules, now: Time, a: Ask, b: BasketId,
                        picked: seq<VariantId>, read: Option<int>, otherChecksHold: bool)
    returns (r: Result<Pricing.PriceQuote>)
    requires a.welcomeLabel !in db.codes && SameCodes(rules, db.codes)
    requires ActiveBasket(db.Snapshot(), a.user) == Some(b) && picked != []
    modifies db, desk
    ensures r == PriceCharged(rules, old(desk.State()), old(db.Snapshot()), now, a, picked, read, otherChecksHold)
    ensures r.Throws? ==> db.Snapshot() == old(db.Snapshot()) && desk.State() == old(desk.State())
    ensures r.Returns? ==>
              var t, req := old(db.Snapshot()), RequestOf(rules, a, r.value);
              CodeAccepted(t.codes, req.choice) && db.Snapshot() == Ordered(t, now, req, b, ItemsOf(t, b, picked)) &&
              desk.counts.table == TableCounts(db.codes)
    ensures r.Returns? && r.value.wallet > 0 ==> desk.wallet == Some(old(desk.wallet).GetOr(0) - r.value.wallet)
  {
    var held := AllStillHeld(db, now, b, picked);
    var cart, saved := CartOf(db.Snapshot(), b, picked, a), desk.State();
    desk.counts := desk.counts.(table := TableCounts(db.codes));
    ghost var t, h := db.Snapshot(), desk.State();
    r := desk.Checkout(rules, cart, now, read, otherChecksHold && held);
    if r.Throws? {
      desk.RollBack(saved);
      return;
    }
    PricedIsAccepted(rules, saved.(wallet := read), t, now, a, picked);
    CountsStayTogether(rules, h, t, a, cart, r.value, now);
    PlaceOrder(db, now, RequestOf(rules, a, r.value), b, picked);
  }

  /**
   `checkout` up to the commit of its transaction. It charges exactly `ChargedQuote` and leaves the order with that
   quote's amounts and an attempt over its payable amount, the desk charged with it, and the use counts of desk and
   tables together; or it throws and leaves everything as it was. The subtotal is what the live rows of the basket cost.
   */
  method Checkout(db: Database, desk: Pricing.CheckoutDesk, rules: Pricing.Rules, now: Time, a: Ask, read: Option<int>,
                  otherChecksHold: bool)
    returns (r: Result<Pricing.PriceQuote>, stale: seq<OrderId>, picked: seq<VariantId>)
    requires a.newId !in db.orders && a.newId !in db.attempts && a.welcomeLabel !in db.codes
    requires SameCodes(rules, db.codes) && desk.counts.table == TableCounts(db.codes)
    modifies db, desk
    ensures IsStaleAnswer(old(db.Snapshot()), now, Unpriced(a), stale)
    ensures var basket := ActiveBasket(old(db.Snapshot()), a.user);
            basket.Some? ==> IsRowsAnswer(old(db.Snapshot()), basket.value, picked)
    ensures r == ChargedQuote(rules, old(desk.State()), old(db.Snapshot()), now, a, stale, picked, read, otherChecksHold)
    ensures r.Throws? ==> db.Snapshot() == old(db.Snapshot()) && desk.State() == old(desk.State())
    ensures r.Returns? ==>
              CheckedOut(old(db.Snapshot()), now, RequestOf(rules, a, r.value), stale, picked) == Returns(db.Snapshot())
    ensures r.Returns? && r.value.wallet > 0 ==> desk.wallet == Some(old(desk.wallet).GetOr(0) - r.value.wallet)
    ensures desk.counts.table == TableCounts(db.codes)
    ensures r.Returns? ==> OrderAsks(rules, old(db.Snapshot()), db.Snapshot(), now, a, r.value)
  {
    var saved := db.Snapshot();
    picked := [];
    stale := FindStale(db, now, Unpriced(a));
    ReleaseOrders(db, stale);
    ReleasesKeepCodes(rules, saved, stale);
    var basket := LatestBasket(db.baskets, a.user, true, |db.baskets|);
    if basket.None? {
      db.RollBack(saved);
      return Throws, stale, picked;
    }
    picked := FindRows(db, basket.value);
    forall v ensures LiveRow(saved, basket.value, v) == LiveRow(db.Snapshot(), basket.value, v) {}
    if picked == [] {
      db.RollBack(saved);
      return Throws, stale, picked;
    }
    r := ChargeAndPlace(db, desk, rules, now, a, basket.value, picked, read, otherChecksHold);
    if r.Throws? {
      db.RollBack(saved);
    } else {
      assert CheckedOut(saved, now, RequestOf(rules, a, r.value), stale, picked) == Returns(db.Snapshot());
      assert r == ChargedQuote(rules, old(desk.State()), saved, now, a, stale, picked, read, otherChecksHold);
      ChargedIsOrdered(rules, old(desk.State()), saved, now, a, stale, picked, read, otherChecksHold);
    }
  }

  // ------------------------------------------------------- code counts

  /** The listed orders whose release gives back a use of the code. */
  function CarryingStale(t: Tables, ids: seq<OrderId>, c: Code): set<OrderId> {
    set id | id in t.orders && id in ids && Releasable(t, id) && t.orders[id].code == Some(c)
  }

  /** A count after `k` uses were given back: never below zero, and one that is not positive gives nothing back. */
  function GivenBack(used: int, k: nat): int {
    if used <= 0 then used else Max(0, used - k)
  }

  /** A release takes its own order out of those that still carry a use, and no other. */
  lemma ReleaseCarries(t: Tables, ids: seq<OrderId>, c: Code, id: OrderId)
    requires ids != []
    ensures id in CarryingStale(Released(t, ids[0]), ids[1..], c) <==> id in CarryingStale(t, ids, c) && id != ids[0]
  {
    assert id in ids <==> id == ids[0] || id in ids[1..];
  }

  lemma CarryingStep(t: Tables, ids: seq<OrderId>, c: Code)
    requires ids != []
    ensures var all, rest := CarryingStale(t, ids, c), CarryingStale(Released(t, ids[0]), ids[1..], c);
            |all| == |rest| + if ids[0] in all then 1 else 0
  {
    var all, rest := CarryingStale(t, ids, c), CarryingStale(Released(t, ids[0]), ids[1..], c);
    forall id ensures id in rest <==> id in all && id != ids[0] {
      ReleaseCarries(t, ids, c, id);
    }
    assert rest == all - {ids[0]};
  }

  lemma ReleaseGivesBack(t: Tables, id: OrderId, c: Code)
    requires c in t.codes
    ensures var codes, k := Released(t, id).codes, if Releasable(t, id) && t.orders[id].code == Some(c) then 1 else 0;
            c in codes && codes[c] == t.codes[c].(usedCount := GivenBack(t.codes[c].usedCount, k))
  {
  }

  lemma GivenBackTwice(used: int, k: nat, m: nat)
    ensures GivenBack(GivenBack(used, k), m) == GivenBack(used, k + m)
  {
  }

  /** Releasing a list of orders takes exactly the uses off a code's count that the pending ones among them carry. */
  lemma {:induction false} ReleasesGiveBack(t: Tables, ids: seq<OrderId>, c: Code)
    requires c in t.codes
    ensures var codes := ReleasedAll(t, ids).codes;
            c in codes && codes[c] == t.codes[c].(usedCount := GivenBack(t.codes[c].usedCount, |CarryingStale(t, ids, c)|))
    decreases |ids|
  {
    if ids == [] {
      assert CarryingStale(t, ids, c) == {};
    } else {
      var k := if ids[0] in CarryingStale(t, ids, c) then 1 else 0;
      CarryingStep(t, ids, c);
      ReleaseGivesBack(t, ids[0], c);
      ReleasesGiveBack(Released(t, ids[0]), ids[1..], c);
      GivenBackTwice(t.codes[c].usedCount, k, |CarryingStale(Released(t, ids[0]), ids[1..], c)|);
    }
  }

  /** The stale orders of the customer, as checkout's query finds them, that carry the code. */
  function StaleUses(t: Tables, now: Time, a: Ask, c: Code): set<OrderId> {
    set id | id in t.orders && IsStale(t, now, Unpriced(a), id) && t.orders[id].code == Some(c)
  }

  lemma AnswerCarriesStaleUses(t: Tables, now: Time, a: Ask, stale: seq<OrderId>, c: Code)
    requires IsStaleAnswer(t, now, Unpriced(a), stale)
    ensures CarryingStale(t, stale, c) == StaleUses(t, now, a, c)
  {
  }

  // ------------------------------------------------ preview and checkout

  /** Everything a table code asks for but its cap. */
  predicate OpenTo(row: Pricing.TableCode, user: UserId, subtotal: int, now: Time) {
    Pricing.TableCodeValid(row.(maxTotalUses := None), 0, user, subtotal, now)
  }

  /**
   The code, if there is one, is taken when `k` of its uses have been given back: a table code when that leaves its count
   below its cap. (No count is ever negative; one that is would be below a cap of zero.)
   */
  predicate CodeTaken(rules: Pricing.Rules, h: Pricing.Holdings, codes: map<Code, CodeRow>, b: Pricing.Cart, now: Time, k: nat) {
    b.code.Some? ==>
      var c := b.code.value;
      if c in rules.codes then
        OpenTo(rules.codes[c], b.user, b.subtotal, now) && c in codes &&
        (rules.codes[c].maxTotalUses.Some? ==>
           (0 < rules.codes[c].maxTotalUses.value || codes[c].usedCount < 0) &&
           codes[c].usedCount - k < rules.codes[c].maxTotalUses.value)
      else Pricing.DiscountOf(rules, h.counts, b, now).Returns?
  }

  /** The rows of the cart's code before and after `k` uses of it were given back. */
  predicate UsesGivenBack(codes: map<Code, CodeRow>, codes': map<Code, CodeRow>, code: Option<Code>, k: nat) {
    code.Some? && code.value in codes ==>
      code.value in codes' && codes'[code.value] == codes[code.value].(usedCount := GivenBack(codes[code.value].usedCount, k))
  }

  lemma CodeTakenIff(rules: Pricing.Rules, h: Pricing.Holdings, codes: map<Code, CodeRow>, codes': map<Code, CodeRow>,
                     b: Pricing.Cart, now: Time, k: nat)
    requires SameCodes(rules, codes) && UsesGivenBack(codes, codes', b.code, k)
    ensures Pricing.DiscountOf(rules, OnTables(h, codes').counts, b, now).Returns? <==> CodeTaken(rules, h, codes, b, now, k)
  {
  }

  /** The cap of the cart's code is reached. */
  predicate CapReached(codes: map<Code, CodeRow>, code: Option<Code>) {
    && code.Some? && code.value in codes && codes[code.value].maxTotalUses.Some?
    && codes[code.value].usedCount >= codes[code.value].maxTotalUses.value
  }

  lemma DiscountAfterGivingBack(
      rules: Pricing.Rules, h: Pricing.Holdings, codes: map<Code, CodeRow>, codes': map<Code, CodeRow>, b: Pricing.Cart,
      now: Time, k: nat)
    requires SameCodes(rules, codes) && UsesGivenBack(codes, codes', b.code, k)
    ensures var before := Pricing.DiscountOf(rules, OnTables(h, codes).counts, b, now);
            var after := Pricing.DiscountOf(rules, OnTables(h, codes').counts, b, now);
            (before.Returns? ==> after == before) &&
            (after.Returns? ==> (before.Throws? <==> CapReached(codes, b.code)))
  {
  }

  /**
   The price of one cart before and after uses were given back is the same where there are both; what was priced before
   is priced after; and what is priced after was refused before exactly because of the cap.
   */
  lemma GivingBackOnlyOpens(rules: Pricing.Rules, h: Pricing.Holdings, codes: map<Code, CodeRow>, codes': map<Code, CodeRow>,
                            b: Pricing.Cart, now: Time, k: nat)
    requires SameCodes(rules, codes) && UsesGivenBack(codes, codes', b.code, k)
    ensures var before, after := Pricing.Preview(rules, OnTables(h, codes), b, now), Pricing.Preview(rules, OnTables(h, codes'), b, now);
            (before.Returns? ==> after == before) &&
            (after.Returns? ==> (before.Throws? <==> CapReached(codes, b.code)))
  {
    DiscountAfterGivingBack(rules, h, codes, codes', b, now, k);
    Pricing.PreviewFollowsDiscount(rules, OnTables(h, codes), OnTables(h, codes').counts, b, now);
    Pricing.PreviewFollowsDiscount(rules, OnTables(h, codes'), OnTables(h, codes').counts, b, now);
  }

  lemma SameRowsSameItems(t: Tables, t1: Tables, b: BasketId, picked: seq<VariantId>)
    requires SameBaskets(t, t1)
    ensures ItemsOf(t1, b, picked) == ItemsOf(t, b, picked)
  {
    if picked != [] { SameRowsSameItems(t, t1, b, picked[1..]); }
  }

  /** The releases of a checkout leave the basket, its rows and its holds; only use counts differ. */
  lemma ReleasesLeaveBasket(
      rules: Pricing.Rules, h: Pricing.Holdings, t: Tables, now: Time, a: Ask, stale: seq<OrderId>, picked: seq<VariantId>)
    ensures var t1, basket := ReleasedAll(t, stale), ActiveBasket(t, a.user);
            AllHeld(t1, now, a.user, picked) == AllHeld(t, now, a.user, picked) &&
            Shown(rules, h, t1, now, a, picked) ==
            if basket.None? || picked == [] then Throws
            else Pricing.Preview(rules, OnTables(h, t1.codes), CartOf(t, basket.value, picked, a), now)
  {
    var basket := ActiveBasket(t, a.user);
    if basket.Some? { SameRowsSameItems(t, ReleasedAll(t, stale), basket.value, picked); }
  }

  /** The uses of the asked code that the listed orders give back. */
  function Carried(t: Tables, stale: seq<OrderId>, a: Ask): nat {
    if a.code.Some? then |CarryingStale(t, stale, a.code.value)| else 0
  }

  lemma ReleasesGiveBackCarried(t: Tables, stale: seq<OrderId>, a: Ask)
    ensures UsesGivenBack(t.codes, ReleasedAll(t, stale).codes, a.code, Carried(t, stale, a))
  {
    if a.code.Some? && a.code.value in t.codes { ReleasesGiveBack(t, stale, a.code.value); }
  }

  /**
   Checkout prices a basket exactly when the preview would on the tables its releases leave: when there is a basket and
   a shipping price, and the code's count, less the customer's own stale orders that carry it, is below its cap.
   */
  lemma PricedAfterReleasesIff(
      rules: Pricing.Rules, h: Pricing.Holdings, t: Tables, now: Time, a: Ask, stale: seq<OrderId>, picked: seq<VariantId>)
    requires SameCodes(rules, t.codes) && IsStaleAnswer(t, now, Unpriced(a), stale)
    ensures var basket := ActiveBasket(t, a.user);
            Shown(rules, h, ReleasedAll(t, stale), now, a, picked).Returns? <==>
            basket.Some? && picked != [] &&
            var cart := CartOf(t, basket.value, picked, a);
            Pricing.ShippingPrice(rules, cart).Returns? &&
            CodeTaken(rules, h, t.codes, cart, now, if a.code.Some? then |StaleUses(t, now, a, a.code.value)| else 0)
  {
    var basket, codes' := ActiveBasket(t, a.user), ReleasedAll(t, stale).codes;
    ReleasesLeaveBasket(rules, h, t, now, a, stale, picked);
    ReleasesGiveBackCarried(t, stale, a);
    if a.code.Some? { AnswerCarriesStaleUses(t, now, a, stale, a.code.value); }
    if basket.Some? {
      CodeTakenIff(rules, h, t.codes, codes', CartOf(t, basket.value, picked, a), now, Carried(t, stale, a));
    }
  }

  /**
   When preview and checkout both go through, they name the same price. What the preview takes, checkout takes, if its
   own checks hold. Where checkout goes through, the preview refused exactly when the code's count had reached its cap,
   so that only the release of the customer's own stale orders made room.
   */
  lemma CheckoutAgainstPreview(
      rules: Pricing.Rules, h: Pricing.Holdings, t: Tables, now: Time, a: Ask, stale: seq<OrderId>, picked: seq<VariantId>,
      read: Option<int>, otherChecksHold: bool)
    requires SameCodes(rules, t.codes)
    ensures var shown := Shown(rules, h.(wallet := read), t, now, a, picked);
            var charged := ChargedQuote(rules, h, t, now, a, stale, picked, read, otherChecksHold);
            (shown.Returns? && charged.Returns? ==> charged == shown) &&
            (shown.Returns? ==>
               (charged.Returns? <==> otherChecksHold && AllHeld(t, now, a.user, picked) &&
                                      Pricing.DebitCovered(h.wallet, shown.value.wallet))) &&
            (charged.Returns? ==> (shown.Throws? <==> CapReached(t.codes, a.code)))
  {
    var basket, seen := ActiveBasket(t, a.user), h.(wallet := read);
    ReleasesLeaveBasket(rules, seen, t, now, a, stale, picked);
    ReleasesGiveBackCarried(t, stale, a);
    if basket.Some? && picked != [] {
      GivingBackOnlyOpens(rules, seen, t.codes, ReleasedAll(t, stale).codes, CartOf(t, basket.value, picked, a), now,
                          Carried(t, stale, a));
    }
  }
}
