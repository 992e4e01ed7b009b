/** The smallest shops, reached from their opening, in which the code does what the laws of the other modules allow. */
module Witnesses {
  import opened Wrappers
  import opened ShopTables
  import opened OrderReservation
  import opened OrderMoney
  import opened Basket
  import opened SnappPay
  import opened SnappCallback
  import opened ShopRuns
  import opened PaymentLaw
  import opened SnappLaw
  import opened MoneyLaw
  import opened ShopLaw
  import opened CheckoutLaw
  import LoyaltyTiers

  const CUSTOMER: UserId := 7
  const CODE: Code := 5

  /** Two units of one product, and a code that may be used once. */
  function Opened(price: nat): World {
    Opening(map[0 := 2], Goods(price), map[CODE := CodeRow(0, Some(1))], 0, false)
  }

  function Goods(price: nat): map<VariantId, Product> { map[0 := Product(price, None, true)] }

  /** The customer opens a basket, the `b`-th, and puts one unit into it. */
  function FillBasket(b: BasketId): seq<Step> {
    [OnBasket(OpenBasket(CUSTOMER)), OnBasket(UpsertRow(b, 0, 1))]
  }

  function FilledTables(price: nat): Tables {
    Tables(map[0 := 1], Goods(price), [ShopTables.Basket.Basket(CUSTOMER, false)], map[(0, 0) := BasketRow(1, Some(600_000), false)],
           map[], map[], map[CODE := CodeRow(0, Some(1))], map[], map[])
  }

  lemma TwoSteps(w: World, a: Step, b: Step)
    ensures Run(w, [a, b]) == Next(Next(w, a), b)
  {
    assert [a, b][1..] == [b] && [b][1..] == [];
    assert Run(Next(w, a), [b]) == Run(Next(Next(w, a), b), []);
  }

  lemma BasketIsFilled(price: nat)
    ensures Run(Opened(price), FillBasket(0)) == Opened(price).(t := FilledTables(price))
  {
    var w, open, upsert := Opened(price), OnBasket(OpenBasket(CUSTOMER)), OnBasket(UpsertRow(0, 0, 1));
    TwoSteps(w, open, upsert);
    assert LatestBasket([], CUSTOMER, true, 0) == None;
    assert Next(w, open).t.baskets == [ShopTables.Basket.Basket(CUSTOMER, false)];
    assert Next(Next(w, open), upsert).t == FilledTables(price);
  }

  /** A checkout of that basket by Snapp Pay with the code, a part of it paid from the wallet. */
  function Asked(wallet: int): CheckoutRequest {
    CheckoutRequest(CUSTOMER, Provider.SnappPay, 1, TableCode(CODE), Quote(0, 0, 0, wallet))
  }

  function TheOrder(price: nat, wallet: int): Order {
    Order(CUSTOMER, Some(CODE), [OrderItem(0, 1, price, None, false)], price, 0, 0, 0, price - wallet,
          Pending, PendingPayment, 0, false)
  }

  function OrderedTables(price: nat, wallet: int): Tables {
    FilledTables(price).(
      baskets := [ShopTables.Basket.Basket(CUSTOMER, true)],
      rows := map[(0, 0) := BasketRow(1, Some(600_000), true)],
      orders := map[1 := TheOrder(price, wallet)],
      attempts := map[1 := Attempt(Provider.SnappPay, Initiated, price - wallet, false, NoReference, None, 0)],
      codes := map[CODE := CodeRow(1, Some(1))])
  }

  lemma OneItem(price: nat)
    ensures ItemsOf(FilledTables(price), 0, [0]) == [OrderItem(0, 1, price, None, false)]
    ensures Subtotal([OrderItem(0, 1, price, None, false)]) == price
  {
    assert [0][1..] == [];
    assert ItemsOf(FilledTables(price), 0, []) == [];
    assert [OrderItem(0, 1, price, None, false)][1..] == [];
  }

  lemma CheckoutGoesThrough(price: nat, wallet: nat)
    requires wallet <= price
    ensures var w := Opened(price).(t := FilledTables(price));
            CheckoutEnabled(w, Asked(wallet), [], [0]) &&
            CheckedOut(w.t, 0, Asked(wallet), [], [0]) == Returns(OrderedTables(price, wallet))
  {
    var w := Opened(price).(t := FilledTables(price));
    OneItem(price);
    assert LatestBasket(w.t.baskets, CUSTOMER, true, 1) == Some(0);
    assert StillHeld(w.t, 0, 0, 0);
    assert Ordered(w.t, 0, Asked(wallet), 0, ItemsOf(w.t, 0, [0])) == OrderedTables(price, wallet);
  }

  /** From the opening to the placed order. */
  function Placing(wallet: int): seq<Step> {
    FillBasket(0) + [OnCheckout(PlaceCheckout(Asked(wallet), [], [0]))]
  }

  lemma OrderIsPlaced(price: nat, wallet: nat)
    requires wallet <= price
    ensures Run(Opened(price), Placing(wallet)) == Opened(price).(t := OrderedTables(price, wallet))
  {
    var place := OnCheckout(PlaceCheckout(Asked(wallet), [], [0]));
    BasketIsFilled(price);
    CheckoutGoesThrough(price, wallet);
    RunConcat(Opened(price), FillBasket(0), [place]);
    assert [place] == [place] + [];
    RunFirst(Run(Opened(price), FillBasket(0)), place, []);
  }

  /**
   An order partly paid from the wallet is swept unpaid: it is released, no refund is reported for it, and the debit is
   still hidden in its amounts.
   */
  lemma SweptOrderKeepsTheDebit(price: nat, wallet: nat)
    requires 0 < wallet <= price
    ensures var w := Run(Opened(price), Placing(wallet));
            var sweep := OnCheckout(SweepOrder(1));
            var end := Next(w, sweep);
            1 in end.t.orders && end.t.orders[1] == ReleasedOrder(TheOrder(price, wallet)) &&
            FinancialsWallet(end.t.orders[1]) == wallet && RefundReported(w, sweep, 1) == 0
  {
    OrderIsPlaced(price, wallet);
  }

  lemma TokenIsStored(price: nat)
    ensures var n := Next(Opened(price).(t := OrderedTables(price, 0)), OnCheckout(StoreToken(1)));
            !n.mockMode && AwaitsCallback(n.t, 1) && n.t.attempts[1].hasToken && RemoteOf(n, 1) == RemotePending &&
            n.t.orders[1] == TheOrder(price, 0)
  {
  }

  function LostCallback(): seq<Step> {
    [OnPayment(SnappClaim(1, true))] + TalkSteps(1, CallbackStart(true), UnheardTalk()) +
    [OnPayment(SnappFail(1, RemoteOther))]
  }

  /** The attempt has its token and its callback is awaited; the callback then loses the charged order. */
  lemma ChargedOrderIsReleased(price: nat)
    ensures var end := Run(Opened(price), Placing(0) + [OnCheckout(StoreToken(1))] + LostCallback());
            RemoteOf(end, 1) == RemoteSettle && 1 in end.t.orders && end.t.orders[1] == ReleasedOrder(TheOrder(price, 0))
  {
    var token := OnCheckout(StoreToken(1));
    TheTokenIsStored(price);
    RunConcat(Opened(price), Placing(0) + [token], LostCallback());
    TokenIsStored(price);
    ChargedOrderCanBeReleased(Next(Opened(price).(t := OrderedTables(price, 0)), token), 1);
  }

  lemma TheTokenIsStored(price: nat)
    ensures Run(Opened(price), Placing(0) + [OnCheckout(StoreToken(1))]) ==
            Next(Opened(price).(t := OrderedTables(price, 0)), OnCheckout(StoreToken(1)))
  {
    OrderIsPlaced(price, 0);
    RunOneMore(Opened(price), Placing(0), OnCheckout(StoreToken(1)));
  }

  /**
   The callback finds the purchase verified and keeps the order for the admin; ten minutes after the checkout the sweep
   finds the order expired and releases it, and the money is still held.
   */
  lemma HeldOrderIsSwept(price: nat)
    ensures var held := Run(Opened(price), Placing(0) + [OnCheckout(StoreToken(1))] + KeepingCallback(1));
            IsSweptLater(TheOrder(price, 0), held, 1)
  {
    var token := OnCheckout(StoreToken(1));
    var w := Next(Opened(price).(t := OrderedTables(price, 0)), token);
    TheTokenIsStored(price);
    RunConcat(Opened(price), Placing(0) + [token], KeepingCallback(1));
    TokenIsStored(price);
    KeptThenSwept(w, 1);
  }

  // -------------------------------------------- the code of a stale order

  const LATER: Time := 700_000

  function LaterTables(price: nat): Tables {
    OrderedTables(price, 0).(
      stock := map[0 := 0],
      baskets := [ShopTables.Basket.Basket(CUSTOMER, true), ShopTables.Basket.Basket(CUSTOMER, false)],
      rows := map[(0, 0) := BasketRow(1, Some(600_000), true), (1, 0) := BasketRow(1, Some(LATER + 600_000), false)])
  }

  /** Long after the order was placed and never paid, the customer fills a second basket. */
  function ComingBack(): seq<Step> {
    Placing(0) + ([Tick(LATER)] + FillBasket(1))
  }

  /** The customer has a new basket with nothing in it yet. */
  function ReopenedTables(price: nat): Tables {
    OrderedTables(price, 0).(
      baskets := [ShopTables.Basket.Basket(CUSTOMER, true), ShopTables.Basket.Basket(CUSTOMER, false)])
  }

  lemma ANewBasket(price: nat)
    ensures WithActiveBasket(OrderedTables(price, 0), CUSTOMER).0 == ReopenedTables(price)
    ensures Next(Opened(price).(t := OrderedTables(price, 0), now := LATER), OnBasket(OpenBasket(CUSTOMER))).t ==
            ReopenedTables(price)
  {
    assert LatestBasket(OrderedTables(price, 0).baskets, CUSTOMER, true, 1) == None;
  }

  lemma ASecondRow(price: nat)
    ensures Upserted(ReopenedTables(price), LATER, 1, 0, 1) == Returns(LaterTables(price))
  {
    var r := Upserted(ReopenedTables(price), LATER, 1, 0, 1).value;
    assert r.stock == LaterTables(price).stock && r.rows == LaterTables(price).rows;
  }

  lemma SecondBasketIsFilled(price: nat)
    ensures var w := Opened(price).(t := OrderedTables(price, 0), now := LATER);
            Run(w, FillBasket(1)) == w.(t := LaterTables(price))
  {
    TwoSteps(Opened(price).(t := OrderedTables(price, 0), now := LATER),
             OnBasket(OpenBasket(CUSTOMER)), OnBasket(UpsertRow(1, 0, 1)));
    ANewBasket(price);
    ASecondRow(price);
  }

  lemma CustomerIsBack(price: nat)
    ensures Run(Opened(price), ComingBack()) == Opened(price).(t := LaterTables(price), now := LATER)
  {
    OrderIsPlaced(price, 0);
    RunConcat(Opened(price), Placing(0), [Tick(LATER)] + FillBasket(1));
    RunFirst(Run(Opened(price), Placing(0)), Tick(LATER), FillBasket(1));
    SecondBasketIsFilled(price);
  }

  /** A tenth off for everybody. */
  function TheRules(): Pricing.Rules {
    Pricing.Rules(
      map[CODE := Pricing.TableCode(false, true, 0, 1_000_000, Some(1), Pricing.Everyone, None, LoyaltyTiers.Percentage, 10.0)],
      map[], map[], None, 0, map[], 0, 0)
  }

  function TheAsk(): Ask { Ask(CUSTOMER, Provider.SnappPay, 2, None, Some(CODE), 0, 0) }

  lemma TheOrderIsStale(price: nat)
    ensures IsStaleAnswer(LaterTables(price), LATER, Unpriced(TheAsk()), [1])
    ensures StaleUses(LaterTables(price), LATER, TheAsk(), CODE) == {1}
    ensures IsRowsAnswer(LaterTables(price), 1, [0])
  {
    var t := LaterTables(price);
    assert IsStale(t, LATER, Unpriced(TheAsk()), 1);
  }

  lemma TheCartIsPriced(price: nat, h: Pricing.Holdings)
    ensures ActiveBasket(LaterTables(price), CUSTOMER) == Some(1)
    ensures AllHeld(LaterTables(price), LATER, CUSTOMER, [0])
    ensures Shown(TheRules(), h, ReleasedAll(LaterTables(price), [1]), LATER, TheAsk(), [0]).Returns?
  {
    TheOrderIsStale(price);
    var t, a := LaterTables(price), TheAsk();
    assert ActiveBasket(t, CUSTOMER) == Some(1);
    assert StillHeld(t, LATER, 1, 0);
    PricedAfterReleasesIff(TheRules(), h, t, LATER, a, [1], [0]);
  }

  lemma NothingFromTheWallet(price: nat, h: Pricing.Holdings)
    ensures var shown := Shown(TheRules(), h, ReleasedAll(LaterTables(price), [1]), LATER, TheAsk(), [0]);
            shown.Returns? ==> shown.value.wallet == 0
  {
  }

  /** The preview of the ask throws, and the checkout of it commits. */
  ghost predicate RefusedAndTaken(t: Tables, now: Time, h: Pricing.Holdings) {
    && IsStaleAnswer(t, now, Unpriced(TheAsk()), [1]) && IsRowsAnswer(t, 1, [0])
    && Shown(TheRules(), h, t, now, TheAsk(), [0]).Throws?
    && var charged := ChargedQuote(TheRules(), h, t, now, TheAsk(), [1], [0], h.wallet, true);
       charged.Returns? && CheckedOut(t, now, RequestOf(TheRules(), TheAsk(), charged.value), [1], [0]).Returns?
  }

  lemma TheCheckoutGoesThrough(price: nat, h: Pricing.Holdings)
    ensures Shown(TheRules(), h, LaterTables(price), LATER, TheAsk(), [0]).Throws?
    ensures ChargedQuote(TheRules(), h, LaterTables(price), LATER, TheAsk(), [1], [0], h.wallet, true).Returns?
  {
    TheCartIsPriced(price, h);
    NothingFromTheWallet(price, h);
    ReleasesLeaveBasket(TheRules(), h, LaterTables(price), LATER, TheAsk(), [1], [0]);
    CheckoutAgainstPreview(TheRules(), h, LaterTables(price), LATER, TheAsk(), [1], [0], h.wallet, true);
  }

  lemma LaterIsRefusedAndTaken(price: nat, h: Pricing.Holdings)
    ensures RefusedAndTaken(LaterTables(price), LATER, h)
  {
    TheOrderIsStale(price);
    TheCheckoutGoesThrough(price, h);
    ChargedIsCheckedOut(TheRules(), h, LaterTables(price), LATER, TheAsk(), [1], [0], h.wallet, true);
  }

  /**
   The code may be used once, and the customer's own stale order has that use: the preview refuses the code, checkout
   takes it.
   */
  lemma CheckoutTakesWhatThePreviewRefuses(price: nat, h: Pricing.Holdings)
    ensures var w := Run(Opened(price), ComingBack()); RefusedAndTaken(w.t, w.now, h)
  {
    CustomerIsBack(price);
    LaterIsRefusedAndTaken(price, h);
  }
}
