# Verification of the shop's stock, order, payment and money logic

This project models, in Dafny, how the shop's backend moves units between shelf, baskets, orders and sales, how
orders are paid for, released and brought back, and how money moves through orders, wallets and incentive rules,
and proves what those movements keep. `dafny verify dfyconfig.toml` checks everything.

## How it is built

* **Tables and services.** `ShopTables` holds the rows (variants' stock, baskets, basket rows, orders with items,
  payment attempts, codes, offline sales, event payments) and a class `Database` with the same tables as fields.
  Every service method that changes rows (`OrderReservation`, `Basket`, `Sweeper`, `Payment`, `OrderAdmin`,
  `SnappPay`, `SnappCallback`, `Sales`) is a method on that class with the loops and guarded writes of the original,
  proved equal to a function of the tables before. The laws are then proved about those functions. Wallets (`Wallet`),
  loyalty redemptions (`LoyaltyTiers`), the money part of checkout (`Pricing`, joined with its tables in `CheckoutLaw`),
  rewards (`Incentives`, with `CashbackRules`) and the content calendar (`ContentCalendar`) follow the same pattern with
  classes of their own.
* **Runs.** `ShopRuns` is the shop as a state machine. A transaction is one step. Where the code reads outside a
  transaction or waits for a gateway, the read, each call and the write are steps of their own, what was learnt is
  remembered in the world, and anything may run in between: sweeps, callbacks, every call of a Snapp Pay talk, status
  changes, cancellations and reductions. The answer of a gateway, the clock, what the customer asks for and which rows a
  query returns first are free choices of the run. `WalletRuns` does the same for wallets, rewards and cashback,
  `LoyaltyTiers` for the uses of a loyalty code and `ContentCalendar` for schedulings. What was read stays in the world,
  so one read may be written any number of times, and two checkouts of one customer may overlap although a lock keeps
  them apart: the runs are a superset of those of the code, and what holds of all of them holds of the code. The inputs
  that show a law fail use each read once for each request.
* **Snapp Pay.** `SnappPay` has the remote side, whose calls may take effect and still error, the retry loops against
  it, and the state machine of a talk that those loops follow. `SnappCallback` is the return URL and the admin's
  reconcile; `SnappLaw` shows that the callback is a run of the shop.
* **Laws.** `StockLaw`, `SweepLaw`, `StatusLaw`, `PaymentLaw`, `SnappLaw`, `CodeLaw`, `MoneyLaw`, `BasketLaw` and `WalletLaw` are
  theorems over every run; `ShopLaw` restates the main ones for every state reachable from a shop that has sold nothing;
  `Witnesses` has the smallest shops in which what the laws allow happens.

Amounts of money are whole cents (hundredths of a toman), percentages are reals, and `Math.round` is the integer
within half, halves up. A `Throws` result is a transaction that threw and was rolled back.

## What was found

The shop's own promises hold in the following exact sense; each statement names the lemma that proves it.

* **Units are not simply conserved.** The sum over shelf, baskets, orders and sales moves at exactly these steps: an
  added row that revives a deleted one (by the stale quantity still in it), a basket restore (by the restored
  quantity minus the live quantity it overwrites), a resurrection that is short (by the short variants' units), and
  edits, deletions and Snapp Pay reductions that leave the shelf alone (by the signed units). All other runs conserve
  (`StockLaw.ExactStockLaw`, `StockLaw.ConservingRunsConserve`).
* **The comment beside the checkout guard speaks of a five-minute hold; the constant is ten minutes.** The model
  follows the constant.
* **A withdrawal's status is read outside the transaction that resolves it.** Two administrators who both read
  PENDING can both reject; the amount is then returned twice (`WalletLaw.TwoRejectionsReturnTwice`). The account of a
  withdrawal survives a late resolution exactly when the request is not rejected already
  (`WalletLaw.RejectKeepsAccountIff`, `WalletLaw.PayOutKeepsAccountIff`); over a run it drifts by exactly what was given
  twice (`WalletLaw.AccountLaw`, `WalletLaw.PayOutAfterRejection`). The referral credit is split the same way
  (`WalletLaw.TwoGrantsCreditTwice`).
* **Cashback is read outside the transaction that applies it, and rewards are checked for outside the transaction that
  issues them.** Two applications on one read spend the same cashback twice (`WalletLaw.TwoAppliesOnOneRead`), exactly
  because more is taken than is left at the write (`CashbackRules.LateApplyTakesFromAvailableIff`,
  `WalletLaw.CashbackIsSpentOnce`). Two passes over one order can issue the same reward twice, exactly when the second
  writes after the first (`WalletLaw.OncePerOrderIff`). A confirmed referral that names no order is not checked at all
  (`Incentives.WithoutOrderEveryPassPays`).
* **A Snapp Pay reduction is planned outside the transaction that writes it.** Written over an order that changed
  meanwhile, it can leave a total that is not the sum of the items, a wrong wallet share, or no item at all. Each has
  its exact condition (`OrderMoney.LateTotalMatchesIff`, `OrderMoney.StalePlanKeepsShareIff`,
  `OrderMoney.LateItemLeftIff`) and its input (`OrderMoney.StalePlanLosesShare`, `OrderMoney.StalePlanLeavesNothing`),
  and the share of every run is known up to exactly these drifts (`MoneyLaw.ExactShareLaw`).
* **A charged Snapp Pay order can be released** by the callback: exactly when the remote is settled but the last status
  question went unanswered (`SnappCallback.SnappPayCallback`). Every pending order whose callback is awaited can be lost
  this way (`SnappLaw.ChargedOrderCanBeReleased`, `Witnesses.ChargedOrderIsReleased`). An attempt without a token is
  released unasked, but is never one that was charged (`ShopLaw.TokensInEveryState`). A later reconcile that finds the
  purchase settled pays the order (`SnappLaw.SettledPurchaseIsNeverDropped`).
* **An order kept because its money is held is swept away.** The callback keeps the order of a purchase that is verified
  but not settled exactly as it was (`SnappCallback.SnappPayCallback`, `SnappLaw.VerifiedPurchaseKeepsItsOrder`), but the
  sweep looks at the order alone: it releases the order exactly when its checkout was ten minutes ago or more
  (`SnappLaw.KeptOrderIsSweptIff`, `SnappLaw.HeldOrderCanBeSwept`, `Witnesses.HeldOrderIsSwept`).
* **A failed payment gives the basket back**, whatever happened since the checkout, and in the simplest case exactly
  (`BasketLaw.FailedPaymentGivesBack`, `BasketLaw.FailureUndoesCheckout`). Its units are then on the shelf and in the
  basket at once, which is the correction of `StockLaw.AbandonLedger`.
* **Checkout takes codes the preview refuses.** It releases the customer's own stale orders before it looks at the code's
  cap, the preview does not. Where both go through the price is the same; where only checkout does, the code's count had
  reached its cap, and the stale orders carried enough uses of it (`CheckoutLaw.CheckoutAgainstPreview`,
  `CheckoutLaw.PricedAfterReleasesIff`, `Witnesses.CheckoutTakesWhatThePreviewRefuses`).
* **The day of a content plan is found outside the transaction that writes it.** Two schedulings can take the same day,
  exactly when the later one writes to a day that is no longer empty (`ContentCalendar.OneEachIff`,
  `ContentCalendar.TwoPlansOnOneDay`).
* **`redeem` and checkout count a loyalty code's uses under different locks.** One between the other's count and write
  gets the same use (`LoyaltyTiers.RedeemDuringCheckout`); otherwise the k-th use gets the k-th tier
  (`LoyaltyTiers.KthUseGetsKthTier`) and is worth what it says (`LoyaltyTiers.KthUseIsWorthKthTier`).
* **Cashback can be spent after it was withdrawn**, because a withdrawal is not counted as used
  (`Incentives.WithdrawnCashbackCanBeApplied`); it is the only writer that can overdraw a wallet
  (`WalletLaw.OverdraftOnlyByApply`).
* **A Snapp Pay order may be paid without Snapp Pay** when its price rounds to zero tomans
  (`PaymentLaw.NothingToPayNeedsNoSettle`); for every other price it may not (`PaymentLaw.SnappPaidOnlyAfterSettle`).
* **The wallet debit of an order that is never paid is not returned.** Whatever happens to the order, the whole debit is
  still implied by its amounts and none of it is reported as due (`MoneyLaw.UnpaidCheckoutKeepsTheDebit`,
  `MoneyLaw.UnpaidKeepsItsDebit`), and no wallet service posts it back (`WalletLaw.UsedStaysUsed`). Money is reported as
  due only for orders that were paid. The sweeper's release of an order partly paid from the wallet is an input
  (`Witnesses.SweptOrderKeepsTheDebit`).

## Model

| member | source | states |
|---|---|---|
| `ShopLaw.UnitsInEveryState` | src/modules/order/order-reservation.service.ts:48-64 | From opening on, in any run of all steps: no stock is negative, and shelf + live baskets + live unreleased orders + live sales of a variant equal the opening supply plus the run's corrections |
| `ShopLaw.StatusesInEveryState` | src/modules/payment/payment.controller.ts:431-583 | In every reachable state each order and its attempt agree (pending/initiated, paid/paid, failed/failed), a deleted order is not pending, order status PAID implies payment status PAID, and the attempt of an order that is not paid asks for exactly what the order says is payable |
| `ShopLaw.CodesInEveryState` | src/modules/catalog/presentation/controllers/basket.controller.ts:1046-1064 | In every reachable state a code's count is its opening count plus the live, unreleased orders carrying it, and exceeds its cap by at most the number of released orders with that code that were brought back |
| `ShopLaw.LateConfirmationLosesNothing` | src/modules/order/order-reservation.service.ts:13-134 | In every reachable state, releasing a pending order and settling it afterwards leaves exactly the tables settling at once leaves: no variant is short, every stock and every code is restored |
| `ShopLaw.OpeningIsSound` | src/modules/catalog/presentation/controllers/basket.controller.ts:791-944 | A shop that has sold nothing satisfies every invariant the run theorems assume |
| `StockLaw.ExactStockLaw` | src/modules/order/order-reservation.service.ts:48-64 | Over any run the ledger of a variant moves by exactly the sum of the step corrections, and stock stays non-negative |
| `StockLaw.ConservingRunsConserve` | src/modules/order/order-reservation.service.ts:48-64 | Runs without a revived deleted row, a restore, a short resurrection or a quantity edit behind the shelf's back conserve every variant's units exactly |
| `StockLaw.StepLedger` | src/modules/catalog/presentation/controllers/basket.controller.ts:362-388 | One step of any kind moves a variant's ledger by exactly its correction, and keeps the variant in the table |
| `StockLaw.StepKeepsStockSafe` | src/modules/catalog/presentation/controllers/basket.controller.ts:362-388 | Every step keeps all stock non-negative and every sweep's earlier read trustworthy |
| `StockLaw.UpsertLedger` | src/modules/catalog/presentation/controllers/basket.controller.ts:362-388 | Adding to a basket conserves units, except that a revived deleted row brings its stale quantity back: the ledger rises by exactly that |
| `StockLaw.UpdateLedger` | src/modules/catalog/presentation/controllers/basket.controller.ts:412-442 | Changing a row's quantity moves the difference between shelf and row and conserves units |
| `StockLaw.RemoveLedger` | src/modules/catalog/presentation/controllers/basket.controller.ts:460-475 | Removing a row returns exactly what it held |
| `StockLaw.RestoreLedger` | src/modules/payment/payment.controller.ts:286-317 | A basket restore holds the restored units without taking them and forgets what the row held: ledger + quantity - overwritten live quantity |
| `StockLaw.AbandonLedger` | src/modules/payment/payment.controller.ts:477-483 | A failed payment's release conserves; only its restore moves the ledger |
| `StockLaw.RefuseLedger` | src/modules/catalog/presentation/controllers/basket.controller.ts:1320-1373 | A refused checkout restores the basket whether or not its release did anything; the ledger moves by the restore correction in both cases |
| `StockLaw.CheckoutLedger` | src/modules/catalog/presentation/controllers/basket.controller.ts:895-1224 | Checkout moves the units of the basket's live rows into the order, stale releases included, and conserves every variant |
| `StockLaw.ItemsOfUnits` | src/modules/catalog/presentation/controllers/basket.controller.ts:1196-1213 | The order items hold, per variant, exactly what the basket row held |
| `StockLaw.SettledLedger` | src/modules/order/order-reservation.service.ts:111-124 | Settling conserves, except that each variant short on resurrection is counted once more by the units it is short of taking |
| `StockLaw.EditItemLedger` | src/modules/order/order-admin.service.ts:220-247 | An item edit conserves when stock is adjusted; otherwise the ledger moves by the signed quantity change |
| `StockLaw.DropItemLedger` | src/modules/order/order-admin.service.ts:249-275 | Deleting an item conserves when it is returned to stock; otherwise its units leave the ledger |
| `StockLaw.DropOrderLedger` | src/modules/order/order-admin.service.ts:277-335 | Deleting an order conserves when it is returned to stock; otherwise the units a paid order held leave the ledger, and a failed one moves nothing |
| `StockLaw.ReductionLedger` | src/modules/payment/snapp-pay.controller.ts:320-344 | A Snapp Pay reduction never touches the shelf: the ledger moves by the signed change of the order's units |
| `StockLaw.AssignLedger` | src/modules/event/event-payment.service.ts:362-445 | Assigning items to an event payment, over a held sale or a new one, conserves every variant |
| `SweepLaw.StaleReadIsSafe` | src/modules/order/stock-reservation-sweeper.service.ts:27-53 | Whatever ran between a sweep's read and its claim, a claim that succeeds finds exactly the quantity it read |
| `SweepLaw.StepRenews` | src/modules/catalog/presentation/controllers/basket.controller.ts:376-382 | No step makes a row expired at or before the current clock unless it was so before, with the same quantity |
| `SweepLaw.StepKeepsSweepsFresh` | src/modules/order/stock-reservation-sweeper.service.ts:27-53 | Every step keeps all reads of sweeps in flight trustworthy |
| `Sweeper.FindExpired` | src/modules/order/stock-reservation-sweeper.service.ts:28-33 | The read returns each expired row exactly once, with its quantity, and nothing else |
| `Sweeper.ClaimRow` | src/modules/order/stock-reservation-sweeper.service.ts:38-51 | A claim succeeds exactly when the row is still live and expired, then deletes it and returns the quantity read earlier |
| `Sweeper.SweptConserves` | src/modules/order/stock-reservation-sweeper.service.ts:38-51 | A claim whose earlier read still matches moves exactly the row's units to the shelf |
| `Sweeper.SweepExpiredBasketItems` | src/modules/order/stock-reservation-sweeper.service.ts:27-57 | An uninterrupted sweep leaves no expired hold, leaves every other row alone, conserves every variant, and counts the holds that had run out |
| `Sweeper.FindExpiredOrders` | src/modules/order/stock-reservation-sweeper.service.ts:60-69 | The read returns each expired pending order exactly once and nothing else |
| `Sweeper.SweepExpiredPendingOrders` | src/modules/order/stock-reservation-sweeper.service.ts:59-86 | An uninterrupted sweep releases exactly the expired pending orders, each once, and none is left |
| `OrderReservation.ReleaseOrder` | src/modules/order/order-reservation.service.ts:13-67 | True exactly for a pending, undeleted order; then it is failed and canceled, its attempt dropped, its code given back if counted, and every variant gets back the sum of its item quantities; otherwise nothing changes |
| `OrderReservation.ConfirmPaidAfterRelease` | src/modules/order/order-reservation.service.ts:84-134 | Acts exactly on undeleted orders that are not paid: takes each variant's total when it fits, lists exactly the variants that are short, and counts the code again |
| `OrderReservation.ReturnTotals` | src/modules/order/order-reservation.service.ts:48-64 | The per-variant loop over the totals map adds up to exactly the item list |
| `OrderReservation.TakeTotals` | src/modules/order/order-reservation.service.ts:111-124 | The best-effort loop takes a variant's total exactly when it fits and reports exactly the others |
| `OrderReservation.ReleaseOrders` | src/modules/catalog/presentation/controllers/basket.controller.ts:911-913 | Releasing a list one by one |
| `OrderReservation.ReleasedAllOrder` | src/modules/catalog/presentation/controllers/basket.controller.ts:911-913 | Releasing many orders leaves each listed pending one as its own release would and every other one untouched |
| `OrderReservation.ReleaseTwiceIsOnce` | src/modules/order/order-reservation.service.ts:27-31 | A second release is a no-op that would return false |
| `OrderReservation.ReleaseConserves` | src/modules/order/order-reservation.service.ts:48-64 | Releasing neither creates nor loses a unit of any variant |
| `OrderReservation.ResurrectionCreatesOnlyShortages` | src/modules/order/order-reservation.service.ts:111-124 | Paying a released order after all counts exactly the units of short variants once more than exist |
| `OrderReservation.ReleaseThenResurrectIsIdentity` | src/modules/order/order-reservation.service.ts:13-134 | On any tables without negative stock, release then resurrect restores every stock without shortage, and the codes if and only if the order's code had been counted; `ShopLaw.LateConfirmationLosesNothing` shows that in every reachable state it had |
| `ShopTables.TotalByVariant` | src/modules/order/order-reservation.service.ts:48-57 | The loop that fills the quantity map: variants in order of first appearance, each once, with the sum of their lines |
| `ShopTables.Database.TakeUnits` | src/modules/order/order-reservation.service.ts:112-120 | The guarded decrement matches exactly when the variant exists and has the units |
| `ShopTables.Database.ReturnUnits` | src/modules/order/order-reservation.service.ts:58-63 | The increment, matching nothing when the variant is missing |
| `Basket.UpsertItem` | src/modules/catalog/presentation/controllers/basket.controller.ts:329-393 | Succeeds exactly for a positive quantity of an active product that is in stock; the units are then in the basket the customer saw, or in a new one if they saw none, on a live row held for ten minutes, stale quantity of a deleted row included; on failure only the basket may have been created |
| `Basket.GetOrCreateActiveBasket` | src/modules/catalog/presentation/controllers/basket.controller.ts:151-162 | The basket a request adds to is the newest one that is not deleted, or a new one of the customer when there is none |
| `Basket.UpdateItem` | src/modules/catalog/presentation/controllers/basket.controller.ts:399-446 | The row in the basket the customer sees has the quantity asked for, held for ten minutes, exactly when the shelf covers what is added; the difference moves, or everything is as it was |
| `Basket.RemoveItem` | src/modules/catalog/presentation/controllers/basket.controller.ts:452-479 | The variant is no longer a live row of the basket the customer sees, its units are returned, and every other row is as it was |
| `Basket.RestoreRows` | src/modules/payment/payment.controller.ts:302-316 | The upsert loop leaves each variant of the list as a live row with its total and a fresh hold, and no other row changed |
| `Basket.RestoreBasketItems` | src/modules/payment/payment.controller.ts:286-317 | The newest basket the customer ever had, deleted or not, is the one they see, with each variant of the lines as a live row of exactly its sum, held for ten minutes; no other basket or row changes |
| `Basket.RestoreBringsBack` | src/modules/payment/payment.controller.ts:286-317 | The same of the restored tables: the customer sees the newest basket and finds exactly the units of the lines in it |
| `Basket.FindStale` | src/modules/catalog/presentation/controllers/basket.controller.ts:895-909 | The query for the user's stale pending orders returns exactly those |
| `Basket.FindRows` | src/modules/catalog/presentation/controllers/basket.controller.ts:915-931 | The query for the basket's live rows returns each exactly once |
| `Basket.AllStillHeld` | src/modules/catalog/presentation/controllers/basket.controller.ts:1118-1125 | True exactly when every product is still sold and every hold still running |
| `Basket.PlaceOrder` | src/modules/catalog/presentation/controllers/basket.controller.ts:1046-1236 | The new order waits for its payment with the amounts of the quote, its attempt asks for exactly subtotal - discount + shipping + packaging - wallet, a table code is counted, and the basket is deleted with its rows |
| `Basket.Checkout` | src/modules/catalog/presentation/controllers/basket.controller.ts:791-1237 | The table half of checkout: when it commits, the basket the customer saw, with nothing run out or withdrawn in it, has become an order over what its rows cost today and an attempt over its payable amount, and of the other orders exactly the customer's own with the same provider that wait unpaid for more than ten minutes are given up; otherwise everything is as before |
| `Basket.CheckoutGoesThroughIff` | src/modules/catalog/presentation/controllers/basket.controller.ts:915-1125 | Checkout is refused only for a reason: there is no basket to see, no live row in it, something in it ran out or is not sold any more, or its code is not accepted once the stale orders have given theirs back |
| `Basket.ItemsAreWorthTheBasket` | src/modules/catalog/presentation/controllers/basket.controller.ts:946-951 | In whatever order the rows are read, the order's subtotal is the sum over the live rows of quantity times today's price, the discount price if there is one |
| `Basket.RefuseOrder` | src/modules/catalog/presentation/controllers/basket.controller.ts:1320-1373 | After a gateway error: released if possible, and in any case the customer sees their newest basket with the order's live items in it |
| `Basket.PayLocally` | src/modules/catalog/presentation/controllers/basket.controller.ts:1262-1291 | Without a gateway, a pending order with an initiated attempt is paid, shown as PAID, and vouched for by the given reference; nothing else changes |
| `Basket.NothingToPayIff` | src/modules/catalog/presentation/controllers/basket.controller.ts:1262-1291 | No gateway is asked exactly when less than half a toman is left to pay |
| `Payment.SettleConfirmed` | src/modules/payment/payment.controller.ts:505-569 | A confirmed payment leaves a pending order paid, brings an undeleted failed one back with its units and code, changes no other order; it reports paid exactly when it paid the pair or brought the order back |
| `Payment.AbandonOrder` | src/modules/payment/payment.controller.ts:477-483 | Releases, and restores the basket only when the release did something: then the customer sees their newest basket with the order's live items in it |
| `Payment.Callback` | src/modules/payment/payment.controller.ts:422-603 | A callback nobody interrupts: nothing on an unknown or paid order; when not verified the order is abandoned and the customer has its items back in the basket they see; settled when verified |
| `Payment.ClaimCallback` | src/modules/payment/payment.controller.ts:985-1014 | Claims exactly an initiated Snapp Pay attempt without remote status, marks it, and says whether it has a token |
| `Payment.FinalizeSnappPaid` | src/modules/payment/payment.controller.ts:844-940 | Settles an unpaid order with status SETTLE; on a paid one only the remote status is corrected; in both cases the attempt says SETTLE afterwards |
| `Payment.FailSnappAttempt` | src/modules/payment/payment.controller.ts:943-963 | Abandons the order, giving the customer its items back, and records the remote status; a paid attempt of an order that is not pending is left alone entirely |
| `Payment.VerifiedPaymentLands` | src/modules/payment/payment.controller.ts:505-569 | From agreeing statuses a verified payment ends with both rows paid if and only if the order is not deleted unpaid; it announces if and only if the order was neither paid nor deleted, and then the order is shown as PAID, the gateway vouches for it, and nothing else of either row changes |
| `Payment.AnnouncedOnce` | src/modules/payment/payment.controller.ts:505-569 | The tables after an announcing settle cannot announce that order again |
| `Payment.SettlingAfterReleaseIsSettling` | src/modules/order/order-reservation.service.ts:13-134 | A confirmation after the release of a pending order leaves the tables it would have left before it |
| `BasketLaw.FailedPaymentGivesBack` | src/modules/payment/payment.controller.ts:286-317 | A basket is checked out, then anything happens, then the payment fails while the order is pending: the customer sees their newest basket and finds in it every variant checked out, with the quantity it had |
| `BasketLaw.FailureUndoesCheckout` | src/modules/payment/payment.controller.ts:477-483 | Checkout of the newest basket followed by a failed payment: the customer sees the same basket with the same variants in the same quantities and no others |
| `BasketLaw.UnpaidKeepsItems` | src/modules/order/order-reservation.service.ts:13-67 | Over any run, an order that is neither paid nor deleted at its end has the items and the owner it had |
| `PaymentLaw.StatusesAgreeForever` | src/modules/payment/payment.controller.ts:431-583 | Any run keeps the status invariants, and whatever is paid at its start is paid with a captured attempt at its end |
| `PaymentLaw.AnnouncedAtMostOnce` | src/modules/payment/payment.controller.ts:431-583 | Over any interleaving of callbacks, reconciles, sweeps and releases at most one step returns a non-null `paid` for an order, none once it is paid, and it ends paid if one did |
| `PaymentLaw.VerifiedPaymentIsNeverDropped` | src/modules/payment/payment.controller.ts:431-583 | Read, anything, verified settle, anything: if the order was not deleted, order and attempt are paid for good, and the settle announced it unless it was paid already; the Zarinpal and Zibal callbacks (Snapp Pay is `SnappLaw.SettledPurchaseIsNeverDropped`) |
| `PaymentLaw.ClaimedAtMostOnce` | src/modules/payment/payment.controller.ts:985-1014 | Over any run a Snapp Pay attempt is claimed by at most one callback |
| `PaymentLaw.OnlyThesePay` | src/modules/payment/payment.controller.ts:844-940 | An unpaid order becomes paid only by a settled callback, a Snapp Pay finalize, or a local completion allowed for it |
| `PaymentLaw.SnappPaidOnlyAfterSettle` | src/modules/payment/payment.controller.ts:1023-1129 | Outside mock mode, a Snapp Pay order with a positive price that is paid at the end of any run was settled by the remote at some time; a finalize needs a talk that came to it, and each call of each talk is a step of the run |
| `PaymentLaw.NothingToPayNeedsNoSettle` | src/modules/catalog/presentation/controllers/basket.controller.ts:1262-1291 | The price condition is needed: an order rounding to zero tomans is paid without the remote |
| `StatusLaw.StepMoves` | src/modules/order/order.controller.ts:530-546 | Every step keeps statuses sound, keeps paid orders paid, keeps owner and code, and leaves the price of an unpaid order alone, in the order and in what its gateway is asked for |
| `StatusLaw.StepKeepsSafe` | src/modules/order/order.controller.ts:530-546 | A status change checked earlier and written later stays justified: PAID was allowed only for an order that stays paid |
| `StatusLaw.StatusWrittenMoves` | src/modules/order/order.controller.ts:542-546 | The unguarded status write is sound because its earlier check is still true |
| `SnappPay.VerifyAndSettle` | src/modules/payment/snapp-pay.service.ts:366-399 | Returns normally only when the remote is settled (or mocked); at most three verify and three settle calls; no settle before verify landed; a settled remote is missed only after an unanswered status question; it gives up only after three settle calls, three verify calls, or a status that is neither pending nor holds money |
| `SnappPay.SettleOrHandle` | src/modules/payment/payment.controller.ts:1039-1068 | verifyAndSettle with the callback's handler around it: unless the last question went unanswered, the verdict is finalize when the purchase is settled, hold when it is verified, and a failure with its status when it is neither |
| `SnappPay.TalkForCallback` | src/modules/payment/payment.controller.ts:1023-1068 | Phase two of the callback, from either return state: finalize what is settled, hold what is verified, fail everything else with its status, unless the last thing asked was the status and no answer came |
| `SnappPay.TalkForReconcile` | src/modules/payment/payment.controller.ts:1097-1128 | The reconcile's calls: it finalizes only what is settled and fails only what the remote answered to be neither pending nor holding money; when nothing errored it finalizes what is settled, fails the rest, and only notes the status of a paid attempt |
| `SnappCallback.VerdictWritten` | src/modules/payment/payment.controller.ts:1023-1075 | Of all verdicts only finalize pays a claimed order; a pending one becomes paid by it; a failure cancels it and puts its units back on the shelf and in the customer's basket; hold writes the status down and nothing else |
| `SnappCallback.SnappPayCallback` | src/modules/payment/payment.controller.ts:967-1077 | Claim, talk and write of the callback: a pending order is paid if the remote is settled, kept exactly as it was with status VERIFY if the remote is verified, and given up if it is neither or there is no token, unless the last question went unanswered: then it is given up whatever the remote is |
| `SnappCallback.ReconcileSnappPay` | src/modules/payment/payment.controller.ts:1087-1129 | The admin's reconcile pays an order only if the remote is settled, never releases one whose purchase is settled, and pays a pending one whose purchase it found settled |
| `SnappLaw.TalkIsARun` | src/modules/payment/payment.controller.ts:1023-1068 | A talk with Snapp Pay, call by call, is a run of the shop that ends where its replies lead and touches no table |
| `SnappLaw.CallbackIsARun` | src/modules/payment/payment.controller.ts:967-1077 | Claim, calls and write as steps of the shop leave exactly the tables the callback method leaves for the same replies |
| `SnappLaw.SettledPurchaseIsNeverDropped` | src/modules/payment/payment.controller.ts:844-940 | Once a talk found the purchase settled, its write pays the order for good whatever released it meanwhile, unless it was deleted, and announces it unless it was paid already |
| `SnappLaw.VerifiedPurchaseKeepsItsOrder` | src/modules/payment/payment.controller.ts:1044-1060 | Whoever talks with Snapp Pay and from wherever: if the last answer is VERIFY, the write of the verdict leaves every order, unit, basket and code as it was |
| `SnappLaw.HeldMoneyNeverFails` | src/modules/payment/payment.controller.ts:943-963 | In no state of a run has a talk come to fail a purchase with a status under which it holds money, so such a failure is never written |
| `ShopLaw.HeldMoneyInEveryState` | src/modules/payment/payment.controller.ts:943-963 | The same in every state reachable from an opening shop |
| `SnappLaw.KeptOrderIsSweptIff` | src/modules/order/stock-reservation-sweeper.service.ts:59-86 | The sweep does not look at what the gateway holds: an order kept for the admin is expired for it if and only if its checkout was ten minutes ago or more |
| `SnappLaw.HeldOrderCanBeSwept` | src/modules/order/stock-reservation-sweeper.service.ts:59-86 | From every state in which a pending order with a token awaits its callback, there is a run in which the callback keeps the order and a sweep then releases it while the money stays held |
| `Witnesses.HeldOrderIsSwept` | src/modules/order/stock-reservation-sweeper.service.ts:59-86 | The same from an opening shop, with the sweep ten minutes after the checkout |
| `SnappLaw.ChargedOrderCanBeReleased` | src/modules/payment/payment.controller.ts:1023-1075 | From every state in which a pending order with a token awaits its callback, there is a run of the callback that ends with the purchase settled and the order released: verify lands, and every settle and status question after it goes unheard |
| `Witnesses.ChargedOrderIsReleased` | src/modules/payment/payment.controller.ts:967-1077 | The same from an opening shop: checkout, token, callback |
| `SnappLaw.TokensHeldForever` | src/modules/payment/payment.controller.ts:985-1021 | Over any run only attempts with a token are talked about, hold money or were ever settled |
| `ShopLaw.TokensInEveryState` | src/modules/payment/payment.controller.ts:985-1021 | In every reachable state, a purchase that was ever settled, or holds money, belongs to an attempt with a token |
| `SnappPay.CanceledForGood` | src/modules/payment/snapp-pay.controller.ts:220-252 | After a cancellation the purchase can be neither cancelled nor reduced again; the order is canceled but its payment, items, amounts and wallet share stay, no unit or code use comes back, and no other order changes |
| `SnappPay.Cancel` | src/modules/payment/snapp-pay.controller.ts:220-252 | Acts exactly on a captured, uncancelled Snapp Pay purchase with a token that the remote lets go; otherwise writes nothing |
| `SnappPay.CommitReduction` | src/modules/payment/snapp-pay.controller.ts:320-344 | The item loop and the two amount writes leave exactly the planned quantities and amounts on whatever the order is by then, and an attempt over what the order says is payable |
| `SnappPay.Reduce` | src/modules/payment/snapp-pay.controller.ts:261-347 | Reduces exactly when the plan is accepted by the checks and by the remote, and only a captured Snapp Pay purchase with a token that is not cancelled |
| `OrderMoney.RoundDiv` | src/modules/payment/snapp-pay.service.ts:446 | `Math.round` on integers: the unique integer within half, halves up |
| `OrderMoney.RecalculationReportsWalletRefund` | src/modules/order/order-admin.service.ts:130-195 | Re-pricing leaves consistent amounts, and the share both derivations find drops by exactly the reported wallet refund |
| `OrderMoney.RefundsAddUp` | src/modules/order/order-admin.service.ts:130-195 | An edited paid order that became cheaper is refunded by exactly what it became cheaper, the gateway's part first: the wallet gets something only once nothing is left to pay at the gateway; one that did not become cheaper is not refunded |
| `OrderMoney.OverridesAreWritten` | src/modules/order/order-admin.service.ts:130-195 | A shipping, packaging or discount an admin sets is what the order gets, one not set stays, a discount never exceeds the items, and re-pricing is refused exactly for a discount that would |
| `OrderMoney.PayloadBalances` | src/modules/payment/snapp-pay.service.ts:462-476 | amount + discount + external = cart total; amount is positive and at most the rial value of payable; the payload is refused exactly when nothing is left to pay |
| `OrderMoney.PayloadRevealsWalletShare` | src/modules/payment/snapp-pay.service.ts:462-476 | For consistent whole-rial orders the amount is exactly ten times payable and the external amount exactly the hidden wallet share |
| `OrderMoney.ReductionKeepsWalletShare` | src/modules/payment/snapp-pay.controller.ts:285-344 | A reduction written over the order it was planned for keeps total = sum of items, the wallet share and a live item, and lowers payable by the value removed |
| `OrderMoney.ReductionOnlyReduces` | src/modules/payment/snapp-pay.controller.ts:285-318 | An accepted plan only takes away from live items: none gets more units, a new price or comes back, some gets fewer, one asked for none is deleted, and Snapp Pay can be sent what is left |
| `OrderMoney.LateTotalMatchesIff` | src/modules/payment/snapp-pay.controller.ts:320-344 | Written over any order, a plan leaves total = sum of items if and only if the items it leaves alone and those it changes are worth, at today's prices, the subtotal it was planned with |
| `OrderMoney.LateItemLeftIff` | src/modules/payment/snapp-pay.controller.ts:320-344 | Written over any order, it leaves a live item if and only if some live item is left alone with units or changed to some |
| `OrderMoney.StalePlanKeepsShareIff` | src/modules/payment/snapp-pay.controller.ts:285-344 | Written over any order, a plan leaves exactly the share given by the subtotal and payable it was read with and the order's discount, shipping and packaging, and so keeps the share if and only if the gap between subtotal and payable is unchanged or both shares are clamped at zero |
| `OrderMoney.StalePlanLosesShare` | src/modules/payment/snapp-pay.controller.ts:285-344 | When shipping is raised between read and write, the late write makes the wallet share grow by exactly what was added |
| `OrderMoney.StalePlanLeavesNothing` | src/modules/payment/snapp-pay.controller.ts:285-344 | When the other item is deleted between read and write, nothing is left to deliver and the total is not that of the items, while the share looks kept |
| `MoneyLaw.ExactShareLaw` | src/modules/order/order-admin.service.ts:70-195 | Over any run at all, the share is the share at the start minus all reported wallet refunds plus the drift of each reduction; a deleted paid order has reported all of that, a deleted unpaid one nothing |
| `MoneyLaw.FreshRunsHaveNoDrift` | src/modules/payment/snapp-pay.controller.ts:285-344 | Reductions written over the amounts they were planned from have no drift and keep the amounts consistent |
| `MoneyLaw.WalletShareLaw` | src/modules/order/order-admin.service.ts:70-195 | Hence in such runs the share at the start is the share at the end plus the reported refunds |
| `MoneyLaw.CheckoutHidesTheDebit` | src/modules/catalog/presentation/controllers/basket.controller.ts:1101-1194 | What the checkout debits from the wallet for a previewed quote is the share the new order's amounts imply |
| `MoneyLaw.CheckoutDebitIsRecoverable` | src/modules/order/order.controller.ts:74-99 | From checkout on, in any run, the wallet debit equals the share found by `snapshot`, by `computeFinancials` and, for consistent whole-rial orders, by the Snapp Pay payload, plus all reported wallet refunds, less the drift of late reductions |
| `MoneyLaw.CheckoutIsAStep` | src/modules/catalog/presentation/controllers/basket.controller.ts:791-1237 | A whole checkout, priced and charged, is the step `PlaceCheckout` of a run with the quote it charged, and the order it places hides exactly the wallet debit |
| `MoneyLaw.UnpaidKeepsItsDebit` | src/modules/order/order-reservation.service.ts:13-67 | Whatever happens in a run, an order unpaid at its end has the amounts it had, and no refund and no drift was reported for it: money is only ever reported as due for an order that was paid |
| `MoneyLaw.UnpaidCheckoutKeepsTheDebit` | src/modules/catalog/presentation/controllers/basket.controller.ts:1186-1194 | From checkout on, as long as the order is not paid, pending, released or deleted alike, its whole wallet debit is still hidden in it and none of it was reported as due |
| `Witnesses.SweptOrderKeepsTheDebit` | src/modules/order/stock-reservation-sweeper.service.ts:59-86 | An order partly paid from the wallet, placed from an opening shop and released by the sweeper: no refund is reported and the debit stays hidden in its amounts |
| `WalletLaw.UsedStaysUsed` | src/modules/wallet/wallet.service.ts:436-461 | Over any wallet run, what the ledger holds as used never shrinks: no service posts a checkout debit back |
| `MoneyLaw.SharesAgree` | src/modules/order/order.controller.ts:74-99 | For consistent orders the three derivations of the wallet share agree |
| `MoneyLaw.EditItemAccounts` | src/modules/order/order-admin.service.ts:220-247 | Whatever the amounts were, an accepted item edit leaves them consistent and reports exactly the share lost |
| `MoneyLaw.EditsReportRefunds` | src/modules/order/order-admin.service.ts:130-335 | Every admin edit reports the amounts before and after and the refunds that make up the difference; deleting a paid order reports its payable amount and its whole share, deleting a failed one nothing |
| `MoneyLaw.DropOrderAccounts` | src/modules/order/order-admin.service.ts:277-335 | Deleting a paid order reports its whole share, deleting a failed one nothing |
| `CodeLaw.CodeLedger` | src/modules/catalog/presentation/controllers/basket.controller.ts:1046-1064 | Over any run a code's count changes by exactly the change in the live, unreleased orders carrying it |
| `CodeLaw.CodeCap` | src/modules/catalog/presentation/controllers/basket.controller.ts:1046-1064 | Over any run a capped code's count stays within its cap (or higher starting count) plus the resurrections of orders carrying it |
| `CodeLaw.StepKeepsCode` | src/modules/order/order-reservation.service.ts:38-47 | Every step keeps the code, its cap, and count minus carriers |
| `OrderAdmin.AdjustStock` | src/modules/order/order-admin.service.ts:110-127 | Returns units unguarded, takes them only when they fit |
| `OrderAdmin.UpdateOrder` | src/modules/order/order-admin.service.ts:197-218 | Only a paid order is edited; its amounts are those asked for over the items it has; the impact is computed from the amounts before and after |
| `OrderAdmin.UpdateItem` | src/modules/order/order-admin.service.ts:220-247 | Accepted exactly for a live item of a paid order with at least one change and, when units are taken, enough on the shelf; the item has the quantity and price asked for and no other item changes; stock moves only when asked to |
| `OrderAdmin.DeleteItem` | src/modules/order/order-admin.service.ts:249-275 | Accepted exactly for a live item of a paid order that is not the last one; it is then deleted, another stays live, and units return when asked |
| `OrderAdmin.DeleteOrder` | src/modules/order/order-admin.service.ts:277-335 | Accepted exactly for an undeleted order that is not pending; the order and all of its items are then deleted; a failed order returns neither units nor code; a paid one gives back its code and, when asked, all its units |
| `OrderAdmin.UpdateStatus` | src/modules/order/order.controller.ts:517-549 | A deleted order is refused, and PAID is refused unless the payment is paid; otherwise the status of that order is written and nothing else |
| `Sales.SequentialIsAggregate` | src/modules/offline-sale/offline-sale.service.ts:121-135 | The guarded line-by-line loop succeeds if and only if every variant's total fits its stock, and then leaves stock minus totals |
| `Sales.ReservationIgnoresOrder` | src/modules/offline-sale/offline-sale.service.ts:121-135 | Any permutation of the lines has the same outcome |
| `Sales.TakeAll` | src/modules/offline-sale/offline-sale.service.ts:121-135 | The reservation loop against that specification |
| `Sales.ReturnAll` | src/modules/offline-sale/offline-sale.service.ts:292-297 | The restock loop returns every line's units |
| `Sales.CreateSale` | src/modules/offline-sale/offline-sale.service.ts:75-182 | On non-negative stock, succeeds exactly when the products are known, the discount is covered and every total fits; the sale has what its items cost, the discount and what is left to pay, and its units are taken; otherwise everything is as it was |
| `Sales.GrossIsTheCost` | src/modules/offline-sale/offline-sale.service.ts:99-106 | The running total of a sale is the sum of quantity times unit price over its items, in whatever order they are added up |
| `Sales.UpdateSale` | src/modules/offline-sale/offline-sale.service.ts:232-364 | Replaces items and amounts in the same sense, returning the old units first, or leaves everything as it was |
| `Sales.RemoveSale` | src/modules/offline-sale/offline-sale.service.ts:366-390 | Returns the units of a live sale once and deletes it; a deleted sale is refused |
| `Sales.UpdateFitsOldHolding` | src/modules/offline-sale/offline-sale.service.ts:282-312 | An update is accepted if and only if each new total fits stock plus the old total, and leaves stock + old - new |
| `Sales.VerifyEventCallback` | src/modules/event/event-payment.service.ts:225-282 | A paid payment is left alone; a verified one is paid once and, unless it has a sale already, gets one without items over the amount paid; any other fails |
| `Sales.CheckNoVariantTwice` | src/modules/event/event-payment.service.ts:328-334 | The seen-set loop accepts exactly the lists without a repeated variant |
| `Sales.AssignItems` | src/modules/event/event-payment.service.ts:327-452 | Replaces the held sale's items or opens a sale, for a paid payment and distinct known variants only, and the sale stays worth what was paid; or leaves everything as it was |
| `Sales.AssignmentFitsHolding` | src/modules/event/event-payment.service.ts:378-407 | Accepted if and only if each request fits stock plus the current holding; leaves stock + held - asked, and total - discount stays the amount paid |
| `Sales.AssignmentIsHistoryFree` | src/modules/event/event-payment.service.ts:378-445 | Assigning A then B is accepted exactly when B alone is, and leaves the same stock and sale contents |
| `Sales.AssignmentIsIdempotent` | src/modules/event/event-payment.service.ts:378-445 | Assigning the same list again changes nothing at all |
| `Sales.RemovedSaleIsNotRestockedTwice` | src/modules/event/event-payment.service.ts:377-386 | After its sale was removed offline, a payment is assigned from the shelf alone and the removed sale stays removed |
| `Sales.TakingConserves` | src/modules/event/event-payment.service.ts:378-445 | Creating or replacing a sale moves units between shelf and sale only |
| `Pricing.DiscountCents` | src/modules/discount/discount.service.ts:151-174 | A table code's discount lies between zero and the subtotal, whatever its value |
| `Pricing.TableCodeIsWorth` | src/modules/discount/discount.service.ts:151-174 | A percentage code takes off its percentage of the subtotal and a fixed one its tomans up to the subtotal, to the cent |
| `Pricing.TableCodeIsTakenIff` | src/modules/catalog/presentation/controllers/basket.controller.ts:599-642 | Preview and checkout take a table code exactly from whoever may use it, while it is switched on and in its time, has uses left, and the basket reaches its minimum |
| `Pricing.LoyaltyCents` | src/modules/catalog/presentation/controllers/basket.controller.ts:227-292 | A loyalty discount in cents lies between zero and the subtotal |
| `Pricing.LoyaltyCodeIsWorth` | src/modules/catalog/presentation/controllers/basket.controller.ts:227-292 | Whatever rate the rules find for the order in tomans, checkout takes it off to the cent, and that is the amount of the redemption it writes |
| `Pricing.LoyaltyDiscountIsWorth` | src/modules/catalog/presentation/controllers/basket.controller.ts:1066-1075 | In checkout and preview, a usage-stepped code takes off what the tier of the customer's next use says, to the cent |
| `Pricing.LoyaltyIsTakenIff` | src/modules/catalog/presentation/controllers/basket.controller.ts:227-292 | They take a loyalty code exactly as its rules say, for the customer's segment, the customer's own earlier uses and the order in tomans |
| `Pricing.DiscountIsWorth` | src/modules/catalog/presentation/controllers/basket.controller.ts:586-682 | A table code takes off its value, a referral code its percentage to the cent, and without a code the first three orders are 10, 15 and 20 percent off to the cent and later ones nothing |
| `Pricing.ShareBounds` | src/modules/catalog/presentation/controllers/basket.controller.ts:300-315 | A rounded percentage between 0 and 100 lies between zero and the amount |
| `Pricing.ReferralGivesAwayAtMostAFifth` | src/modules/referral/referral.service.ts:312-318 | Under the percent rules, referral discount plus owner cashback is at most a fifth of the subtotal plus 50.5 cents |
| `Pricing.ReferralIsWorth` | src/modules/referral/referral.service.ts:312-318 | The buyer saves the discount percentage to the cent and the owner earns the cashback percentage to the toman |
| `Pricing.ReferralIsTakenIff` | src/modules/referral/referral.service.ts:290-310 | They take a referral code exactly from others than its owner, three times at most each |
| `Pricing.DiscountWithinSubtotal` | src/modules/catalog/presentation/controllers/basket.controller.ts:586-682 | Code, loyalty, referral and welcome discounts all lie between zero and the subtotal |
| `Pricing.QuotesAreValid` | src/modules/catalog/presentation/controllers/basket.controller.ts:684-707 | Every quote is over the basket's subtotal and the rules' packaging price, has no negative part, payable at least zero and equal to what remains after the wallet, and never more wallet than the balance |
| `Pricing.WalletPaysTheMost` | src/modules/wallet/wallet.service.ts:418-461 | What the wallet pays is the most that the request, the balance and the rest to pay allow, and nothing when one of them is not positive |
| `Pricing.ShippingIsFreeIff` | src/modules/catalog/presentation/controllers/basket.controller.ts:567-582 | Shipping is charged in full unless the subtotal reaches a positive threshold or the customer has a grant with a use left |
| `Pricing.ShippingIsPriced` | src/modules/catalog/presentation/controllers/basket.controller.ts:567-575 | A shipping method nobody offers is refused, an offered one has its price, and without a method nothing is shipped |
| `Pricing.ConsumedTakesOne` | src/modules/catalog/presentation/controllers/basket.controller.ts:134-149 | Consuming free shipping takes exactly one use when there is one and none otherwise |
| `Pricing.CheckoutDesk.ConsumeFreeShipping` | src/modules/catalog/presentation/controllers/basket.controller.ts:134-149 | Succeeds exactly when a grant has a use left, and takes it from the oldest such grant |
| `Pricing.CheckoutDesk.DebitForCheckout` | src/modules/wallet/wallet.service.ts:436-461 | Debits exactly when covered |
| `Pricing.CheckoutDesk.ChooseDiscount` | src/modules/catalog/presentation/controllers/basket.controller.ts:981-1099 | The discount branches of checkout find exactly the discount the preview finds, and count a table code only when accepted |
| `Pricing.CheckoutDesk.ChargeShipping` | src/modules/catalog/presentation/controllers/basket.controller.ts:953-975 | Charges exactly what the preview shows and uses a grant only when the threshold does not already make shipping free |
| `Pricing.CheckoutDesk.ChargeWallet` | src/modules/wallet/wallet.service.ts:418-461 | Applies exactly what the preview applies for the balance read, which is read outside the transaction; the guarded debit that follows fails exactly when the balance no longer covers it |
| `Pricing.TimelyDebitIsCovered` | src/modules/wallet/wallet.service.ts:418-461 | An application computed from the balance it is debited from is always covered |
| `Pricing.ChargedOnce` | src/modules/catalog/presentation/controllers/basket.controller.ts:946-1194 | A checkout counts the code it used once and no other, takes one use of a grant exactly when shipping costs something, the threshold is not reached and there is one, and takes exactly the quoted part from the wallet, leaving no balance below zero |
| `Pricing.CheckoutDesk.Checkout` | src/modules/catalog/presentation/controllers/basket.controller.ts:946-1194 | The money of checkout on the counts it reads in its transaction and the balance read before: it goes through exactly when the preview on these does, its own checks hold and the balance still covers the wallet part; then it charges exactly that quote, otherwise it writes nothing |
| `CheckoutLaw.Checkout` | src/modules/catalog/presentation/controllers/basket.controller.ts:791-1237 | The whole transaction, tables and money together: when it goes through, the subtotal is what the basket's live rows cost today, the order has exactly the amounts of the charged quote, its attempt asks for exactly the quote's payable amount, and the use counts are in step; or it throws and leaves everything as it was |
| `CheckoutLaw.CheckoutAgainstPreview` | src/modules/catalog/presentation/controllers/basket.controller.ts:561-707 | When preview and checkout both go through, they name the same price; what the preview takes, checkout takes if its own checks hold; and where checkout goes through, the preview refused if and only if the count of the code had reached its cap |
| `CheckoutLaw.PricedAfterReleasesIff` | src/modules/catalog/presentation/controllers/basket.controller.ts:895-1064 | Checkout prices a basket if and only if the preview does on the tables its releases leave: there is a basket and a shipping price, and for a table code its count less the customer's own stale orders carrying it is below its cap |
| `CheckoutLaw.ReleasesGiveBack` | src/modules/order/order-reservation.service.ts:38-47 | Releasing a list of orders takes exactly the uses off a code's count that the pending ones among them carry, never below zero |
| `CheckoutLaw.ChargedIsCheckedOut` | src/modules/catalog/presentation/controllers/basket.controller.ts:1046-1237 | Whatever was charged is ordered: the table half of the transaction commits for the request made of the quote |
| `Witnesses.CheckoutTakesWhatThePreviewRefuses` | src/modules/catalog/presentation/controllers/basket.controller.ts:895-913 | In a state reached from an opening shop: a code with one use, held by the customer's own stale order; the preview throws and checkout commits |
| `LoyaltyTiers.AssertTierRules` | src/modules/loyalty/discount-incentive/discount-incentive.service.ts:50-104 | Accepts exactly: no tiers (FLAT); distinct minimums and allowed values (STEPPED); indexes that are a permutation of 1..n, multi-use, allowed values (USAGE_STEPPED); an accepted value is positive, and a percentage at most a hundred |
| `LoyaltyTiers.AssertSteps` | src/modules/loyalty/discount-incentive/discount-incentive.service.ts:64-76 | The seen-set loop accepts exactly present, pairwise distinct minimums with allowed values |
| `LoyaltyTiers.AreSequential` | src/modules/loyalty/discount-incentive/discount-incentive.service.ts:88-97 | Sorting and comparing with 1..n accepts exactly the permutations of 1..n |
| `LoyaltyTiers.CodeIsAcceptedIff` | src/modules/loyalty/discount-incentive/discount-redemption.rules.ts:44-84 | A code is accepted exactly while it is open, from the segment it is meant for, for an order that reaches its minimum, and while the customer has a use of it left |
| `LoyaltyTiers.SequentialIffPermutation` | src/modules/loyalty/discount-incentive/discount-incentive.service.ts:88-97 | A list sorts to 1..n if and only if it is a permutation of it |
| `LoyaltyTiers.DiscountAmount` | src/modules/loyalty/discount-incentive/discount-redemption.rules.ts:113-139 | Between zero and the order amount |
| `LoyaltyTiers.UsageTierIsWorth` | src/modules/loyalty/discount-incentive/discount-redemption.rules.ts:118-139 | An accepted USAGE_STEPPED code takes off the percentage or the amount of the tier numbered with the use, and never more than the order |
| `LoyaltyTiers.SteppedTierIsWorth` | src/modules/loyalty/discount-incentive/discount-redemption.rules.ts:121-139 | An accepted STEPPED code takes off what the reached tier with the greatest minimum says |
| `LoyaltyTiers.UnreachedIsWorthNothing` | src/modules/loyalty/discount-incentive/discount-redemption.rules.ts:121-132 | A STEPPED code none of whose tiers is reached takes off nothing |
| `LoyaltyTiers.FlatIsWorth` | src/modules/loyalty/discount-incentive/discount-redemption.rules.ts:116-139 | A FLAT code takes off its own value, however often it was used |
| `LoyaltyTiers.SteppedPicksGreatest` | src/modules/loyalty/discount-incentive/discount-redemption.rules.ts:122-127 | The STEPPED tier is a reached one with the greatest minimum; there is none if and only if none is reached |
| `LoyaltyTiers.SteppedIgnoresOrder` | src/modules/loyalty/discount-incentive/discount-redemption.rules.ts:122-127 | An accepted STEPPED list picks the same tier in any order |
| `LoyaltyTiers.UseHasItsTier` | src/modules/loyalty/discount-incentive/discount-redemption.rules.ts:118-120 | In an accepted USAGE_STEPPED list exactly the uses 1..n have a tier, each exactly one |
| `LoyaltyTiers.AcceptedTiersPay` | src/modules/loyalty/discount-incentive/discount-redemption.rules.ts:113-139 | Every allowed use of an accepted list takes a positive amount, at most the order, off a positive order |
| `LoyaltyTiers.RedemptionLog.Redeem` | src/modules/loyalty/discount-incentive/discount-redemption.service.ts:29-114 | Accepted exactly when the rules hold for the customer's earlier uses; then exactly one redemption of the amount answered is appended, otherwise nothing |
| `LoyaltyTiers.KthUseGetsKthTier` | src/modules/loyalty/discount-incentive/discount-redemption.service.ts:29-114 | Over any run of `redeem` calls and checkouts by any customers, each redemption is computed for a use that has its tier; a customer's k-th is computed for use k, for every k, if and only if no checkout of theirs wrote on a count that had changed, and then there are at most n |
| `LoyaltyTiers.KthUseIsWorthKthTier` | src/modules/loyalty/discount-incentive/discount-redemption.service.ts:29-114 | Over any run, the k-th redemption of a customer whose checkouts wrote in time takes off the percentage or the amount of the tier numbered k, never more than the order, in whole cents when checkout wrote it |
| `LoyaltyTiers.SingleUseIsUsedOnce` | src/modules/loyalty/discount-incentive/discount-redemption.rules.ts:65-70 | Over any run, a customer redeems a single-use code at most once, unless a checkout of theirs wrote on a count that had changed |
| `LoyaltyTiers.RedeemDuringCheckout` | src/modules/catalog/presentation/controllers/basket.controller.ts:227-292 | A `redeem` between a checkout's count and its write, which hold different locks, has the same use twice |
| `Wallet.WalletDb.Credit` | src/modules/event/event-spin.service.ts:80-95 | The upsert and the ledger row move balance and ledger by the same amount |
| `Wallet.WalletDb.GuardedDebit` | src/modules/wallet/wallet.service.ts:297-309 | Matches exactly when the wallet exists and covers the amount |
| `Wallet.WalletDb.CreditMockTopUp` | src/modules/wallet/wallet.service.ts:192-214 | The mock path credits the new top-up |
| `Wallet.WalletDb.VerifyTopUpCallback` | src/modules/wallet/wallet.service.ts:226-289 | Credits a verified top-up that is not paid yet with its amount and marks it paid, marks an unverified one refused, leaves a paid one alone |
| `Wallet.WalletDb.RequestWithdrawal` | src/modules/wallet/wallet.service.ts:291-323 | Exactly when covered, the amount leaves the balance and a pending request for it is written |
| `Wallet.WalletDb.ResolveWithdrawal` | src/modules/wallet/wallet.service.ts:363-410 | Uninterrupted: only a pending request is resolved; a rejection returns its amount |
| `Wallet.WalletDb.DebitForCheckout` | src/modules/wallet/wallet.service.ts:436-461 | Takes the amount from the balance with a USED row exactly when it is covered, or nothing |
| `Wallet.WalletDb.Redeem` | src/modules/loyalty/coupon-incentive/coupon-trigger.service.ts:35-74 | Redemption, balance and ledger row together |
| `Wallet.WalletDb.GrantReferralCashback` | src/modules/referral/referral-cashback.service.ts:16-56 | Uninterrupted: credits exactly a paid order's uncredited positive cashback, once |
| `Wallet.WalletDb.SpinWheel` | src/modules/event/event-spin.service.ts:107-182 | One spin a payment; the balance rises by a money prize with it or not at all |
| `WalletLaw.BalanceIsLedgerSum` | src/modules/wallet/wallet.service.ts:150-461 | After any run of all ten writers each balance is the sum of the ledger rows |
| `WalletLaw.TopUpsCreditedOnce` | src/modules/wallet/wallet.service.ts:226-289 | However many callbacks arrive and whatever they report, each single top-up is credited at most once in any run, and is credited in it if and only if it was not paid before and is paid after |
| `WalletLaw.CreditingStep` | src/modules/wallet/wallet.service.ts:226-289 | A step posts a row for a top-up exactly when it marks it paid, and the row is the top-up's amount to its owner |
| `WalletLaw.RejectKeepsAccountIff` | src/modules/wallet/wallet.service.ts:372-395 | A rejection written after its read keeps withdrawal rows = -(pending or paid requests) if and only if the request is not rejected already (or is worth nothing) |
| `WalletLaw.PayOutKeepsAccountIff` | src/modules/wallet/wallet.service.ts:396-404 | The same for a pay-out |
| `WalletLaw.TwoRejectionsReturnTwice` | src/modules/wallet/wallet.service.ts:363-395 | Any pending request that two admins read and both reject returns its amount twice |
| `WalletLaw.PayOutAfterRejection` | src/modules/wallet/wallet.service.ts:363-404 | A pending request that one admin rejects and another, who read it before, pays out is returned and paid |
| `WalletLaw.TwoGrantsCreditTwice` | src/modules/referral/referral-cashback.service.ts:16-56 | A referral that two grants read as not credited is credited twice |
| `WalletLaw.ReferralCreditMovesAccount` | src/modules/referral/referral-cashback.service.ts:16-56 | A referral credit written after its read gives too much by exactly the amount credited meanwhile |
| `WalletLaw.AccountLaw` | src/modules/wallet/wallet.service.ts:363-410 | Over any run, what the ledger holds for a customer's top-ups, withdrawals or cashback beyond what the tables account for grows by exactly what late resolutions and late referral credits gave a second time; for top-ups it never moves |
| `WalletLaw.AccountMatchesIff` | src/modules/wallet/wallet.service.ts:363-410 | An account that matches its table matches it after any run if and only if nobody was given anything a second time |
| `WalletLaw.OverdraftOnlyByApply` | src/modules/loyalty/cashback-incentive/cashback-apply.service.ts:61-73 | Every step but cashback `apply` keeps all balances non-negative, and `apply` does if and only if the balance covers it |
| `WalletLaw.BalancesStayCovered` | src/modules/loyalty/cashback-incentive/cashback-apply.service.ts:61-73 | No balance goes below zero in runs whose cashback applications are covered |
| `WalletLaw.CashbackIsSpentOnce` | src/modules/loyalty/cashback-incentive/cashback-apply.service.ts:23-73 | Over any run, cashback applied plus cashback still available is at most what was available plus what was granted, but for what late applications took beyond what was left when they were written |
| `WalletLaw.TwoAppliesOnOneRead` | src/modules/loyalty/cashback-incentive/cashback-apply.service.ts:23-73 | Two requests that read the same cashback apply it twice, and the balance pays for it |
| `WalletLaw.LateIssueKeepsOncePerOrderIff` | src/modules/loyalty/coupon-incentive/coupon-trigger.service.ts:146-192 | A reward written after its check keeps one redemption per incentive and order if and only if it was not issued meanwhile |
| `WalletLaw.OncePerOrderIff` | src/modules/loyalty/cashback-incentive/cashback-grant.service.ts:70-129 | After any run every incentive is redeemed at most once per order if and only if no reward was issued late |
| `WalletLaw.TwoIssuesOnOneCheck` | src/modules/loyalty/cashback-incentive/cashback-grant.service.ts:70-129 | Two passes that both looked before either wrote issue the reward twice |
| `CashbackRules.LateApplyTakesFromAvailableIff` | src/modules/loyalty/cashback-incentive/cashback-apply.service.ts:61-73 | The write of an application takes its amount from what is available if and only if that much is available then; beyond it, it takes from nothing |
| `CashbackRules.AvailableIsWhatIsLeft` | src/modules/loyalty/cashback-incentive/cashback-rules.ts:88-109 | Available cashback is the sum over the customer's rows, in any order, of what was granted and has not run out and of what was used, and never less than nothing |
| `CashbackRules.RunOutIsNothing` | src/modules/loyalty/cashback-incentive/cashback-rules.ts:92-94 | A cashback row whose time has come can be put in or taken out anywhere in the ledger without changing what is available |
| `CashbackRules.UnexpiredAddsItsAmount` | src/modules/loyalty/cashback-incentive/cashback-rules.ts:88-109 | A cashback row whose time has not come raises what is available by exactly its amount, if no more was used than granted |
| `CashbackRules.NothingIsLeft` | src/modules/loyalty/cashback-incentive/cashback-rules.ts:92-94 | When every cashback row of the customer has run out, nothing is available |
| `Incentives.Apply` | src/modules/loyalty/cashback-incentive/cashback-apply.service.ts:14-79 | Throws, writing nothing, exactly when the customer has no usable cashback, in particular when all of it has run out, the order is free or the request is not positive; otherwise applies as much as cashback, order and request allow and not less, and what it reports as remaining is what is available afterwards |
| `Incentives.ApplyTakesFromAvailable` | src/modules/loyalty/cashback-incentive/cashback-rules.ts:88-119 | Uninterrupted, an application takes exactly its amount from what is available |
| `Incentives.ApplyIsARun` | src/modules/loyalty/cashback-incentive/cashback-apply.service.ts:14-79 | The uninterrupted application is its read and its write as steps of a wallet run |
| `CashbackRules.AvailableNeverRises` | src/modules/loyalty/cashback-incentive/cashback-rules.ts:88-109 | Without new grants availability never rises as time passes, whatever else is posted |
| `Incentives.WithdrawnCashbackCanBeApplied` | src/modules/loyalty/cashback-incentive/cashback-apply.service.ts:61-73 | After withdrawing a whole balance its cashback is still available, and applying it leaves the balance at minus that amount |
| `Incentives.RewardCents` | src/modules/loyalty/cashback-incentive/cashback-rules.ts:67-73 | A stored reward lies between zero and the order amount |
| `Incentives.RewardOn` | src/modules/loyalty/coupon-incentive/coupon-rules.ts:132-145 | A reward, fixed or percentage, lies between zero and the order amount |
| `Incentives.RewardIsWorth` | src/modules/loyalty/cashback-incentive/cashback-rules.ts:67-73 | A reward is its percentage of the order, or its tomans up to the order, and is stored to the cent |
| `Incentives.GrantOne` | src/modules/loyalty/cashback-incentive/cashback-grant.service.ts:67-127 | One incentive: granted exactly when not granted before for the order, qualified and positive |
| `Incentives.GrantedCashbackRunsOut` | src/modules/loyalty/cashback-incentive/cashback-grant.service.ts:96-127 | Cashback granted with a life of n days can be applied, with exactly the stored reward, until n days after the order was paid, and not from then on |
| `Incentives.CashbackIsDueIff` | src/modules/loyalty/cashback-incentive/cashback-rules.ts:28-57 | Cashback is due exactly on orders of the segment that were paid while the incentive was open, cost something and reach its minimum |
| `Incentives.GrantForOrder` | src/modules/loyalty/cashback-incentive/cashback-grant.service.ts:33-142 | The loop grants exactly what is due, in order, and returns one result a grant |
| `Incentives.IssueOne` | src/modules/loyalty/coupon-incentive/coupon-trigger.service.ts:141-193 | One coupon: issued exactly when not issued before, in its window, triggered and positive |
| `Incentives.CouponIsDueIff` | src/modules/loyalty/coupon-incentive/coupon-rules.ts:80-117 | A coupon is due exactly while its incentive is open, for a first purchase, a purchase above the minimum or of the category it names; a purchase never triggers a referral coupon |
| `Incentives.CouponsAreNotCashback` | src/modules/loyalty/coupon-incentive/coupon-trigger.service.ts:35-74 | A coupon raises the balance by its reward and leaves what can be applied as cashback as it was |
| `Incentives.OnOrderCompleted` | src/modules/loyalty/coupon-incentive/coupon-trigger.service.ts:81-201 | The loop issues exactly what is due, in order, and returns one result a coupon |
| `Incentives.CouponsOnceAreOnce` | src/modules/loyalty/coupon-incentive/coupon-trigger.service.ts:145-149 | A coupon that was due when an order was completed is not issued again by any later pass over that order |
| `Incentives.OnReferralConfirmed` | src/modules/loyalty/coupon-incentive/coupon-trigger.service.ts:211-286 | The referral loop issues exactly what is due, looking for an earlier coupon only when an order is named |
| `Incentives.ReferralIsDueIff` | src/modules/loyalty/coupon-incentive/coupon-trigger.service.ts:225-262 | A referral coupon is due exactly while its incentive is open and is a fixed amount, to the cent, for the referrer; a percentage is never due |
| `Incentives.WithoutOrderEveryPassPays` | src/modules/loyalty/coupon-incentive/coupon-trigger.service.ts:246-252 | Without an order every confirmation pays everything due again |
| `Incentives.PassIsIdleIff` | src/modules/loyalty/cashback-incentive/cashback-grant.service.ts:67-73 | A pass changes nothing if and only if each incentive is issued already or not due |
| `Incentives.GrantingTwiceIsOnce` | src/modules/loyalty/cashback-incentive/cashback-grant.service.ts:67-132 | A second grant after the first, with the same incentives and segment, on an order with a recorded payment time (every writer that pays an order records it), adds no redemption, balance change or ledger row, whenever it happens |
| `Incentives.PassesKeepOncePerOrder` | src/modules/loyalty/coupon-incentive/coupon-trigger.service.ts:145-149 | Passes one after the other never redeem an incentive twice for an order; passes at the same time are `WalletLaw.OncePerOrderIff` |
| `Incentives.PassIsARun` | src/modules/loyalty/coupon-incentive/coupon-trigger.service.ts:141-193 | An uninterrupted pass is a wallet run that issues nothing late and ends with the same books |
| `ContentCalendar.Calendar.FindNextEmptyDate` | src/modules/content-calendar/content-calendar.service.ts:76-92 | The first day without an entry among ninety, or none |
| `ContentCalendar.FirstEmpty` | src/modules/content-calendar/content-calendar.service.ts:76-92 | The day found is empty and every earlier one is full; none means all ninety are full |
| `ContentCalendar.Calendar.ScheduleProduct` | src/modules/content-calendar/content-calendar.service.ts:94-105 | Uninterrupted: a post and a story on the first empty day, or nothing |
| `ContentCalendar.LatePlanKeepsOneEachIff` | src/modules/content-calendar/content-calendar.service.ts:94-105 | A plan written after its day was found keeps at most one post and one story a day if and only if the day is still empty |
| `ContentCalendar.OneEachIff` | src/modules/content-calendar/content-calendar.service.ts:94-105 | However schedulings interleave, no day gets a second post or story if and only if every plan found its day still empty |
| `ContentCalendar.TwoPlansOnOneDay` | src/modules/content-calendar/content-calendar.service.ts:94-105 | Two schedulings that both looked before either wrote put two products on one day |
| `ContentCalendar.SchedulingIsARun` | src/modules/content-calendar/content-calendar.service.ts:94-105 | An uninterrupted scheduling is its read and its write as steps, and finds its day still empty |
| `ContentCalendar.Calendar.ScheduleAll` | src/modules/content-calendar/content-calendar-sweeper.service.ts:37-41 | The backfill loop plans product after product and stops only when no day is left |
| `ContentCalendar.EarliestEmptyDays` | src/modules/content-calendar/content-calendar.service.ts:76-105 | n schedulings from one day take exactly the n earliest empty days, in order, and stop short only when all ninety days are full |
| `ContentCalendar.SchedulingAddsChosenDays` | src/modules/content-calendar/content-calendar.service.ts:94-105 | A run of schedulings adds exactly the chosen days with their products |
| `ContentCalendar.Calendar.LastDays` | src/modules/content-calendar/content-calendar.service.ts:146-153 | The map loop finds, for exactly the eligible planned products, their latest day |
| `ContentCalendar.LastDayIsLatest` | src/modules/content-calendar/content-calendar.service.ts:146-153 | The latest day of a product is a day it is planned for, and none of its entries is later |
| `ContentCalendar.Calendar.ReplanOne` | src/modules/content-calendar/content-calendar.service.ts:156-161 | Plans a product exactly when it is due; then it is fresh and no other product's latest day moved |
| `ContentCalendar.Calendar.ReplanStaleProducts` | src/modules/content-calendar/content-calendar.service.ts:130-163 | When it completes nothing eligible is stale, the count is the number that were, and without stale products nothing changes |
| `ContentCalendar.ZeroIntervalStaysStale` | src/modules/content-calendar/content-calendar.service.ts:131-132 | With an interval of zero days a product planned for today would be stale at once; settings allow one day at least |
| `ContentCalendar.StaleAfterTheInterval` | src/modules/content-calendar/content-calendar.service.ts:131-161 | A product whose last plan is for a day becomes stale when the interval is over, to the millisecond, and not before |

## Left out

- SMS, redirects, HTTP calls to the gateways, tokens, refresh of remote credentials, object storage: a gateway's answer is a free choice of the run, a stored token is a flag.
- Authentication, roles, request validation decorators: only their numeric bounds are used (quantities and amounts not negative).
- Soft-deleted variants and absolute stock edits: every variant of the table is live, so an increment always finds it.
- Creating, deleting and re-capping discount codes during a run: the code table is fixed; a loyalty, referral or welcome label is never a key of it.
- Several payment attempts for one order: checkout is the only writer that creates an attempt and creates one with each order, so attempts are keyed by their order; authorities, reference numbers and verification times are not kept.
- Isolation levels and advisory-lock collisions: a transaction is atomic, except that checkout's count of a loyalty code's uses and its redemption row are two steps in `LoyaltyTiers`. The order locks are not needed by any proof, because releases from checkout do not take them.
- Floating point: money is exact integer cents, percentages are exact reals; the column rounding of a fractional reward is the rounding to cents in `Incentives.RewardCents`.
- Mock mode: one flag for all gateways; the mock branch of each service is modelled, the text of its answers is not.
- Offline-sale commissions, cost of goods, notes, channels and customers: the amounts kept are total, discount and payable.
- Order codes, addresses, shipping method titles, cost prices and profit figures of `computeFinancials`: only its wallet share is modelled.
- Prize drawing of the event wheel: the prize is a parameter; discount codes and free-shipping grants it hands out do not touch the wallet.
- Manual calendar entries, toggling and deleting: any list of entries is a possible calendar.
- Reports, segmentation, blog, chat and other record keeping: no shared counter or ledger is involved.
- Basket.Checkout: is the table half with the quote as a parameter; `CheckoutLaw.Checkout` is the whole transaction, and `MoneyLaw.CheckoutIsAStep` shows that its quote is one the table half may be given.
- Basket.UpsertItem: states the uninterrupted request; looking for a basket, opening one and writing the row are not one transaction, and in `ShopRuns` the steps `OpenBasket` and `UpsertRow` may come at any time, so that a customer may have two baskets open.
- Payment.Callback: states the uninterrupted callback; the interleaved one is the pair of steps `CallbackRead` and `CallbackSettle` or `CallbackFail` of `ShopRuns`.
- Wallet.WalletDb.ResolveWithdrawal: states the uninterrupted resolution; the interleaved one is the steps `ReadWithdrawal`, `Reject` and `PayOut` of `WalletRuns`, with `WalletLaw.AccountLaw`.
- MoneyLaw.WalletShareLaw: is about runs whose reductions are written over the amounts they were planned from; `MoneyLaw.ExactShareLaw` is about all runs.
- SnappPay.Reduce: states the uninterrupted reduction; its read and its write are the steps `ReadReduction` and `WriteReduction` of `ShopRuns`, with the conditions `OrderMoney.LateTotalMatchesIff`, `OrderMoney.LateItemLeftIff` and `OrderMoney.StalePlanKeepsShareIff`.
- SnappCallback.SnappPayCallback: states the uninterrupted callback; its claim, calls and write are steps of `ShopRuns`, and `SnappLaw.CallbackIsARun` ties the two together.
- SnappCallback.ReconcileSnappPay: states the uninterrupted reconcile; its calls and its write are the steps `SnappInquire`, `TalkGoesOn`, `SnappFinalize`, `SnappFail` and `SnappMark` of `ShopRuns`.
- Pricing.CheckoutDesk.Checkout: has the use counts that checkout reads in its transaction; how they come about is `CheckoutLaw.Checkout`.
- ContentCalendar.Calendar.ScheduleProduct: states the uninterrupted scheduling; the interleaved one is the steps `FindDay` and `WritePlan`, with `ContentCalendar.OneEachIff`.
- Sweeper.SweepExpiredBasketItems: states the sweep nobody interrupts; the interleaved one is the steps `SweepRead` and `SweepClaim` of `ShopRuns`, with `SweepLaw.StaleReadIsSafe`.
- Sweeper.SweepExpiredPendingOrders: states the sweep nobody interrupts; the interleaved one is the step `SweepOrder` of `ShopRuns`, one order at a time.
- OrderAdmin.UpdateStatus: states the uninterrupted status change; the interleaved one is the steps `CheckStatus` and `WriteStatus` of `ShopRuns`, with `StatusLaw.StepKeepsSafe`.
- Wallet.WalletDb.GrantReferralCashback: states the uninterrupted grant; the interleaved one is the steps `ReadReferral` and `CreditReferral` of `WalletRuns`, with `WalletLaw.AccountLaw`.
- Incentives.ApplyTakesFromAvailable: states the uninterrupted application; a late one is `CashbackRules.LateApplyTakesFromAvailableIff`.
- Incentives.GrantingTwiceIsOnce: states one grant after the other; grants at the same time are `WalletLaw.OncePerOrderIff`.
- Incentives.PassesKeepOncePerOrder: states one pass after the other; passes at the same time are `WalletLaw.OncePerOrderIff`.
- PaymentLaw.VerifiedPaymentIsNeverDropped: is about the Zarinpal and Zibal callbacks, which settle on their gateway's word; Snapp Pay settles after a talk of several calls, and that is `SnappLaw.SettledPurchaseIsNeverDropped`.
- OrderReservation.ReleaseThenResurrectIsIdentity: is about any tables and so needs the code to be counted; `ShopLaw.LateConfirmationLosesNothing` is about all reachable ones.
- ContentCalendar.Calendar.ReplanStaleProducts: assumes an interval of at least one day, which the settings request enforces, and one clock reading for the whole call.
