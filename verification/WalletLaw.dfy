/**
 The wallet ledger over whole runs: balances, the accounts behind the ledger rows, cashback and rewards, with what
 each write that comes later than its read does to them.
 */
module WalletLaw {
  import opened Wrappers
  import opened Sums
  import opened ShopTables
  import opened OrderMoney
  import opened Wallet
  import opened CashbackRules
  import opened WalletRuns

  // ---------------------------------------------------------------- balances

  function Total(ledger: seq<Entry>, u: UserId): int {
    if ledger == [] then 0
    else Total(ledger[..|ledger| - 1], u) + if ledger[|ledger| - 1].user == u then ledger[|ledger| - 1].amount else 0
  }

  ghost predicate BalancesMatch(b: Books) {
    forall u: UserId :: BalanceOf(b, u) == Total(b.ledger, u)
  }

  lemma StepKeepsBalances(w: WalletWorld, e: WalletStep)
    requires BalancesMatch(w.b)
    ensures BalancesMatch(Next(w, e).b)
  {
  }

  /** After any run of all the services, each wallet's balance is the sum of its ledger rows. */
  lemma {:induction false} BalanceIsLedgerSum(w: WalletWorld, es: seq<WalletStep>)
    requires BalancesMatch(w.b)
    ensures BalancesMatch(Run(w, es).b)
    decreases |es|
  {
    if es != [] {
      StepKeepsBalances(w, es[0]);
      BalanceIsLedgerSum(Next(w, es[0]), es[1..]);
    }
  }

  // ---------------------------------------------------------------- accounts

  /** The parts of the ledger that other tables account for. */
  datatype Account = TopUpAccount | WithdrawalAccount | CashbackAccount

  predicate Belongs(e: Entry, k: Account) {
    match k
    case TopUpAccount => e.reason == TopUpCredit
    case WithdrawalAccount => e.reason == WithdrawalHold || e.reason == Adjustment
    case CashbackAccount => e.reason == Cashback && !e.redeemed
  }

  function Share(e: Entry, u: UserId, k: Account): int {
    if e.user == u && Belongs(e, k) then e.amount else 0
  }

  function Kept(ledger: seq<Entry>, u: UserId, k: Account): int {
    if ledger == [] then 0 else Kept(ledger[..|ledger| - 1], u, k) + Share(ledger[|ledger| - 1], u, k)
  }

  function PaidFor(t: TopUp, u: UserId): int { if t.user == u && t.status == Done then t.amount else 0 }

  /** A pending or paid-out withdrawal has left the wallet; a rejected one has not. */
  function HeldFor(x: Withdrawal, u: UserId): int { if x.user == u && x.status != Refused then x.amount else 0 }

  function CreditedFor(r: Referral, u: UserId): int { if r.owner == u && r.credited then r.amount else 0 }

  function SpinFor(s: Spin, u: UserId): int { if s.user == u then s.cashback else 0 }

  function PaidTopUps(topUps: map<TopUpId, TopUp>, u: UserId): map<TopUpId, int> {
    map id | id in topUps :: PaidFor(topUps[id], u)
  }

  function HeldWithdrawals(withdrawals: map<WithdrawalId, Withdrawal>, u: UserId): map<WithdrawalId, int> {
    map id | id in withdrawals :: HeldFor(withdrawals[id], u)
  }

  function CreditedReferrals(referrals: map<OrderId, Referral>, u: UserId): map<OrderId, int> {
    map id | id in referrals :: CreditedFor(referrals[id], u)
  }

  function SpinCashback(spins: map<EventPaymentId, Spin>, u: UserId): map<EventPaymentId, int> {
    map id | id in spins :: SpinFor(spins[id], u)
  }

  /** What the ledger should hold for the account, by the table behind it. */
  ghost function Owed(b: Books, u: UserId, k: Account): int {
    match k
    case TopUpAccount => Sum(PaidTopUps(b.topUps, u))
    case WithdrawalAccount => 0 - Sum(HeldWithdrawals(b.withdrawals, u))
    case CashbackAccount => Sum(CreditedReferrals(b.referrals, u)) + Sum(SpinCashback(b.spins, u))
  }

  /** How much more the ledger holds for a customer's account than it should. */
  ghost function Surplus(b: Books, u: UserId, k: Account): int {
    Kept(b.ledger, u, k) - Owed(b, u, k)
  }

  ghost predicate AccountMatches(b: Books, k: Account) {
    forall u: UserId :: Surplus(b, u, k) == 0
  }

  lemma KeptAppend(ledger: seq<Entry>, e: Entry, u: UserId, k: Account)
    ensures Kept(ledger + [e], u, k) == Kept(ledger, u, k) + Share(e, u, k)
  {
  }

  /** A ledger row of another kind, with the table behind the account untouched. */
  lemma ElsewherePosted(b: Books, b': Books, reasons: set<Reason>, u: UserId, k: Account)
    requires PostsOnly(b, b', reasons) && Owed(b', u, k) == Owed(b, u, k)
    requires forall e: Entry :: e.reason in reasons ==> !Belongs(e, k)
    ensures Surplus(b', u, k) == Surplus(b, u, k)
  {
  }

  // ----------------------------------------------------------------- top-ups

  lemma TopUpWrite(b: Books, id: TopUpId, t: TopUp, u: UserId)
    ensures Sum(PaidTopUps(b.topUps[id := t], u)) ==
            Sum(PaidTopUps(b.topUps, u)) - (if id in b.topUps then PaidFor(b.topUps[id], u) else 0) + PaidFor(t, u)
  {
    SumUpdate(PaidTopUps(b.topUps, u), id, PaidFor(t, u));
    assert PaidTopUps(b.topUps[id := t], u) == PaidTopUps(b.topUps, u)[id := PaidFor(t, u)];
  }

  lemma ToppedUpKeepsAccount(b: Books, id: TopUpId, u: UserId)
    ensures Surplus(ToppedUp(b, id), u, TopUpAccount) == Surplus(b, u, TopUpAccount)
  {
    if id in b.topUps && b.topUps[id].status != Done {
      TopUpWrite(b, id, b.topUps[id].(status := Done), u);
      KeptAppend(b.ledger, Plain(b.topUps[id].user, b.topUps[id].amount, TopUpCredit), u, TopUpAccount);
    }
  }

  /** A top-up row written without being credited. */
  lemma UnpaidTopUpWrite(b: Books, id: TopUpId, t: TopUp, u: UserId)
    requires PaidFor(t, u) == if id in b.topUps then PaidFor(b.topUps[id], u) else 0
    ensures Surplus(b.(topUps := b.topUps[id := t]), u, TopUpAccount) == Surplus(b, u, TopUpAccount)
  {
    TopUpWrite(b, id, t, u);
  }

  lemma TopUpStepKeepsTopUps(w: WalletWorld, t: TopUpStep, u: UserId)
    ensures Surplus(NextTopUp(w, t).b, u, TopUpAccount) == Surplus(w.b, u, TopUpAccount)
  {
    var b := w.b;
    match t
    case OpenTopUp(id, v, amount) => if id !in b.topUps { UnpaidTopUpWrite(b, id, TopUp(v, amount, Open, false), u); }
    case GatewayRefuses(id) =>
      if id in b.topUps && b.topUps[id].status != Done { UnpaidTopUpWrite(b, id, b.topUps[id].(status := Refused), u); }
    case MockPays(id) => ToppedUpKeepsAccount(b, id, u);
    case GatewayAccepts(id) => if id in b.topUps { UnpaidTopUpWrite(b, id, b.topUps[id].(hasAuthority := true), u); }
    case TopUpCallback(id, verified) =>
      ToppedUpKeepsAccount(b, id, u);
      if id in b.topUps && b.topUps[id].status != Done { UnpaidTopUpWrite(b, id, b.topUps[id].(status := Refused), u); }
  }

  /** The step handles the top-up and posts a ledger row. */
  predicate CreditsTopUp(w: WalletWorld, e: WalletStep, id: TopUpId) {
    e.OnTopUp? && e.t.topUp == id && |Next(w, e).b.ledger| > |w.b.ledger|
  }

  function Credits(w: WalletWorld, es: seq<WalletStep>, id: TopUpId): nat
    decreases |es|
  {
    if es == [] then 0 else (if CreditsTopUp(w, es[0], id) then 1 else 0) + Credits(Next(w, es[0]), es[1..], id)
  }

  predicate IsDone(w: WalletWorld, id: TopUpId) {
    id in w.b.topUps && w.b.topUps[id].status == Done
  }

  /** A step credits a top-up exactly when it marks it paid, and then posts the top-up's own amount to its owner. */
  lemma CreditingStep(w: WalletWorld, e: WalletStep, id: TopUpId)
    ensures CreditsTopUp(w, e, id) <==> IsDone(Next(w, e), id) && !IsDone(w, id)
    ensures IsDone(w, id) ==> IsDone(Next(w, e), id)
    ensures CreditsTopUp(w, e, id) ==>
              id in w.b.topUps &&
              Next(w, e).b.ledger == w.b.ledger + [Plain(w.b.topUps[id].user, w.b.topUps[id].amount, TopUpCredit)]
  {
  }

  /**
   However many callbacks arrive and whatever they report, each top-up is credited at most once, and it is credited
   in a run exactly when it was not paid before the run and is paid after it.
   */
  lemma {:induction false} TopUpsCreditedOnce(w: WalletWorld, es: seq<WalletStep>, id: TopUpId)
    ensures Credits(w, es, id) <= 1
    ensures Credits(w, es, id) == 1 <==> !IsDone(w, id) && IsDone(Run(w, es), id)
    ensures IsDone(w, id) ==> IsDone(Run(w, es), id)
    decreases |es|
  {
    if es != [] {
      CreditingStep(w, es[0], id);
      TopUpsCreditedOnce(Next(w, es[0]), es[1..], id);
    }
  }

  // ------------------------------------------------------------- withdrawals

  lemma WithdrawalWrite(b: Books, id: WithdrawalId, x: Withdrawal, u: UserId)
    ensures Sum(HeldWithdrawals(b.withdrawals[id := x], u)) ==
            Sum(HeldWithdrawals(b.withdrawals, u)) -
            (if id in b.withdrawals then HeldFor(b.withdrawals[id], u) else 0) + HeldFor(x, u)
  {
    SumUpdate(HeldWithdrawals(b.withdrawals, u), id, HeldFor(x, u));
    assert HeldWithdrawals(b.withdrawals[id := x], u) == HeldWithdrawals(b.withdrawals, u)[id := HeldFor(x, u)];
  }

  lemma RequestKeepsAccount(b: Books, id: WithdrawalId, v: UserId, amount: nat, u: UserId)
    requires id !in b.withdrawals && WithdrawalRequested(b, id, v, amount).Returns?
    ensures Surplus(WithdrawalRequested(b, id, v, amount).value, u, WithdrawalAccount) == Surplus(b, u, WithdrawalAccount)
  {
    WithdrawalWrite(b, id, Withdrawal(v, amount, Open), u);
    KeptAppend(b.ledger, Plain(v, 0 - amount, WithdrawalHold), u, WithdrawalAccount);
  }

  /** What a resolution of an already rejected request gives its owner once too often. */
  function ReturnedAgain(b: Books, id: WithdrawalId, u: UserId): nat
    requires id in b.withdrawals
  {
    if b.withdrawals[id].user == u && b.withdrawals[id].status == Refused then b.withdrawals[id].amount else 0
  }

  lemma RejectMovesAccount(b: Books, id: WithdrawalId, u: UserId)
    requires id in b.withdrawals
    ensures Surplus(WithdrawalRejected(b, id), u, WithdrawalAccount) ==
            Surplus(b, u, WithdrawalAccount) + ReturnedAgain(b, id, u)
  {
    WithdrawalWrite(b, id, b.withdrawals[id].(status := Refused), u);
    KeptAppend(b.ledger, Plain(b.withdrawals[id].user, b.withdrawals[id].amount, Adjustment), u, WithdrawalAccount);
  }

  lemma PayOutMovesAccount(b: Books, id: WithdrawalId, u: UserId)
    requires id in b.withdrawals
    ensures Surplus(WithdrawalPaid(b, id), u, WithdrawalAccount) ==
            Surplus(b, u, WithdrawalAccount) + ReturnedAgain(b, id, u)
  {
    WithdrawalWrite(b, id, b.withdrawals[id].(status := Done), u);
  }

  /**
   The write of a rejection, made on a status read earlier, keeps the account exactly when the request has not
   been rejected meanwhile: otherwise it is returned a second time.
   */
  lemma RejectKeepsAccountIff(b: Books, id: WithdrawalId)
    requires AccountMatches(b, WithdrawalAccount) && id in b.withdrawals
    ensures AccountMatches(WithdrawalRejected(b, id), WithdrawalAccount) <==>
            b.withdrawals[id].status != Refused || b.withdrawals[id].amount == 0
  {
    var r := WithdrawalRejected(b, id);
    forall u: UserId ensures Surplus(r, u, WithdrawalAccount) == ReturnedAgain(b, id, u) {
      RejectMovesAccount(b, id, u);
    }
    assert AccountMatches(r, WithdrawalAccount) ==> Surplus(r, b.withdrawals[id].user, WithdrawalAccount) == 0;
  }

  /** The same for a pay-out: over a rejected request it pays what was already returned. */
  lemma PayOutKeepsAccountIff(b: Books, id: WithdrawalId)
    requires AccountMatches(b, WithdrawalAccount) && id in b.withdrawals
    ensures AccountMatches(WithdrawalPaid(b, id), WithdrawalAccount) <==>
            b.withdrawals[id].status != Refused || b.withdrawals[id].amount == 0
  {
    var r := WithdrawalPaid(b, id);
    forall u: UserId ensures Surplus(r, u, WithdrawalAccount) == ReturnedAgain(b, id, u) {
      PayOutMovesAccount(b, id, u);
    }
    assert AccountMatches(r, WithdrawalAccount) ==> Surplus(r, b.withdrawals[id].user, WithdrawalAccount) == 0;
  }

  lemma WithdrawalStepMoves(w: WalletWorld, x: WithdrawalStep, u: UserId)
    ensures Surplus(NextWithdrawal(w, x).b, u, WithdrawalAccount) ==
            Surplus(w.b, u, WithdrawalAccount) + Late(w, OnWithdrawal(x), u, WithdrawalAccount)
  {
    var b := w.b;
    match x
    case ReadWithdrawal(id) =>
    case AskWithdrawal(id, v, amount) =>
      if id !in b.withdrawals && WithdrawalRequested(b, id, v, amount).Returns? { RequestKeepsAccount(b, id, v, amount, u); }
    case Reject(id) => if id in b.withdrawals { RejectMovesAccount(b, id, u); }
    case PayOut(id) => if id in b.withdrawals { PayOutMovesAccount(b, id, u); }
  }

  // --------------------------------------------------------------- referrals

  lemma ReferralWrite(b: Books, id: OrderId, x: Referral, u: UserId)
    ensures Sum(CreditedReferrals(b.referrals[id := x], u)) ==
            Sum(CreditedReferrals(b.referrals, u)) -
            (if id in b.referrals then CreditedFor(b.referrals[id], u) else 0) + CreditedFor(x, u)
  {
    SumUpdate(CreditedReferrals(b.referrals, u), id, CreditedFor(x, u));
    assert CreditedReferrals(b.referrals[id := x], u) == CreditedReferrals(b.referrals, u)[id := CreditedFor(x, u)];
  }

  lemma SpinWrite(b: Books, id: EventPaymentId, x: Spin, u: UserId)
    requires id !in b.spins
    ensures Sum(SpinCashback(b.spins[id := x], u)) == Sum(SpinCashback(b.spins, u)) + SpinFor(x, u)
  {
    SumUpdate(SpinCashback(b.spins, u), id, SpinFor(x, u));
    assert SpinCashback(b.spins[id := x], u) == SpinCashback(b.spins, u)[id := SpinFor(x, u)];
  }

  /** What a credit of an already credited referral gives its owner once too often. */
  function CreditedAgain(b: Books, id: OrderId, u: UserId): nat
    requires id in b.referrals
  {
    if b.referrals[id].owner == u && b.referrals[id].credited then b.referrals[id].amount else 0
  }

  lemma ReferralCreditMovesAccount(b: Books, id: OrderId, u: UserId)
    requires id in b.referrals
    ensures Surplus(ReferralCredited(b, id), u, CashbackAccount) == Surplus(b, u, CashbackAccount) + CreditedAgain(b, id, u)
  {
    ReferralWrite(b, id, b.referrals[id].(credited := true), u);
    KeptAppend(b.ledger, Plain(b.referrals[id].owner, b.referrals[id].amount, Cashback), u, CashbackAccount);
  }

  lemma SpinKeepsAccount(b: Books, payment: EventPaymentId, v: UserId, prize: Prize, u: UserId)
    requires payment !in b.spins
    ensures Surplus(Spun(b, payment, v, prize).value, u, CashbackAccount) == Surplus(b, u, CashbackAccount)
  {
    SpinWrite(b, payment, Spun(b, payment, v, prize).value.spins[payment], u);
    if prize.EventCashback? { KeptAppend(b.ledger, Plain(v, prize.amount, Cashback), u, CashbackAccount); }
    if prize.WalletPrize? { KeptAppend(b.ledger, Plain(v, prize.amount, Gift), u, CashbackAccount); }
  }

  /** A redeemed reward is accounted for by its redemption, not by this account. */
  lemma IssueKeepsAccount(b: Books, p: PendingIssue, u: UserId)
    ensures Surplus(IssueWritten(b, p), u, CashbackAccount) == Surplus(b, u, CashbackAccount)
  {
  }

  lemma SpendingKeepsCashback(w: WalletWorld, r: RewardStep, u: UserId)
    requires r.Debit? || r.WriteApply?
    ensures Surplus(NextReward(w, r).b, u, CashbackAccount) == Surplus(w.b, u, CashbackAccount)
  {
    ElsewherePosted(w.b, NextReward(w, r).b, {Used}, u, CashbackAccount);
  }

  lemma ReadsKeepCashback(w: WalletWorld, r: RewardStep, u: UserId)
    requires r.ReadIssue? || r.ReadApply? || r.ReadReferral?
    ensures Surplus(NextReward(w, r).b, u, CashbackAccount) == Surplus(w.b, u, CashbackAccount)
  {
  }

  lemma RewardStepMoves(w: WalletWorld, r: RewardStep, u: UserId)
    ensures Surplus(NextReward(w, r).b, u, CashbackAccount) ==
            Surplus(w.b, u, CashbackAccount) + Late(w, OnReward(r), u, CashbackAccount)
  {
    var b := w.b;
    match r
    case OpenReferral(id, owner, amount) => if id !in b.referrals { ReferralWrite(b, id, Referral(owner, amount, false), u); }
    case CreditReferral(id) => if id in b.referrals { ReferralCreditMovesAccount(b, id, u); }
    case SpinOnce(payment, v, prize) => if payment !in b.spins { SpinKeepsAccount(b, payment, v, prize, u); }
    case WriteIssue(p) => IssueKeepsAccount(b, p, u);
    case Debit(_, _) => SpendingKeepsCashback(w, r, u);
    case WriteApply(_) => SpendingKeepsCashback(w, r, u);
    case _ => ReadsKeepCashback(w, r, u);
  }

  // ------------------------------------------------------- accounts in runs

  /** What a step that comes too late gives the customer a second time. */
  function Late(w: WalletWorld, e: WalletStep, u: UserId, k: Account): nat {
    match e
    case OnWithdrawal(Reject(id)) =>
      if k == WithdrawalAccount && id in w.resolving && id in w.b.withdrawals then ReturnedAgain(w.b, id, u) else 0
    case OnWithdrawal(PayOut(id)) =>
      if k == WithdrawalAccount && id in w.resolving && id in w.b.withdrawals then ReturnedAgain(w.b, id, u) else 0
    case OnReward(CreditReferral(id)) =>
      if k == CashbackAccount && id in w.crediting && id in w.b.referrals then CreditedAgain(w.b, id, u) else 0
    case _ => 0
  }

  function LateTotal(w: WalletWorld, es: seq<WalletStep>, u: UserId, k: Account): nat
    decreases |es|
  {
    if es == [] then 0 else Late(w, es[0], u, k) + LateTotal(Next(w, es[0]), es[1..], u, k)
  }

  lemma StepMovesAccount(w: WalletWorld, e: WalletStep, u: UserId, k: Account)
    ensures Surplus(Next(w, e).b, u, k) == Surplus(w.b, u, k) + Late(w, e, u, k)
  {
    match e
    case Tick(_) =>
    case OnTopUp(t) =>
      if k == TopUpAccount { TopUpStepKeepsTopUps(w, t, u); } else { ElsewherePosted(w.b, Next(w, e).b, TOP_UP_REASONS, u, k); }
    case OnWithdrawal(x) =>
      if k == WithdrawalAccount { WithdrawalStepMoves(w, x, u); }
      else { ElsewherePosted(w.b, Next(w, e).b, WITHDRAWAL_REASONS, u, k); }
    case OnReward(r) =>
      if k == CashbackAccount { RewardStepMoves(w, r, u); } else { ElsewherePosted(w.b, Next(w, e).b, REWARD_REASONS, u, k); }
  }

  /**
   Over any run, what the ledger holds for an account beyond what it should moves by exactly what late resolutions
   and late referral credits gave a second time; it never falls, and for top-ups it never moves.
   */
  lemma {:induction false} AccountLaw(w: WalletWorld, es: seq<WalletStep>, u: UserId, k: Account)
    ensures Surplus(Run(w, es).b, u, k) == Surplus(w.b, u, k) + LateTotal(w, es, u, k)
    ensures k == TopUpAccount ==> LateTotal(w, es, u, k) == 0
    decreases |es|
  {
    if es != [] {
      StepMovesAccount(w, es[0], u, k);
      AccountLaw(Next(w, es[0]), es[1..], u, k);
    }
  }

  /**
   So an account that matches its table at the start matches it at the end exactly when nobody was given anything a
   second time: top-up rows always add up to the paid top-ups; withdrawal rows to minus the pending and paid
   requests, and unredeemed cashback rows to credited referrals plus spins, unless something was late.
   */
  lemma AccountMatchesIff(w: WalletWorld, es: seq<WalletStep>, k: Account)
    requires AccountMatches(w.b, k)
    ensures AccountMatches(Run(w, es).b, k) <==> forall u: UserId :: LateTotal(w, es, u, k) == 0
    ensures k == TopUpAccount ==> AccountMatches(Run(w, es).b, k)
  {
    var end := Run(w, es).b;
    forall u: UserId ensures LateTotal(w, es, u, k) == Surplus(end, u, k) && (k == TopUpAccount ==> Surplus(end, u, k) == 0) {
      assert Surplus(w.b, u, k) == 0;
      AccountLaw(w, es, u, k);
    }
    if AccountMatches(end, k) {
      forall u: UserId ensures LateTotal(w, es, u, k) == 0 {
        assert Surplus(end, u, k) == 0;
      }
    } else {
      var u: UserId :| Surplus(end, u, k) != 0;
      assert LateTotal(w, es, u, k) != 0;
    }
  }

  lemma RunStep(w: WalletWorld, e: WalletStep, es: seq<WalletStep>)
    ensures Run(w, [e] + es) == Run(Next(w, e), es)
  {
    assert ([e] + es)[1..] == es;
  }

  /** Two admins who both read the request as pending and both reject it: it is returned twice. */
  lemma TwoRejectionsReturnTwice(w: WalletWorld, id: WithdrawalId)
    requires id in w.b.withdrawals && w.b.withdrawals[id].status == Open
    ensures var read, reject := OnWithdrawal(ReadWithdrawal(id)), OnWithdrawal(Reject(id));
            var x := w.b.withdrawals[id];
            BalanceOf(Run(w, [read] + ([read] + ([reject] + [reject]))).b, x.user) == BalanceOf(w.b, x.user) + 2 * x.amount
  {
    var read, reject := OnWithdrawal(ReadWithdrawal(id)), OnWithdrawal(Reject(id));
    RunStep(w, read, [read] + ([reject] + [reject]));
    var w1 := Next(w, read);
    RunStep(w1, read, [reject] + [reject]);
    var w2 := Next(w1, read);
    RunStep(w2, reject, [reject]);
    assert [reject] == [reject] + [];
    RunStep(Next(w2, reject), reject, []);
  }

  lemma LateStep(w: WalletWorld, e: WalletStep, es: seq<WalletStep>, u: UserId, k: Account)
    ensures Run(w, [e] + es) == Run(Next(w, e), es)
    ensures LateTotal(w, [e] + es, u, k) == Late(w, e, u, k) + LateTotal(Next(w, e), es, u, k)
  {
    assert ([e] + es)[1..] == es;
  }

  /** One admin rejects and another, who read the request before, pays it out: it is returned and paid. */
  lemma PayOutAfterRejection(w: WalletWorld, id: WithdrawalId)
    requires id in w.b.withdrawals && w.b.withdrawals[id].status == Open
    ensures var read, reject, pay := OnWithdrawal(ReadWithdrawal(id)), OnWithdrawal(Reject(id)), OnWithdrawal(PayOut(id));
            var x, es := w.b.withdrawals[id], [read] + ([read] + ([reject] + [pay]));
            var end := Run(w, es).b;
            id in end.withdrawals && end.withdrawals[id].status == Done &&
            BalanceOf(end, x.user) == BalanceOf(w.b, x.user) + x.amount &&
            LateTotal(w, es, x.user, WithdrawalAccount) == x.amount
  {
    var read, reject, pay := OnWithdrawal(ReadWithdrawal(id)), OnWithdrawal(Reject(id)), OnWithdrawal(PayOut(id));
    var u, k := w.b.withdrawals[id].user, WithdrawalAccount;
    LateStep(w, read, [read] + ([reject] + [pay]), u, k);
    var w1 := Next(w, read);
    LateStep(w1, read, [reject] + [pay], u, k);
    LateStep(w1, reject, [pay], u, k);
    assert [pay] == [pay] + [];
    LateStep(Next(w1, reject), pay, [], u, k);
  }

  /** Two grants that both read the referral as not credited credit it twice. */
  lemma TwoGrantsCreditTwice(w: WalletWorld, id: OrderId)
    requires id in w.b.referrals && !w.b.referrals[id].credited
    ensures var read, credit := OnReward(ReadReferral(id)), OnReward(CreditReferral(id));
            var x, es := w.b.referrals[id], [read] + ([read] + ([credit] + [credit]));
            BalanceOf(Run(w, es).b, x.owner) == BalanceOf(w.b, x.owner) + 2 * x.amount &&
            LateTotal(w, es, x.owner, CashbackAccount) == x.amount
  {
    var read, credit := OnReward(ReadReferral(id)), OnReward(CreditReferral(id));
    var u, k := w.b.referrals[id].owner, CashbackAccount;
    LateStep(w, read, [read] + ([credit] + [credit]), u, k);
    var w1 := Next(w, read);
    LateStep(w1, read, [credit] + [credit], u, k);
    LateStep(w1, credit, [credit], u, k);
    assert [credit] == [credit] + [];
    LateStep(Next(w1, credit), credit, [], u, k);
  }

  // ----------------------------------------------------------- no overdrafts

  predicate NoOverdraft(b: Books) {
    forall u :: u in b.balances ==> b.balances[u] >= 0
  }

  /** A cashback application is not larger than the balance it is taken from. */
  predicate ApplyCovered(w: WalletWorld, e: WalletStep) {
    match e
    case OnReward(WriteApply(p)) => p in w.applying ==> p.amount <= BalanceOf(w.b, p.user)
    case _ => true
  }

  lemma RewardStepOverdraft(w: WalletWorld, r: RewardStep)
    requires NoOverdraft(w.b)
    ensures NoOverdraft(NextReward(w, r).b) <==> ApplyCovered(w, OnReward(r))
  {
    if r.WriteApply? && r.apply in w.applying {
      assert NextReward(w, r).b.balances[r.apply.user] == BalanceOf(w.b, r.apply.user) - r.apply.amount;
    }
  }

  /** Every step but cashback `apply` keeps all balances non-negative; `apply` does exactly when it is covered. */
  lemma OverdraftOnlyByApply(w: WalletWorld, e: WalletStep)
    requires NoOverdraft(w.b)
    ensures NoOverdraft(Next(w, e).b) <==> ApplyCovered(w, e)
  {
    if e.OnReward? { RewardStepOverdraft(w, e.r); }
  }

  predicate CoveredRun(w: WalletWorld, es: seq<WalletStep>)
    decreases |es|
  {
    es == [] || (ApplyCovered(w, es[0]) && CoveredRun(Next(w, es[0]), es[1..]))
  }

  /** No balance ever goes below zero in a run in which each cashback application is covered by the balance. */
  lemma {:induction false} BalancesStayCovered(w: WalletWorld, es: seq<WalletStep>)
    requires NoOverdraft(w.b) && CoveredRun(w, es)
    ensures NoOverdraft(Run(w, es).b)
    decreases |es|
  {
    if es != [] {
      OverdraftOnlyByApply(w, es[0]);
      BalancesStayCovered(Next(w, es[0]), es[1..]);
    }
  }

  // ------------------------------------------------------ cashback over runs

  predicate WellSigned(e: Entry) {
    (e.reason == Cashback ==> e.amount >= 0) && (e.reason == Used ==> e.amount <= 0)
  }

  /** Nothing was posted, or one row whose cashback is not negative and whose use is not positive. */
  predicate PostsWellSigned(ledger: seq<Entry>, ledger': seq<Entry>) {
    ledger' == ledger ||
    (|ledger'| == |ledger| + 1 && ledger' == ledger + [ledger'[|ledger|]] && WellSigned(ledger'[|ledger|]))
  }

  /** The cashback in the row that was posted to the customer, if one was. */
  function PostedCashback(ledger: seq<Entry>, ledger': seq<Entry>, u: UserId): int {
    if |ledger'| > |ledger| && ledger'[|ledger'| - 1].user == u && ledger'[|ledger'| - 1].reason == Cashback
    then ledger'[|ledger'| - 1].amount else 0
  }

  /** What is available rises by no more than the cashback that was posted. */
  lemma PostingRaisesAvailable(ledger: seq<Entry>, ledger': seq<Entry>, u: UserId, now: Time)
    requires PostsWellSigned(ledger, ledger')
    ensures Available(ledger', u, now) <= Available(ledger, u, now) + PostedCashback(ledger, ledger', u)
    ensures GrantsPositive(ledger) ==> GrantsPositive(ledger')
  {
  }

  lemma RewardStepPosts(w: WalletWorld, r: RewardStep)
    ensures PostsWellSigned(w.b.ledger, NextReward(w, r).b.ledger)
  {
  }

  lemma StepPosts(w: WalletWorld, e: WalletStep)
    ensures PostsWellSigned(w.b.ledger, Next(w, e).b.ledger)
  {
    match e
    case Tick(_) =>
    case OnTopUp(t) => assert PostsOnly(w.b, NextTopUp(w, t).b, TOP_UP_REASONS);
    case OnWithdrawal(x) => assert PostsOnly(w.b, NextWithdrawal(w, x).b, WITHDRAWAL_REASONS);
    case OnReward(r) => RewardStepPosts(w, r);
  }

  /** The cashback a step applies for the customer. */
  function AppliedFor(w: WalletWorld, e: WalletStep, u: UserId): nat {
    if e.OnReward? && e.r.WriteApply? && e.r.apply in w.applying && e.r.apply.user == u then e.r.apply.amount else 0
  }

  /** The cashback a step posts to the customer. */
  function Granted(w: WalletWorld, e: WalletStep, u: UserId): int {
    PostedCashback(w.b.ledger, Next(w, e).b.ledger, u)
  }

  /** How far an application goes beyond what is available when it is written. */
  function Excess(w: WalletWorld, e: WalletStep, u: UserId): nat {
    Max(0, AppliedFor(w, e, u) - Available(w.b.ledger, u, w.now))
  }

  function GrantedIn(w: WalletWorld, es: seq<WalletStep>, u: UserId): int
    decreases |es|
  {
    if es == [] then 0 else Granted(w, es[0], u) + GrantedIn(Next(w, es[0]), es[1..], u)
  }

  function AppliedIn(w: WalletWorld, es: seq<WalletStep>, u: UserId): nat
    decreases |es|
  {
    if es == [] then 0 else AppliedFor(w, es[0], u) + AppliedIn(Next(w, es[0]), es[1..], u)
  }

  function ExcessIn(w: WalletWorld, es: seq<WalletStep>, u: UserId): nat
    decreases |es|
  {
    if es == [] then 0 else Excess(w, es[0], u) + ExcessIn(Next(w, es[0]), es[1..], u)
  }

  function AvailableIn(w: WalletWorld, u: UserId): nat { Available(w.b.ledger, u, w.now) }

  lemma ApplyingStep(w: WalletWorld, u: UserId, amount: nat)
    requires PendingApply(u, amount) in w.applying && amount > 0
    ensures var e := OnReward(WriteApply(PendingApply(u, amount)));
            AppliedFor(w, e, u) == amount && Granted(w, e, u) == 0 && Excess(w, e, u) == Max(0, amount - AvailableIn(w, u)) &&
            BalanceOf(Next(w, e).b, u) == BalanceOf(w.b, u) - amount && Next(w, e).applying == w.applying &&
            AvailableIn(Next(w, e), u) == Max(0, AvailableIn(w, u) - amount)
  {
  }

  lemma StepSpendsCashback(w: WalletWorld, e: WalletStep, u: UserId)
    requires GrantsPositive(w.b.ledger)
    ensures GrantsPositive(Next(w, e).b.ledger)
    ensures AppliedFor(w, e, u) + AvailableIn(Next(w, e), u) <= AvailableIn(w, u) + Granted(w, e, u) + Excess(w, e, u)
  {
    StepPosts(w, e);
    PostingRaisesAvailable(w.b.ledger, Next(w, e).b.ledger, u, w.now);
    if e.Tick? {
      GrantsOnlyExpire(w.b.ledger, u, w.now, Next(w, e).now);
    } else if AppliedFor(w, e, u) > 0 {
      ApplyingStep(w, u, e.r.apply.amount);
    } else {
      assert Next(w, e).now == w.now;
    }
  }

  /**
   Over any run, the cashback a customer has applied and the cashback still available are together no more than what
   was available at the start and what was granted, but for what late applications took beyond the cashback that was
   left when they were written.
   */
  lemma {:induction false} CashbackIsSpentOnce(w: WalletWorld, es: seq<WalletStep>, u: UserId)
    requires GrantsPositive(w.b.ledger)
    ensures AppliedIn(w, es, u) + AvailableIn(Run(w, es), u) <= AvailableIn(w, u) + GrantedIn(w, es, u) + ExcessIn(w, es, u)
    decreases |es|
  {
    if es != [] {
      StepSpendsCashback(w, es[0], u);
      CashbackIsSpentOnce(Next(w, es[0]), es[1..], u);
    }
  }

  lemma StepsOf(w: WalletWorld, e: WalletStep, es: seq<WalletStep>, u: UserId)
    ensures Run(w, [e] + es) == Run(Next(w, e), es)
    ensures AppliedIn(w, [e] + es, u) == AppliedFor(w, e, u) + AppliedIn(Next(w, e), es, u)
    ensures GrantedIn(w, [e] + es, u) == Granted(w, e, u) + GrantedIn(Next(w, e), es, u)
    ensures ExcessIn(w, [e] + es, u) == Excess(w, e, u) + ExcessIn(Next(w, e), es, u)
  {
    assert ([e] + es)[1..] == es;
  }

  /** Two requests that both read the same cashback spend it twice, and leave the balance short of it. */
  lemma TwoAppliesOnOneRead(w: WalletWorld, u: UserId, amount: nat)
    requires u in w.b.balances && AvailableIn(w, u) == amount > 0
    ensures var read, write := OnReward(ReadApply(u, amount, None)), OnReward(WriteApply(PendingApply(u, amount)));
            var es := [read] + ([read] + ([write] + [write]));
            AppliedIn(w, es, u) == 2 * amount && GrantedIn(w, es, u) == 0 && ExcessIn(w, es, u) == amount &&
            BalanceOf(Run(w, es).b, u) == BalanceOf(w.b, u) - 2 * amount
  {
    var read, write := OnReward(ReadApply(u, amount, None)), OnReward(WriteApply(PendingApply(u, amount)));
    var w1 := Next(w, read);
    assert Next(w1, read) == w1 && w1.b == w.b;
    StepsOf(w, read, [read] + ([write] + [write]), u);
    StepsOf(w1, read, [write] + [write], u);
    StepsOf(w1, write, [write], u);
    ApplyingStep(w1, u, amount);
    assert [write] == [write] + [];
    StepsOf(Next(w1, write), write, [], u);
    ApplyingStep(Next(w1, write), u, amount);
  }

  // ------------------------------------------------------- debits are final

  /** No service ever posts credit under the reason of a checkout debit: what was used stays used. */
  lemma {:induction false} UsedStaysUsed(w: WalletWorld, es: seq<WalletStep>, u: UserId)
    ensures UsedTotal(Run(w, es).b.ledger, u) <= UsedTotal(w.b.ledger, u)
    decreases |es|
  {
    if es != [] {
      var ledger, ledger' := w.b.ledger, Next(w, es[0]).b.ledger;
      StepPosts(w, es[0]);
      if ledger' != ledger { AppendedEntry(ledger, ledger'[|ledger|], u, w.now); }
      UsedStaysUsed(Next(w, es[0]), es[1..], u);
    }
  }

  // ------------------------------------------------- one reward per occasion

  predicate SameOccasion(r: Redemption, s: Redemption) {
    r.order.Some? && r.order == s.order && r.customer == s.customer && r.incentive == s.incentive
  }

  /** No incentive is redeemed twice for the same order. */
  predicate OncePerOrder(redemptions: seq<Redemption>) {
    forall i, j :: 0 <= i < j < |redemptions| ==> !SameOccasion(redemptions[i], redemptions[j])
  }

  /** The write of a reward, made on a check done earlier, keeps that exactly when it was not issued meanwhile. */
  lemma LateIssueKeepsOncePerOrderIff(b: Books, p: PendingIssue)
    requires OncePerOrder(b.redemptions)
    ensures OncePerOrder(IssueWritten(b, p).redemptions) <==> !AlreadyIssued(b.redemptions, p)
  {
    var r := IssueWritten(b, p).redemptions;
    if AlreadyIssued(b.redemptions, p) {
      var i :| 0 <= i < |b.redemptions| && SameOccasion(b.redemptions[i], RedemptionOf(p));
      assert r[i] == b.redemptions[i] && r[|b.redemptions|] == RedemptionOf(p);
    } else {
      forall i | 0 <= i < |b.redemptions| ensures !SameOccasion(r[i], r[|b.redemptions|]) {
      }
    }
  }

  /** The step issues a reward that was issued already. */
  predicate IssuesAgain(w: WalletWorld, e: WalletStep) {
    e.OnReward? && e.r.WriteIssue? && e.r.pending in w.issuing && AlreadyIssued(w.b.redemptions, e.r.pending)
  }

  predicate NothingIssuedAgain(w: WalletWorld, es: seq<WalletStep>)
    decreases |es|
  {
    es == [] || (!IssuesAgain(w, es[0]) && NothingIssuedAgain(Next(w, es[0]), es[1..]))
  }

  lemma StepOncePerOrderIff(w: WalletWorld, e: WalletStep)
    requires OncePerOrder(w.b.redemptions)
    ensures OncePerOrder(Next(w, e).b.redemptions) <==> !IssuesAgain(w, e)
  {
    if e.OnReward? && e.r.WriteIssue? && e.r.pending in w.issuing { LateIssueKeepsOncePerOrderIff(w.b, e.r.pending); }
  }

  lemma {:induction false} TwiceIsForGood(w: WalletWorld, es: seq<WalletStep>)
    requires !OncePerOrder(w.b.redemptions)
    ensures !OncePerOrder(Run(w, es).b.redemptions)
    decreases |es|
  {
    if es != [] {
      StepKeepsRedemptions(w, es[0]);
      assert !OncePerOrder(Next(w, es[0]).b.redemptions);
      TwiceIsForGood(Next(w, es[0]), es[1..]);
    }
  }

  lemma StepKeepsRedemptions(w: WalletWorld, e: WalletStep)
    ensures w.b.redemptions <= Next(w, e).b.redemptions
  {
  }

  /** After any run each incentive has been redeemed at most once per order exactly when no reward was issued late. */
  lemma {:induction false} OncePerOrderIff(w: WalletWorld, es: seq<WalletStep>)
    requires OncePerOrder(w.b.redemptions)
    ensures OncePerOrder(Run(w, es).b.redemptions) <==> NothingIssuedAgain(w, es)
    decreases |es|
  {
    if es != [] {
      StepOncePerOrderIff(w, es[0]);
      if IssuesAgain(w, es[0]) {
        TwiceIsForGood(Next(w, es[0]), es[1..]);
      } else {
        OncePerOrderIff(Next(w, es[0]), es[1..]);
      }
    }
  }

  /** Two passes that both looked before either wrote issue the reward twice. */
  lemma TwoIssuesOnOneCheck(w: WalletWorld, p: PendingIssue)
    requires p.order.Some? && !AlreadyIssued(w.b.redemptions, p)
    ensures var check, write := OnReward(ReadIssue(p)), OnReward(WriteIssue(p));
            var end := Run(w, [check] + ([check] + ([write] + [write])));
            !OncePerOrder(end.b.redemptions) &&
            BalanceOf(end.b, p.customer) == BalanceOf(w.b, p.customer) + 2 * p.amount
  {
    var check, write := OnReward(ReadIssue(p)), OnReward(WriteIssue(p));
    RunStep(w, check, [check] + ([write] + [write]));
    var w1 := Next(w, check);
    RunStep(w1, check, [write] + [write]);
    RunStep(w1, write, [write]);
    var w2 := Next(w1, write);
    assert [write] == [write] + [];
    RunStep(w2, write, []);
    var r, n := Next(w2, write).b.redemptions, |w.b.redemptions|;
    assert r[n] == r[n + 1] == RedemptionOf(p);
  }
}
