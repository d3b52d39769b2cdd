/** Invariants that rest on the guards read without a lock, so they hold when
    handlers run one at a time: one active withdrawal per user, the account it pays
    to, and the daily caps. */
module Guards {
  import opened Options
  import opened Sums
  import opened Records
  import opened Effects
  import opened Fraud
  import opened Ledger
  import opened Decisions

  ghost predicate OneActive(txns: seq<Txn>) {
    forall i, j :: 0 <= i < j < |txns| && Active(txns[i]) && Active(txns[j]) ==> txns[i].user != txns[j].user
  }

  predicate PaysTo(db: Db, t: Txn) {
    t.account.Some? && LiveAccount(db, t.account.value).Some? && LiveAccount(db, t.account.value).value.owner == t.user
  }

  ghost predicate PayoutAccounts(db: Db) {
    forall t :: t in db.txns && Active(t) ==> PaysTo(db, t)
  }

  /** Withdrawals of a day that are settled or still in flight. */
  function Outstanding(user: UserId, day: nat): Txn -> int {
    (t: Txn) => if t.user == user && t.kind == Withdrawal && t.status != Failed && Day(t.createdAt) == day then t.amount else 0
  }

  ghost predicate WithdrawalCap(txns: seq<Txn>) {
    forall user: UserId, day: nat :: Sum(txns, Outstanding(user, day)) <= KYC_TIER2_DAILY_LIMIT
  }

  function CompletedOn(user: UserId, kind: TxnType, day: nat): Txn -> int {
    (t: Txn) => if t.user == user && t.kind == kind && t.status == Completed && Day(t.createdAt) == day then t.amount else 0
  }

  function TierLimit(tier: nat): int {
    if tier == 0 then 0 else if tier == 1 then KYC_TIER1_DAILY_LIMIT else KYC_TIER2_DAILY_LIMIT
  }

  ghost predicate SpendingCap(db: Db, user: UserId, kind: TxnType, day: nat) {
    Sum(db.txns, CompletedOn(user, kind, day)) <= if user in db.users then TierLimit(db.users[user].tier) else 0
  }

  ghost predicate SpendingCaps(db: Db) {
    forall user: UserId, kind, day: nat :: kind in {Transfer, MerchantPayment} ==> SpendingCap(db, user, kind, day)
  }

  ghost predicate Stamped(db: Db) {
    forall t :: t in db.txns ==>
      && t.user in db.users && t.createdAt <= db.now
      && (t.kind == Withdrawal ==> t.source == WalletOf(db, t.user))
  }

  ghost predicate Guarded(db: Db) {
    && Wired(db) && Stamped(db)
    && OneActive(db.txns) && PayoutAccounts(db) && WithdrawalCap(db.txns) && SpendingCaps(db)
  }

  /** What the unlocked guards of a handler had established when it commits. */
  ghost predicate Screened(db: Db, e: Effect) {
    match e
    case Move(kind, _, _, amount, user, _, _) =>
      user in db.users && DailyOutgoingSum(db, user, kind) + amount <= TierLimit(db.users[user].tier)
    case OpenFunding(_, _, user, _, _, _) => user in db.users
    case Hold(source, amount, user, account, _) =>
      && user in db.users && source == db.users[user].wallet
      && (forall t :: t in db.txns && Active(t) ==> t.user != user)
      && LiveAccount(db, account).Some? && LiveAccount(db, account).value.owner == user
      && DailyOutgoingSum(db, user, Withdrawal) + amount <= KYC_TIER2_DAILY_LIMIT
    case _ => true
  }

  // ---- The limit query counts a calendar day -----------------------------------

  lemma SameDay(now: nat, time: nat)
    requires time <= now
    ensures DayStart(now) <= time <==> Day(time) == Day(now)
  {
  }

  lemma DailySumIsToday(db: Db, user: UserId, kind: TxnType)
    requires Stamped(db)
    ensures DailyOutgoingSum(db, user, kind) == Sum(db.txns, CompletedOn(user, kind, Day(db.now)))
  {
    var f, g := CompletedSince(user, kind, DayStart(db.now)), CompletedOn(user, kind, Day(db.now));
    forall i | 0 <= i < |db.txns| ensures f(db.txns[i]) == g(db.txns[i]) {
      SameDay(db.now, db.txns[i].createdAt);
    }
    SameTerms(db.txns, f, g);
  }

  /** With no active withdrawal, what was completed today is all that is outstanding today. */
  lemma NothingInFlight(db: Db, user: UserId)
    requires RowsOk(db) && Stamped(db)
    requires forall t :: t in db.txns && Active(t) ==> t.user != user
    ensures Sum(db.txns, Outstanding(user, Day(db.now))) == DailyOutgoingSum(db, user, Withdrawal)
  {
    DailySumIsToday(db, user, Withdrawal);
    var f, g := Outstanding(user, Day(db.now)), CompletedOn(user, Withdrawal, Day(db.now));
    forall i | 0 <= i < |db.txns| ensures f(db.txns[i]) == g(db.txns[i]) {
      assert TxnOk(db.wallets, db.txns[i]);
    }
    SameTerms(db.txns, f, g);
  }

  // ---- Each effect keeps each guard ---------------------------------------------

  lemma KeepsStamps(db: Db, e: Effect)
    requires RowsOk(db) && Wired(db) && Stamped(db) && Enabled(db, e) && Screened(db, e)
    ensures Wired(Apply(db, e)) && Stamped(Apply(db, e))
  {
    var next := Apply(db, e);
    UntouchedRows(db, e);
    forall t | t in next.txns
      ensures t.user in next.users && t.createdAt <= next.now && (t.kind == Withdrawal ==> t.source == WalletOf(next, t.user))
    {
      var i :| 0 <= i < |next.txns| && next.txns[i] == t;
      if i < |db.txns| {
        assert db.txns[i] in db.txns;
      }
    }
  }

  lemma KeepsOneActive(db: Db, e: Effect)
    requires RowsOk(db) && OneActive(db.txns) && Enabled(db, e) && Screened(db, e)
    ensures OneActive(Apply(db, e).txns)
  {
    var next := Apply(db, e);
    UntouchedRows(db, e);
    forall i, j | 0 <= i < j < |next.txns| && Active(next.txns[i]) && Active(next.txns[j])
      ensures next.txns[i].user != next.txns[j].user
    {
      assert i < |db.txns| && Active(db.txns[i]);
      if j < |db.txns| {
        assert Active(db.txns[j]);
      }
    }
  }

  lemma KeepsAccounts(db: Db, e: Effect)
    requires RowsOk(db) && PayoutAccounts(db) && Enabled(db, e) && Screened(db, e)
    ensures PayoutAccounts(Apply(db, e))
  {
    var next := Apply(db, e);
    UntouchedRows(db, e);
    forall t | t in next.txns && Active(t) ensures PaysTo(next, t) {
      var i :| 0 <= i < |next.txns| && next.txns[i] == t;
      if i < |db.txns| {
        assert db.txns[i] in db.txns && PaysTo(db, db.txns[i]);
      }
    }
  }

  lemma KeepsWithdrawalCap(db: Db, e: Effect)
    requires RowsOk(db) && Stamped(db) && WithdrawalCap(db.txns) && Enabled(db, e) && Screened(db, e)
    ensures WithdrawalCap(Apply(db, e).txns)
  {
    forall user: UserId, day: nat ensures Sum(Apply(db, e).txns, Outstanding(user, day)) <= KYC_TIER2_DAILY_LIMIT {
      RowsAfter(db, e, Outstanding(user, day));
      if e.Hold? {
        NothingInFlight(db, e.user);
      } else if !Inserts(e) {
        assert TxnOk(db.wallets, db.txns[e.txn]);
      }
    }
  }

  lemma KeepsSpendingCap(db: Db, e: Effect, user: UserId, kind: TxnType, day: nat)
    requires RowsOk(db) && Stamped(db) && kind in {Transfer, MerchantPayment} && SpendingCap(db, user, kind, day)
    requires Enabled(db, e) && Screened(db, e)
    ensures SpendingCap(Apply(db, e), user, kind, day)
  {
    RowsAfter(db, e, CompletedOn(user, kind, day));
    if e.Move? {
      DailySumIsToday(db, e.user, e.kind);
    }
  }

  lemma ApplyKeepsGuards(db: Db, e: Effect)
    requires RowsOk(db) && Guarded(db) && Enabled(db, e) && Screened(db, e)
    ensures Guarded(Apply(db, e))
  {
    KeepsStamps(db, e);
    KeepsOneActive(db, e);
    KeepsAccounts(db, e);
    KeepsWithdrawalCap(db, e);
    forall user: UserId, kind, day: nat | kind in {Transfer, MerchantPayment}
      ensures SpendingCap(Apply(db, e), user, kind, day)
    {
      KeepsSpendingCap(db, e, user, kind, day);
    }
  }

  // ---- What the handlers had checked --------------------------------------------

  lemma TransferScreened(db: Db, sender: UserId, recipient: Option<UserId>, amount: int, key: Option<string>, reference: string)
    requires Wired(db) && 0 < amount
    ensures var d := DecideTransfer(db, sender, recipient, amount, key, reference); d.Commit? ==> Screened(db, d.effect)
  {
  }

  lemma PaymentScreened(db: Db, payer: UserId, merchant: Option<Merchant>, amount: int, key: Option<string>, reference: string)
    requires Wired(db) && 0 < amount
    ensures var d := DecidePayment(db, payer, merchant, amount, key, reference); d.Commit? ==> Screened(db, d.effect)
  {
  }

  lemma WithdrawalScreened(db: Db, user: UserId, account: AccountId, amount: int, reference: string)
    requires Wired(db) && 0 < amount
    ensures var d := DecideWithdrawal(db, user, account, amount, reference); d.Commit? ==> Screened(db, d.effect)
  {
    if DecideWithdrawal(db, user, account, amount, reference).Commit? {
      assert ActiveWithdrawal(db, user).NoRow?;
      forall t | t in db.txns && Active(t) ensures t.user != user {
        var i :| 0 <= i < |db.txns| && db.txns[i] == t;
        assert !ActiveOf(user)(db.txns[i]);
      }
    }
  }

  /** `execute_payout` never gives up on a pending withdrawal for want of its account:
      it dispatches unless Paystack refuses to name a recipient. */
  lemma PayoutFindsAccount(db: Db, id: TxnId, code: string, recipient: string)
    requires RowsOk(db) && Guarded(db) && Is(db, id, Withdrawal, Pending) && recipient != ""
    ensures var d := DecidePayout(db, id, code, recipient);
      d.Commit? && LiveAccount(db, db.txns[id].account.value).value.owner == db.txns[id].user
  {
    assert db.txns[id] in db.txns && PaysTo(db, db.txns[id]);
  }
}
