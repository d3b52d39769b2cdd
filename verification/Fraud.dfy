/** Synchronous limits: KYC tier, single amount, daily volume, duplicate transfer. */
module Fraud {
  import opened Options
  import opened Sums
  import opened Records

  datatype Error =
    | Forbidden | NotFound | SelfTransfer | SelfPayment | KycTier | DailyLimit | DuplicateTransfer | InsufficientBalance
    | AlreadyPending | BelowMinimum | Integrity | MultipleRows | External

  const KOBO := 100
  const KYC_TIER1_DAILY_LIMIT := 50_000 * KOBO
  const KYC_TIER2_DAILY_LIMIT := 500_000 * KOBO
  const KYC_TIER1_SINGLE_LIMIT := 50_000 * KOBO
  const KYC_TIER2_SINGLE_LIMIT := 500_000 * KOBO
  const DUPLICATE_WINDOW_SECONDS := 60
  const SECONDS_PER_DAY := 86_400

  function DayStart(now: nat): nat { now - now % SECONDS_PER_DAY }
  function Day(time: nat): nat { time / SECONDS_PER_DAY }

  function CompletedSince(user: UserId, kind: TxnType, start: nat): Txn -> int {
    (t: Txn) => if t.user == user && t.kind == kind && t.status == Completed && start <= t.createdAt then t.amount else 0
  }

  function DailyOutgoingSum(db: Db, user: UserId, kind: TxnType): int {
    Sum(db.txns, CompletedSince(user, kind, DayStart(db.now)))
  }

  predicate RecentTransfer(db: Db, t: Txn, source: WalletId, dest: WalletId, amount: int) {
    && t.source == Some(source) && t.dest == Some(dest) && t.amount == amount && t.kind == Transfer
    && db.now - DUPLICATE_WINDOW_SECONDS <= t.createdAt
  }

  function EnforceSingleLimit(tier: nat, amount: int): Option<Error> {
    if tier == 0 then Some(KycTier)
    else if amount > (if tier == 1 then KYC_TIER1_SINGLE_LIMIT else KYC_TIER2_SINGLE_LIMIT) then Some(KycTier)
    else None
  }

  function EnforceDailyLimit(db: Db, user: UserId, tier: nat, amount: int, kind: TxnType): Option<Error> {
    var limit := if tier == 1 then KYC_TIER1_DAILY_LIMIT else KYC_TIER2_DAILY_LIMIT;
    if DailyOutgoingSum(db, user, kind) + amount > limit then Some(DailyLimit) else None
  }

  function CheckMerchantPayment(db: Db, user: UserId, amount: int): Option<Error>
    requires user in db.users
  {
    var tier := db.users[user].tier;
    var single := EnforceSingleLimit(tier, amount);
    if single.Some? then single else EnforceDailyLimit(db, user, tier, amount, MerchantPayment)
  }

  function CheckTransfer(db: Db, user: UserId, source: WalletId, dest: WalletId, amount: int): Option<Error>
    requires user in db.users
  {
    var tier := db.users[user].tier;
    var single := EnforceSingleLimit(tier, amount);
    if single.Some? then single
    else
      var daily := EnforceDailyLimit(db, user, tier, amount, Transfer);
      if daily.Some? then daily
      else if exists t :: t in db.txns && RecentTransfer(db, t, source, dest, amount) then Some(DuplicateTransfer)
      else None
  }

  function CheckWithdrawal(db: Db, user: UserId, amount: int): Option<Error>
    requires user in db.users
  {
    var tier := db.users[user].tier;
    if tier < 2 then Some(KycTier)
    else
      var single := EnforceSingleLimit(tier, amount);
      if single.Some? then single else EnforceDailyLimit(db, user, tier, amount, Withdrawal)
  }
}
