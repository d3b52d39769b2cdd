/** What each service handler decides when it runs alone on a database: the effect
    it commits, the existing transaction it returns, the exception it raises, or
    nothing.  Branches are in the order the services take them. */
module Decisions {
  import opened Options
  import opened Records
  import opened Effects
  import opened Fraud
  import opened Ledger

  datatype Decision = Commit(effect: Effect) | Return(txn: TxnId) | Raise(error: Error) | Skip

  function After(db: Db, d: Decision): Db
    requires d.Commit? ==> Enabled(db, d.effect)
  {
    if d.Commit? then Apply(db, d.effect) else db
  }

  /** Every user owns exactly the wallet created with the account. */
  ghost predicate Wired(db: Db) {
    forall u :: u in db.users ==> db.users[u].wallet in db.wallets && db.wallets[db.users[u].wallet].owner == u
  }

  /** Different users never share a wallet. */
  lemma OwnWallets(db: Db, sender: UserId, receiver: UserId)
    requires Wired(db) && sender in db.users && receiver in db.users && sender != receiver
    ensures db.users[sender].wallet != db.users[receiver].wallet
  {
    assert db.wallets[db.users[sender].wallet].owner == sender;
  }

  // ---- Transfers and merchant payments -------------------------------------

  /** The idempotency lookup before any write: None means go on. */
  function Replay(db: Db, key: Option<string>): Option<Decision> {
    if !Truthy(key) then None
    else match ScalarOneOrNone(db.txns, ByKey(key.value))
      case NoRow => None
      case OneRow(id) => Some(Return(id))
      case ManyRows => Some(Raise(MultipleRows))
  }

  /** After a unique violation: return the transaction the key belongs to, else re-raise. */
  function OnIntegrityError(db: Db, key: Option<string>): Decision {
    var existing := Replay(db, key);
    if existing.Some? then existing.value else Raise(Integrity)
  }

  /** The section under the two wallet locks. */
  function DecideMove(db: Db, kind: TxnType, source: WalletId, dest: WalletId, amount: int, user: UserId,
                      key: Option<string>, reference: string): Decision
  {
    if source !in db.wallets || dest !in db.wallets then Raise(NotFound)
    else if db.wallets[source].balance < amount then Raise(InsufficientBalance)
    else if !Fresh(db.txns, reference, key) then OnIntegrityError(db, key)
    else Commit(Move(kind, source, dest, amount, user, key, reference))
  }

  function DecideTransfer(db: Db, sender: UserId, recipient: Option<UserId>, amount: int,
                          key: Option<string>, reference: string): (d: Decision)
    requires Wired(db) && 0 < amount
    ensures d.Commit? ==>
      && Enabled(db, d.effect)
      && sender in db.users && recipient.Some? && recipient.value in db.users
      && d.effect == Move(Transfer, db.users[sender].wallet, db.users[recipient.value].wallet, amount, sender, key, reference)
  {
    var source := WalletOf(db, sender);
    if !Usable(db, source) then Raise(Forbidden)
    else if recipient.None? || recipient.value !in db.users || !db.users[recipient.value].active then Raise(NotFound)
    else if sender == recipient.value then Raise(SelfTransfer)
    else
      var dest := WalletOf(db, recipient.value);
      if !Usable(db, dest) then Raise(Forbidden)
      else
        var existing := Replay(db, key);
        if existing.Some? then existing.value
        else
          var fraud := CheckTransfer(db, sender, source.value, dest.value, amount);
          if fraud.Some? then Raise(fraud.value)
          else
            OwnWallets(db, sender, recipient.value);
            DecideMove(db, Transfer, source.value, dest.value, amount, sender, key, reference)
  }

  function DecidePayment(db: Db, payer: UserId, merchant: Option<Merchant>, amount: int,
                         key: Option<string>, reference: string): (d: Decision)
    requires Wired(db) && 0 < amount
    ensures d.Commit? ==>
      && Enabled(db, d.effect)
      && payer in db.users && merchant.Some? && merchant.value.user in db.users
      && d.effect == Move(MerchantPayment, db.users[payer].wallet, db.users[merchant.value.user].wallet, amount, payer, key, reference)
  {
    if merchant.None? then Raise(NotFound)
    else if !merchant.value.active then Raise(Forbidden)
    else if payer == merchant.value.user then Raise(SelfPayment)
    else
      var source, dest := WalletOf(db, payer), WalletOf(db, merchant.value.user);
      if !Usable(db, source) || !Usable(db, dest) then Raise(Forbidden)
      else
        var existing := Replay(db, key);
        if existing.Some? then existing.value
        else
          var fraud := CheckMerchantPayment(db, payer, amount);
          if fraud.Some? then Raise(fraud.value)
          else
            OwnWallets(db, payer, merchant.value.user);
            DecideMove(db, MerchantPayment, source.value, dest.value, amount, payer, key, reference)
  }

  // ---- Funding --------------------------------------------------------------

  const MINIMUM_FUNDING := 100 * KOBO

  /** Everything before the call to Paystack: None means Paystack is called. */
  function ScreenFunding(db: Db, user: UserId, amount: int, key: Option<string>): Option<Decision> {
    if !Usable(db, WalletOf(db, user)) then Some(Raise(Forbidden))
    else if amount < MINIMUM_FUNDING then Some(Raise(BelowMinimum))
    else Replay(db, key)
  }

  /** After Paystack answered with the charge's reference. */
  function DecideFunding(db: Db, user: UserId, amount: int, key: Option<string>, reference: string, provider: string): (d: Decision)
    requires Wired(db)
    ensures d.Commit? ==>
      && Enabled(db, d.effect)
      && user in db.users && d.effect == OpenFunding(db.users[user].wallet, amount, user, key, reference, provider)
  {
    var screened := ScreenFunding(db, user, amount, key);
    if screened.Some? then screened.value
    else if !Fresh(db.txns, reference, key) then Raise(Integrity)
    else Commit(OpenFunding(WalletOf(db, user).value, amount, user, key, reference, provider))
  }

  /** A charge event can only ever credit a funding: no other row waits as PENDING
      with a provider reference. */
  function DecideCharge(db: Db, provider: string, paid: nat): (d: Decision)
    requires RowsOk(db)
    ensures d.Commit? ==> d.effect.CreditFunding? && d.effect.paid == paid && Enabled(db, d.effect)
                          && db.txns[d.effect.txn].provider == Some(provider)
  {
    if provider == "" then Skip
    else match ScalarOneOrNone(db.txns, ByProvider(provider))
      case NoRow => Skip
      case ManyRows => Raise(MultipleRows)
      case OneRow(id) =>
        var t := db.txns[id];
        assert TxnOk(db.wallets, t);
        if t.status != Pending then Skip
        else if t.dest.None? || t.dest.value !in db.wallets then Skip
        else Commit(CreditFunding(id, paid))
  }

  const STALE_SECONDS := 30 * 60

  /** The reconciliation query, less the status, which is read again later. */
  predicate StaleFunding(db: Db, id: TxnId) {
    && id < |db.txns| && db.txns[id].kind == Funding && db.txns[id].provider.Some?
    && db.txns[id].createdAt + STALE_SECONDS <= db.now
  }

  /** `verified` is the amount Paystack reports paid, or None for any other status. */
  function DecideReconcile(db: Db, id: TxnId, provider: string, verified: Option<nat>): (d: Decision)
    requires RowsOk(db) && StaleFunding(db, id)
    ensures d.Commit? ==> Enabled(db, d.effect)
  {
    if verified.Some? then DecideCharge(db, provider, verified.value)
    else if id < |db.txns| && db.txns[id].status == Pending then Commit(FailFunding(id))
    else Skip
  }

  // ---- Withdrawals ----------------------------------------------------------

  function ActiveWithdrawal(db: Db, user: UserId): Rows {
    ScalarOneOrNone(db.txns, ActiveOf(user))
  }

  /** The section under the wallet lock. */
  function DecideHold(db: Db, source: WalletId, amount: int, user: UserId, account: AccountId, reference: string): Decision {
    if source !in db.wallets then Raise(Forbidden)
    else if db.wallets[source].balance < amount then Raise(InsufficientBalance)
    else if !Fresh(db.txns, reference, None) then Raise(Integrity)
    else Commit(Hold(source, amount, user, account, reference))
  }

  function DecideWithdrawal(db: Db, user: UserId, account: AccountId, amount: int, reference: string): (d: Decision)
    requires Wired(db) && 0 < amount
    ensures d.Commit? ==>
      && Enabled(db, d.effect)
      && user in db.users && d.effect == Hold(db.users[user].wallet, amount, user, account, reference)
  {
    var source := WalletOf(db, user);
    if !Usable(db, source) then Raise(Forbidden)
    else
      var fraud := CheckWithdrawal(db, user, amount);
      if fraud.Some? then Raise(fraud.value)
      else if ActiveWithdrawal(db, user).ManyRows? then Raise(MultipleRows)
      else if ActiveWithdrawal(db, user).OneRow? then Raise(AlreadyPending)
      else
        var row := LiveAccount(db, account);
        if row.None? || row.value.owner != user then Raise(NotFound)
        else DecideHold(db, source.value, amount, user, account, reference)
  }

  /** `recipient` is the code Paystack gives a new recipient, `code` the transfer code. */
  function DecidePayout(db: Db, id: TxnId, code: string, recipient: string): (d: Decision)
    requires RowsOk(db)
    ensures d.Commit? ==>
      && Enabled(db, d.effect)
      && id < |db.txns| && db.txns[id].account.Some? && db.txns[id].account.value < |db.accounts|
      && var cached := db.accounts[db.txns[id].account.value].recipient;
         d.effect == Dispatch(id, code, if cached != "" then cached else recipient)
  {
    if id >= |db.txns| then Skip
    else
      var t := db.txns[id];
      assert TxnOk(db.wallets, t);
      if t.status in {Completed, Failed} then Skip
      else if t.status == Processing && t.provider.Some? then Skip
      else if t.account.None? then Skip
      else
        var row := LiveAccount(db, t.account.value);
        if row.None? then Skip
        else
          var known := if row.value.recipient != "" then row.value.recipient else recipient;
          if known == "" then Raise(External) else Commit(Dispatch(id, code, known))
  }

  /** A transfer event can only touch a withdrawal: nothing else is ever PROCESSING. */
  function DecidePayoutResult(db: Db, reference: string, succeeded: bool): (d: Decision)
    requires RowsOk(db)
    ensures d.Commit? ==> (d.effect.SettlePayout? || d.effect.RefundPayout?) && Enabled(db, d.effect)
                          && db.txns[d.effect.txn].reference == reference
                          && d.effect == if succeeded then SettlePayout(d.effect.txn) else RefundPayout(d.effect.txn)
  {
    match ScalarOneOrNone(db.txns, ByReference(reference))
    case NoRow => Skip
    case ManyRows => Raise(MultipleRows)
    case OneRow(id) =>
      var t := db.txns[id];
      assert TxnOk(db.wallets, t);
      if t.status != Processing then Skip
      else if t.source.None? || t.source.value !in db.wallets then Skip
      else Commit(if succeeded then SettlePayout(id) else RefundPayout(id))
  }

  datatype TransferEvent = TransferSuccess | TransferFailed | TransferReversed | OtherEvent

  function DecideTransferEvent(db: Db, event: TransferEvent, reference: string): (d: Decision)
    requires RowsOk(db)
    ensures d.Commit? ==> (d.effect.SettlePayout? || d.effect.RefundPayout?) && Enabled(db, d.effect)
                          && db.txns[d.effect.txn].reference == reference
                          && (d.effect.SettlePayout? <==> event == TransferSuccess)
  {
    if reference == "" || event == OtherEvent then Skip
    else DecidePayoutResult(db, reference, event == TransferSuccess)
  }

  // ---- What the caller gets ---------------------------------------------------

  datatype Reply = Transaction(id: TxnId) | Raised(error: Error) | Nothing

  function ReplyTo(db: Db, d: Decision): Reply {
    match d
    case Commit(e) => if Inserts(e) then Transaction(|db.txns|) else Nothing
    case Return(id) => Transaction(id)
    case Raise(error) => Raised(error)
    case Skip => Nothing
  }
}
