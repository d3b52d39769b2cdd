/** The eight ways a committed handler changes money: what each writes, and the
    guards it holds when it writes.  `Enabled` lists only facts the handlers check
    again under the wallet lock or that never change once true. */
module Effects {
  import opened Options
  import opened Records

  datatype Effect =
    | Move(kind: TxnType, source: WalletId, dest: WalletId, amount: int, user: UserId,
           key: Option<string>, reference: string)
    | OpenFunding(dest: WalletId, amount: int, user: UserId, key: Option<string>, reference: string, provider: string)
    | CreditFunding(txn: TxnId, paid: int)
    | FailFunding(txn: TxnId)
    | Hold(source: WalletId, amount: int, user: UserId, account: AccountId, reference: string)
    | Dispatch(txn: TxnId, code: string, recipient: string)
    | SettlePayout(txn: TxnId)
    | RefundPayout(txn: TxnId)

  predicate Is(db: Db, id: TxnId, kind: TxnType, status: Status) {
    id < |db.txns| && db.txns[id].kind == kind && db.txns[id].status == status
  }

  predicate Enabled(db: Db, e: Effect) {
    match e
    case Move(kind, source, dest, amount, _, key, reference) =>
      && kind in {Transfer, MerchantPayment}
      && source in db.wallets && dest in db.wallets && source != dest
      && 0 < amount <= db.wallets[source].balance
      && Fresh(db.txns, reference, key)
    case OpenFunding(dest, amount, _, key, reference, _) =>
      dest in db.wallets && 0 < amount && Fresh(db.txns, reference, key)
    case CreditFunding(id, paid) =>
      Is(db, id, Funding, Pending) && db.txns[id].dest.Some? && db.txns[id].dest.value in db.wallets && 0 <= paid
    case FailFunding(id) => Is(db, id, Funding, Pending)
    case Hold(source, amount, _, account, reference) =>
      && source in db.wallets
      && 0 < amount <= db.wallets[source].balance
      && Fresh(db.txns, reference, None)
    case Dispatch(id, _, _) =>
      Is(db, id, Withdrawal, Pending) && db.txns[id].account.Some? && db.txns[id].account.value < |db.accounts|
    case SettlePayout(id) =>
      Is(db, id, Withdrawal, Processing) && db.txns[id].source.Some? && db.txns[id].source.value in db.wallets
    case RefundPayout(id) =>
      Is(db, id, Withdrawal, Processing) && db.txns[id].source.Some? && db.txns[id].source.value in db.wallets
  }

  function WithBalance(wallets: map<WalletId, Wallet>, w: WalletId, balance: int): map<WalletId, Wallet>
    requires w in wallets
  {
    wallets[w := wallets[w].(balance := balance)]
  }

  function WithStatus(txns: seq<Txn>, id: TxnId, status: Status): seq<Txn>
    requires id < |txns|
  {
    txns[id := txns[id].(status := status)]
  }

  /** The row an effect inserts, when it inserts one. */
  function NewTxn(db: Db, e: Effect): Txn
    requires e.Move? || e.OpenFunding? || e.Hold?
  {
    match e
    case Move(kind, source, dest, amount, user, key, reference) =>
      Txn(reference, kind, Completed, amount, Some(source), Some(dest), user, None, key, None, db.now)
    case OpenFunding(dest, amount, user, key, reference, provider) =>
      Txn(reference, Funding, Pending, amount, None, Some(dest), user, Some(provider), key, None, db.now)
    case Hold(source, amount, user, account, reference) =>
      Txn(reference, Withdrawal, Pending, amount, Some(source), None, user, None, None, Some(account), db.now)
  }

  function Apply(db: Db, e: Effect): Db
    requires Enabled(db, e)
  {
    match e
    case Move(_, source, dest, amount, _, _, _) =>
      var out, into := db.wallets[source].balance - amount, db.wallets[dest].balance + amount;
      db.(txns := db.txns + [NewTxn(db, e)],
          ledger := db.ledger + [Entry(|db.txns|, source, Debit, amount, out), Entry(|db.txns|, dest, Credit, amount, into)],
          wallets := WithBalance(WithBalance(db.wallets, source, out), dest, into))
    case OpenFunding(_, _, _, _, _, _) =>
      db.(txns := db.txns + [NewTxn(db, e)])
    case CreditFunding(id, paid) =>
      var w := db.txns[id].dest.value;
      var into := db.wallets[w].balance + paid;
      db.(txns := WithStatus(db.txns, id, Completed),
          ledger := db.ledger + [Entry(id, w, Credit, paid, into)],
          wallets := WithBalance(db.wallets, w, into))
    case FailFunding(id) =>
      db.(txns := WithStatus(db.txns, id, Failed))
    case Hold(source, amount, _, _, _) =>
      db.(txns := db.txns + [NewTxn(db, e)],
          wallets := WithBalance(db.wallets, source, db.wallets[source].balance - amount))
    case Dispatch(id, code, recipient) =>
      var a := db.txns[id].account.value;
      db.(txns := db.txns[id := db.txns[id].(status := Processing, provider := Some(code))],
          accounts := db.accounts[a := db.accounts[a].(recipient := recipient)])
    case SettlePayout(id) =>
      var w := db.txns[id].source.value;
      db.(txns := WithStatus(db.txns, id, Completed),
          ledger := db.ledger + [Entry(id, w, Debit, db.txns[id].amount, db.wallets[w].balance)])
    case RefundPayout(id) =>
      var w := db.txns[id].source.value;
      db.(txns := WithStatus(db.txns, id, Failed),
          wallets := WithBalance(db.wallets, w, db.wallets[w].balance + db.txns[id].amount))
  }
}
