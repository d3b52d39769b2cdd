/** WithdrawalService: the balance hold, the payout and its outcome. */
module Withdrawals {
  import opened Options
  import opened Records
  import opened Effects
  import opened Fraud
  import opened Ledger
  import opened Decisions
  import opened Sessions

  class WithdrawalService {
    const session: Session

    constructor (session: Session)
      ensures this.session == session
    {
      this.session := session;
    }

    method InitiateWithdrawal(user: UserId, account: AccountId, amount: int, reference: string) returns (r: Reply)
      requires session.Clean() && 0 < amount
      modifies session
      ensures var d := DecideWithdrawal(old(session.db), user, account, amount, reference);
        && session.db == After(old(session.db), d) && r == ReplyTo(old(session.db), d) && session.rows == session.db
    {
      var wallet := WalletOf(session.rows, user);
      if !Usable(session.rows, wallet) {
        return Raised(Forbidden);
      }
      var fraud := CheckWithdrawal(session.rows, user, amount);
      if fraud.Some? {
        return Raised(fraud.value);
      }
      var active := ScalarOneOrNone(session.rows.txns, ActiveOf(user));
      if active.ManyRows? {
        return Raised(MultipleRows);
      }
      if active.OneRow? {
        return Raised(AlreadyPending);
      }
      var row := LiveAccount(session.rows, account);
      if row.None? || row.value.owner != user {
        return Raised(NotFound);
      }
      var locked := session.LockForUpdate(wallet.value);
      if locked.None? {
        return Raised(Forbidden);
      }
      if locked.value.balance < amount {
        return Raised(InsufficientBalance);
      }
      var id := |session.rows.txns|;
      var inserted := session.CreateTxn(
        Txn(reference, Withdrawal, Pending, amount, wallet, None, user, None, None, Some(account), session.rows.now));
      if !inserted {
        session.Rollback();
        return Raised(Integrity);
      }
      session.UpdateBalance(wallet.value, locked.value.balance - amount);
      session.Commit();
      return Transaction(id);
    }

    method ProcessPayoutSuccess(reference: string) returns (r: Reply)
      requires session.Clean()
      modifies session
      ensures var d := DecidePayoutResult(old(session.db), reference, true);
        && session.db == After(old(session.db), d) && r == ReplyTo(old(session.db), d) && session.rows == session.db
    {
      var found := ScalarOneOrNone(session.rows.txns, ByReference(reference));
      if found.ManyRows? {
        return Raised(MultipleRows);
      }
      if found.NoRow? {
        return Nothing;
      }
      var id := found.id;
      var txn := session.rows.txns[id];
      if txn.status == Completed {
        return Nothing;
      }
      if txn.status != Processing || txn.source.None? {
        return Nothing;
      }
      var wallet := session.LockForUpdate(txn.source.value);
      if wallet.None? {
        return Nothing;
      }
      session.CreateEntry(Entry(id, txn.source.value, Debit, txn.amount, wallet.value.balance));
      var done := session.UpdateStatus(id, Completed);
      session.Commit();
      return Nothing;
    }

    method ProcessPayoutFailure(reference: string) returns (r: Reply)
      requires session.Clean()
      modifies session
      ensures var d := DecidePayoutResult(old(session.db), reference, false);
        && session.db == After(old(session.db), d) && r == ReplyTo(old(session.db), d) && session.rows == session.db
    {
      var found := ScalarOneOrNone(session.rows.txns, ByReference(reference));
      if found.ManyRows? {
        return Raised(MultipleRows);
      }
      if found.NoRow? {
        return Nothing;
      }
      var id := found.id;
      var txn := session.rows.txns[id];
      if txn.status == Failed {
        return Nothing;
      }
      if txn.status != Processing || txn.source.None? {
        return Nothing;
      }
      var wallet := session.LockForUpdate(txn.source.value);
      if wallet.None? {
        return Nothing;
      }
      session.UpdateBalance(txn.source.value, wallet.value.balance + txn.amount);
      var done := session.UpdateStatus(id, Failed);
      session.Commit();
      return Nothing;
    }

    /** `recipient` and `code` are Paystack's answers, None when a call raises.  A call
        that raises, or a worker that dies before the commit, leaves the row PENDING. */
    method ExecutePayout(id: TxnId, recipient: Option<string>, code: Option<string>) returns (r: Reply)
      requires session.Clean()
      modifies session
      ensures session.rows == session.db
      ensures code.Some? ==>
        (var d := DecidePayout(old(session.db), id, code.value, if recipient.Some? then recipient.value else "");
         session.db == After(old(session.db), d) && r == ReplyTo(old(session.db), d))
      ensures code.None? ==> session.db == old(session.db)
      ensures code.None? ==>
        (var d := DecidePayout(old(session.db), id, "", if recipient.Some? then recipient.value else "");
         r == if d.Commit? then Raised(External) else ReplyTo(old(session.db), d))
    {
      if id >= |session.rows.txns| {
        return Nothing;
      }
      var txn := session.rows.txns[id];
      assert TxnOk(session.db.wallets, txn);
      if txn.status in {Completed, Failed} {
        return Nothing;
      }
      if txn.status == Processing && txn.provider.Some? {
        return Nothing;
      }
      if txn.account.None? {
        return Nothing;
      }
      var a := txn.account.value;
      var row := LiveAccount(session.rows, a);
      if row.None? {
        return Nothing;
      }
      var known := row.value.recipient;
      if known == "" {
        if recipient.None? || recipient.value == "" {
          return Raised(External);
        }
        known := recipient.value;
        session.rows := session.rows.(accounts := session.rows.accounts[a := session.rows.accounts[a].(recipient := known)]);
      }
      if txn.status == Pending {
        var begun := session.UpdateStatus(id, Processing);
      }
      if code.None? {
        session.Rollback();
        return Raised(External);
      }
      session.rows := session.rows.(txns := session.rows.txns[id := session.rows.txns[id].(provider := code)]);
      session.Commit();
      return Nothing;
    }
  }
}
