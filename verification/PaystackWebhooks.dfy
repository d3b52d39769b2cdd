/** PaystackWebhookService: what an inbound Paystack event does. */
module PaystackWebhooks {
  import opened Options
  import opened Records
  import opened Effects
  import opened Fraud
  import opened Ledger
  import opened Decisions
  import opened Sessions
  import opened Withdrawals

  /** The wallet credit of a funding that is already PROCESSING in this session. */
  method CreditWallet(session: Session, id: TxnId, wallet: WalletId, balance: int, paid: nat)
    requires id < |session.rows.txns| && session.rows.txns[id].status == Processing && wallet in session.rows.wallets
    modifies session`rows
    ensures session.rows == old(session.rows).(
      txns := WithStatus(old(session.rows).txns, id, Completed),
      ledger := old(session.rows).ledger + [Entry(id, wallet, Credit, paid, balance)],
      wallets := WithBalance(old(session.rows).wallets, wallet, balance))
  {
    session.UpdateBalance(wallet, balance);
    session.CreateEntry(Entry(id, wallet, Credit, paid, balance));
    var done := session.UpdateStatus(id, Completed);
  }

  class PaystackWebhookService {
    const session: Session

    constructor (session: Session)
      ensures this.session == session
    {
      this.session := session;
    }

    method ProcessChargeSuccess(provider: string, paid: nat) returns (r: Reply)
      requires session.Clean()
      modifies session
      ensures var d := DecideCharge(old(session.db), provider, paid);
        && session.db == After(old(session.db), d) && r == ReplyTo(old(session.db), d) && session.rows == session.db
    {
      if provider == "" {
        return Nothing;
      }
      var found := ScalarOneOrNone(session.rows.txns, ByProvider(provider));
      if found.ManyRows? {
        return Raised(MultipleRows);
      }
      if found.NoRow? {
        return Nothing;
      }
      var id := found.id;
      var txn := session.rows.txns[id];
      if txn.status == Completed {
        return Nothing;
      }
      if txn.status != Pending {
        return Nothing;
      }
      assert TxnOk(session.db.wallets, txn);
      var begun := session.UpdateStatus(id, Processing);
      // A PENDING row with a provider reference is a funding into an existing wallet, so
      // neither of the two returns that would leave it flushed as PROCESSING is taken.
      if txn.dest.None? {
        assert false;
      }
      var wallet := session.LockForUpdate(txn.dest.value);
      if wallet.None? {
        assert false;
      }
      CreditWallet(session, id, txn.dest.value, wallet.value.balance + paid, paid);
      session.Commit();
      return Nothing;
    }

    method ProcessTransferResult(event: TransferEvent, reference: string) returns (r: Reply)
      requires session.Clean()
      modifies session
      ensures var d := DecideTransferEvent(old(session.db), event, reference);
        && session.db == After(old(session.db), d) && r == ReplyTo(old(session.db), d) && session.rows == session.db
    {
      r := Nothing;
      if reference == "" {
        return;
      }
      var withdrawals := new WithdrawalService(session);
      if event == TransferSuccess {
        r := withdrawals.ProcessPayoutSuccess(reference);
      } else if event == TransferFailed || event == TransferReversed {
        r := withdrawals.ProcessPayoutFailure(reference);
      }
    }
  }
}
