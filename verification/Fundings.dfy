/** WalletFundingService: Paystack is called first, the PENDING row comes after. */
module Fundings {
  import opened Options
  import opened Records
  import opened Effects
  import opened Fraud
  import opened Decisions
  import opened Sessions

  class WalletFundingService {
    const session: Session

    constructor (session: Session)
      ensures this.session == session
    {
      this.session := session;
    }

    /** `provider` is the charge reference Paystack returns, None when it is unreachable. */
    method InitiateFunding(user: UserId, amount: int, key: Option<string>, reference: string, provider: Option<string>)
      returns (r: Reply)
      requires session.Clean()
      modifies session
      ensures provider.None? ==> session.db == old(session.db)
      ensures provider.None? ==>
        r == (var s := ScreenFunding(old(session.db), user, amount, key);
              if s.Some? then ReplyTo(old(session.db), s.value) else Raised(External))
      ensures provider.Some? ==> var d := DecideFunding(old(session.db), user, amount, key, reference, provider.value);
        session.db == After(old(session.db), d) && r == ReplyTo(old(session.db), d)
      ensures session.rows == session.db
    {
      var wallet := WalletOf(session.rows, user);
      if !Usable(session.rows, wallet) {
        return Raised(Forbidden);
      }
      if amount < MINIMUM_FUNDING {
        return Raised(BelowMinimum);
      }
      if Truthy(key) {
        var existing := ScalarOneOrNone(session.rows.txns, ByKey(key.value));
        if existing.ManyRows? {
          return Raised(MultipleRows);
        }
        if existing.OneRow? {
          return Transaction(existing.id);
        }
      }
      if provider.None? {
        return Raised(External);
      }
      var id := |session.rows.txns|;
      var inserted := session.CreateTxn(
        Txn(reference, Funding, Pending, amount, None, wallet, user, provider, key, None, session.rows.now));
      if !inserted {
        session.Rollback();
        return Raised(Integrity);
      }
      session.Commit();
      return Transaction(id);
    }
  }
}
