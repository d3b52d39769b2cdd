/** TransferService and MerchantPaymentService: wallet-to-wallet moves. */
module Transfers {
  import opened Options
  import opened Records
  import opened Effects
  import opened Fraud
  import opened Ledger
  import opened Decisions
  import opened Sessions

  /** The writes of a move: the row, its double entry, both balances. */
  method FlushMove(session: Session, e: Effect, sourceAfter: int, destAfter: int) returns (inserted: bool)
    requires e.Move? && e.kind in {Transfer, MerchantPayment} && e.source != e.dest && 0 < e.amount
    requires e.source in session.rows.wallets && e.dest in session.rows.wallets && e.amount <= session.rows.wallets[e.source].balance
    requires sourceAfter == session.rows.wallets[e.source].balance - e.amount
    requires destAfter == session.rows.wallets[e.dest].balance + e.amount
    modifies session`rows
    ensures inserted <==> Fresh(old(session.rows).txns, e.reference, e.key)
    ensures session.rows == if inserted then Apply(old(session.rows), e) else old(session.rows)
  {
    var id := |session.rows.txns|;
    inserted := session.CreateTxn(
      Txn(e.reference, e.kind, Completed, e.amount, Some(e.source), Some(e.dest), e.user, None, e.key, None, session.rows.now));
    if inserted {
      session.PostDoubleEntry(id, e.source, e.dest, e.amount, sourceAfter, destAfter);
      session.UpdateBalance(e.source, sourceAfter);
      session.UpdateBalance(e.dest, destAfter);
    }
  }

  /** From the wallet locks to the commit, with the IntegrityError fallback. */
  method MoveMoney(session: Session, kind: TxnType, source: WalletId, dest: WalletId, amount: int, user: UserId,
                   key: Option<string>, reference: string) returns (r: Reply)
    requires session.rows == session.db && kind in {Transfer, MerchantPayment} && source != dest && 0 < amount
    modifies session
    ensures var d := DecideMove(old(session.db), kind, source, dest, amount, user, key, reference);
      && session.db == After(old(session.db), d) && r == ReplyTo(old(session.db), d) && session.rows == session.db
  {
    var first, second := if source < dest then source else dest, if source < dest then dest else source;
    var lockedFirst := session.LockForUpdate(first);
    var lockedSecond := session.LockForUpdate(second);
    if lockedFirst.None? || lockedSecond.None? {
      return Raised(NotFound);
    }
    var sender, receiver := lockedFirst.value, lockedSecond.value;
    if first != source {
      sender, receiver := lockedSecond.value, lockedFirst.value;
    }
    if sender.balance < amount {
      return Raised(InsufficientBalance);
    }
    var id := |session.rows.txns|;
    var inserted := FlushMove(
      session, Move(kind, source, dest, amount, user, key, reference), sender.balance - amount, receiver.balance + amount);
    if inserted {
      session.Commit();
      return Transaction(id);
    }
    session.Rollback();
    if Truthy(key) {
      var existing := ScalarOneOrNone(session.rows.txns, ByKey(key.value));
      if existing.ManyRows? {
        return Raised(MultipleRows);
      }
      if existing.OneRow? {
        return Transaction(existing.id);
      }
    }
    return Raised(Integrity);
  }

  class TransferService {
    const session: Session

    constructor (session: Session)
      ensures this.session == session
    {
      this.session := session;
    }

    method InitiateTransfer(sender: UserId, recipient: Option<UserId>, amount: int, key: Option<string>, reference: string)
      returns (r: Reply)
      requires session.Clean() && 0 < amount
      modifies session
      ensures var d := DecideTransfer(old(session.db), sender, recipient, amount, key, reference);
        && session.db == After(old(session.db), d) && r == ReplyTo(old(session.db), d) && session.rows == session.db
    {
      var source := WalletOf(session.rows, sender);
      if !Usable(session.rows, source) {
        return Raised(Forbidden);
      }
      if recipient.None? || recipient.value !in session.rows.users || !session.rows.users[recipient.value].active {
        return Raised(NotFound);
      }
      if sender == recipient.value {
        return Raised(SelfTransfer);
      }
      var dest := WalletOf(session.rows, recipient.value);
      if !Usable(session.rows, dest) {
        return Raised(Forbidden);
      }
      if Truthy(key) {
        var existing := ScalarOneOrNone(session.rows.txns, ByKey(key.value));
        if existing.ManyRows? {
          return Raised(MultipleRows);
        }
        if existing.OneRow? {
          return Transaction(existing.id);
        }
      }
      var fraud := CheckTransfer(session.rows, sender, source.value, dest.value, amount);
      if fraud.Some? {
        return Raised(fraud.value);
      }
      OwnWallets(session.db, sender, recipient.value);
      r := MoveMoney(session, Transfer, source.value, dest.value, amount, sender, key, reference);
    }
  }

  class MerchantPaymentService {
    const session: Session

    constructor (session: Session)
      ensures this.session == session
    {
      this.session := session;
    }

    method InitiatePayment(payer: UserId, merchant: Option<Merchant>, amount: int, key: Option<string>, reference: string)
      returns (r: Reply)
      requires session.Clean() && 0 < amount
      modifies session
      ensures var d := DecidePayment(old(session.db), payer, merchant, amount, key, reference);
        && session.db == After(old(session.db), d) && r == ReplyTo(old(session.db), d) && session.rows == session.db
    {
      if merchant.None? {
        return Raised(NotFound);
      }
      if !merchant.value.active {
        return Raised(Forbidden);
      }
      if payer == merchant.value.user {
        return Raised(SelfPayment);
      }
      var source := WalletOf(session.rows, payer);
      if !Usable(session.rows, source) {
        return Raised(Forbidden);
      }
      var dest := WalletOf(session.rows, merchant.value.user);
      if !Usable(session.rows, dest) {
        return Raised(Forbidden);
      }
      if Truthy(key) {
        var existing := ScalarOneOrNone(session.rows.txns, ByKey(key.value));
        if existing.ManyRows? {
          return Raised(MultipleRows);
        }
        if existing.OneRow? {
          return Transaction(existing.id);
        }
      }
      var fraud := CheckMerchantPayment(session.rows, payer, amount);
      if fraud.Some? {
        return Raised(fraud.value);
      }
      OwnWallets(session.db, payer, merchant.value.user);
      r := MoveMoney(session, MerchantPayment, source.value, dest.value, amount, payer, key, reference);
    }
  }
}
