/** What the invariants mean for a reader: statements about every run from the empty
    database, and about what one handler does and another undoes. */
module Theorems {
  import opened Options
  import opened Sums
  import opened Records
  import opened Effects
  import opened Fraud
  import opened Ledger
  import opened Decisions
  import opened Guards
  import opened System
  import opened Outcomes

  /** In every run each balance is nonnegative and is credits less debits less holds. */
  lemma EveryBalance(rs: seq<Request>, w: WalletId)
    requires w in Run(Empty(), rs).wallets
    ensures var db := Run(Empty(), rs);
      0 <= db.wallets[w].balance == Sum(db.ledger, SignedOn(w)) - Sum(db.txns, HeldOn(w))
  {
  }

  /** In every run the ledger holds for each transaction exactly what its status calls for. */
  lemma EveryPosting(rs: seq<Request>, id: TxnId)
    requires id < |Run(Empty(), rs).txns|
    ensures var db := Run(Empty(), rs); PostingsMatch(db.txns[id], Strip(Postings(db.ledger, id)))
  {
  }

  /** In every run each balance snapshot lies between 0 and the wallet's running ledger
      sum, and is that sum for a wallet that never withdrew. */
  lemma EverySnapshot(rs: seq<Request>, k: nat)
    requires k < |Run(Empty(), rs).ledger|
    ensures SnapshotOk(Run(Empty(), rs), k)
  {
  }

  /** In every run the money in wallets and holds is what fundings brought in less what
      withdrawals took out. */
  lemma EveryTotal(rs: seq<Request>)
    ensures var db := Run(Empty(), rs);
      Total(Balances(db.wallets)) + Sum(db.txns, Held) == Sum(Inflows(db), Itself) - Sum(db.txns, PaidOut)
  {
    Conservation(Run(Empty(), rs));
  }

  /** In every run a user's withdrawals of one day, settled or in flight, respect the cap. */
  lemma EveryWithdrawalDay(rs: seq<Request>, user: UserId, day: nat)
    ensures Sum(Run(Empty(), rs).txns, Outstanding(user, day)) <= KYC_TIER2_DAILY_LIMIT
  {
  }

  /** In every run a day's transfers, and a day's payments, stay within the cap of the
      user's present tier, and are nothing at tier 0. */
  lemma EverySpendingDay(rs: seq<Request>, user: UserId, kind: TxnType, day: nat)
    requires kind in {Transfer, MerchantPayment} && user in Run(Empty(), rs).users
    ensures Sum(Run(Empty(), rs).txns, CompletedOn(user, kind, day)) <= TierLimit(Run(Empty(), rs).users[user].tier)
  {
    assert SpendingCap(Run(Empty(), rs), user, kind, day);
  }

  // ---- Repeated transfers ----------------------------------------------------------------

  /** No transfer is made again, from the same wallet to the same one for the same amount,
      within sixty seconds. */
  ghost predicate Apart(txns: seq<Txn>) {
    forall i, j :: 0 <= i < j < |txns| && txns[i].kind == Transfer && txns[j].kind == Transfer
                   && (txns[i].source, txns[i].dest, txns[i].amount) == (txns[j].source, txns[j].dest, txns[j].amount) ==>
      txns[i].createdAt + 60 < txns[j].createdAt
  }

  lemma EffectKeepsApart(db: Db, e: Effect)
    requires Apart(db.txns) && Enabled(db, e)
    requires e.Move? && e.kind == Transfer ==> !Repeats(db.txns, db.now, e.source, e.dest, e.amount)
    ensures Apart(Apply(db, e).txns)
  {
    var next := Apply(db, e).txns;
    UntouchedRows(db, e);
    forall i, j | 0 <= i < j < |next| && next[i].kind == Transfer && next[j].kind == Transfer
                  && (next[i].source, next[i].dest, next[i].amount) == (next[j].source, next[j].dest, next[j].amount)
      ensures next[i].createdAt + 60 < next[j].createdAt
    {
      if j == |db.txns| {
        assert SameMove(db.txns[i], e.source, e.dest, e.amount);
      }
    }
  }

  lemma DecisionKeepsApart(db: Db, r: Request)
    requires RowsOk(db) && UniqueColumns(db.txns) && Wired(db) && Stamped(db) && Apart(db.txns) && Money(r) && Admissible(db, r)
    requires Decide(db, r).Commit?
    ensures Apart(Apply(db, Decide(db, r).effect).txns)
  {
    if r.StartTransfer? {
      TransferOutcome(db, r.user, r.receiver, r.amount, r.key, r.reference);
    }
    EffectKeepsApart(db, Decide(db, r).effect);
  }

  lemma ServeKeepsApart(db: Db, r: Request)
    requires RowsOk(db) && UniqueColumns(db.txns) && Wired(db) && Stamped(db) && Apart(db.txns)
    ensures Apart(Serve(db, r).txns)
  {
    if !Money(r) {
      OtherKeepsRows(db, r);
    } else if Admissible(db, r) && Decide(db, r).Commit? {
      DecisionKeepsApart(db, r);
    }
  }

  lemma {:induction false} RunKeepsApart(db: GoodDb, rs: seq<Request>)
    requires Apart(db.txns)
    ensures Apart(Run(db, rs).txns)
    decreases |rs|
  {
    if rs != [] {
      ServeKeepsApart(db, rs[0]);
      RunKeepsApart(Next(db, rs[0]), rs[1..]);
    }
  }

  /** In every run, equal transfers lie more than sixty seconds apart. */
  lemma EveryTransferApart(rs: seq<Request>)
    ensures Apart(Run(Empty(), rs).txns)
  {
    RunKeepsApart(Empty(), rs);
  }

  // ---- One handler -------------------------------------------------------------------

  /** What a committed move leaves: one COMPLETED row, the amount out of one wallet and into
      the other with a debit and a credit that say so, and nothing else. */
  ghost predicate MoveMade(db: Db, after: Db, kind: TxnType, from: WalletId, to: WalletId, amount: int, user: UserId,
                           key: Option<string>, reference: string)
  {
    && from in db.wallets && to in db.wallets && from != to && from in after.wallets && to in after.wallets
    && after.wallets[from] == db.wallets[from].(balance := db.wallets[from].balance - amount)
    && after.wallets[to] == db.wallets[to].(balance := db.wallets[to].balance + amount)
    && after.wallets - {from, to} == db.wallets - {from, to}
    && after.txns == db.txns + [Txn(reference, kind, Completed, amount, Some(from), Some(to), user, None, key, None, db.now)]
    && after.ledger == db.ledger + [Entry(|db.txns|, from, Debit, amount, after.wallets[from].balance),
                                    Entry(|db.txns|, to, Credit, amount, after.wallets[to].balance)]
    && after == db.(txns := after.txns, ledger := after.ledger, wallets := after.wallets)
  }

  /** A committed transfer takes the amount from the sender's wallet, gives it to the
      recipient's, touches no other wallet, and answers with the new row. */
  lemma TransferMoves(db: Db, sender: UserId, recipient: Option<UserId>, amount: int, key: Option<string>, reference: string)
    requires Wired(db) && 0 < amount && DecideTransfer(db, sender, recipient, amount, key, reference).Commit?
    ensures var d := DecideTransfer(db, sender, recipient, amount, key, reference);
      && sender in db.users && recipient.Some? && recipient.value in db.users
      && MoveMade(db, After(db, d), Transfer, db.users[sender].wallet, db.users[recipient.value].wallet, amount, sender, key, reference)
      && ReplyTo(db, d) == Transaction(|db.txns|)
  {
    OwnWallets(db, sender, recipient.value);
  }

  /** A committed payment does the same for payer and merchant. */
  lemma PaymentMoves(db: Db, payer: UserId, merchant: Option<Merchant>, amount: int, key: Option<string>, reference: string)
    requires Wired(db) && 0 < amount && DecidePayment(db, payer, merchant, amount, key, reference).Commit?
    ensures var d := DecidePayment(db, payer, merchant, amount, key, reference);
      && payer in db.users && merchant.Some? && merchant.value.user in db.users
      && MoveMade(db, After(db, d), MerchantPayment, db.users[payer].wallet, db.users[merchant.value.user].wallet, amount, payer,
                  key, reference)
      && ReplyTo(db, d) == Transaction(|db.txns|)
  {
    OwnWallets(db, payer, merchant.value.user);
  }

  /** A committed funding request only adds a PENDING row for the amount asked, under the
      charge reference Paystack gave. */
  lemma FundingOpens(db: Db, user: UserId, amount: int, key: Option<string>, reference: string, provider: string)
    requires Wired(db) && DecideFunding(db, user, amount, key, reference, provider).Commit?
    ensures var d := DecideFunding(db, user, amount, key, reference, provider);
      && user in db.users && ReplyTo(db, d) == Transaction(|db.txns|)
      && After(db, d) == db.(txns := db.txns +
           [Txn(reference, Funding, Pending, amount, None, Some(db.users[user].wallet), user, Some(provider), key, None, db.now)])
  {
  }

  /** A committed withdrawal request lowers the user's wallet by exactly the amount, touches no
      other wallet and no ledger, and adds a PENDING row for that amount and account. */
  lemma WithdrawalHolds(db: Db, user: UserId, account: AccountId, amount: int, reference: string)
    requires Wired(db) && 0 < amount && DecideWithdrawal(db, user, account, amount, reference).Commit?
    ensures var d := DecideWithdrawal(db, user, account, amount, reference); var after := After(db, d);
      && user in db.users && ReplyTo(db, d) == Transaction(|db.txns|)
      && var w := db.users[user].wallet;
         && w in db.wallets && w in after.wallets && after.wallets[w].balance == db.wallets[w].balance - amount
         && after.wallets - {w} == db.wallets - {w}
         && after.txns == db.txns +
              [Txn(reference, Withdrawal, Pending, amount, Some(w), None, user, None, None, Some(account), db.now)]
         && after == db.(txns := after.txns, wallets := after.wallets)
  {
  }

  /** After a payout task the transaction is PROCESSING with Paystack's transfer code; an
      account that had a recipient keeps it, one that had none gets Paystack's, and no other
      row changes. */
  lemma PayoutWrites(db: Db, id: TxnId, code: string, recipient: string)
    requires RowsOk(db) && DecidePayout(db, id, code, recipient).Commit?
    ensures var after := After(db, DecidePayout(db, id, code, recipient));
      && id < |db.txns| && db.txns[id].account.Some? && db.txns[id].account.value < |db.accounts|
      && var a := db.txns[id].account.value;
         && after.txns == db.txns[id := db.txns[id].(status := Processing, provider := Some(code))]
         && (db.accounts[a].recipient != "" ==> after.accounts == db.accounts)
         && (db.accounts[a].recipient == "" ==> after.accounts == db.accounts[a := db.accounts[a].(recipient := recipient)])
         && after == db.(txns := after.txns, accounts := after.accounts)
  {
    var a := db.txns[id].account.value;
    assert db.accounts[a].recipient != "" ==> db.accounts[a := db.accounts[a]] == db.accounts;
  }

  /** A refund undoes a hold: after request, dispatch and failure the wallets and the
      ledger are what they were. */
  lemma RefundUndoesHold(db: Db, hold: Effect, code: string, recipient: string)
    requires hold.Hold? && Enabled(db, hold) && hold.account < |db.accounts|
    ensures var id := |db.txns|; var held := Apply(db, hold);
      && Enabled(held, Dispatch(id, code, recipient))
      && Enabled(Apply(held, Dispatch(id, code, recipient)), RefundPayout(id))
      && var refunded := Apply(Apply(held, Dispatch(id, code, recipient)), RefundPayout(id));
         refunded.wallets == db.wallets && refunded.ledger == db.ledger
  {
    var id := |db.txns|;
    var refunded := Apply(Apply(Apply(db, hold), Dispatch(id, code, recipient)), RefundPayout(id));
    assert refunded.wallets[hold.source] == db.wallets[hold.source];
  }

  /** Settling instead leaves the balance where the hold put it and posts the debit. */
  lemma SettlementKeepsHold(db: Db, hold: Effect, code: string, recipient: string)
    requires hold.Hold? && Enabled(db, hold) && hold.account < |db.accounts|
    ensures var id := |db.txns|; var held := Apply(db, hold);
      && Enabled(held, Dispatch(id, code, recipient))
      && Enabled(Apply(held, Dispatch(id, code, recipient)), SettlePayout(id))
      && var settled := Apply(Apply(held, Dispatch(id, code, recipient)), SettlePayout(id));
         && settled.wallets == held.wallets
         && settled.wallets[hold.source].balance == db.wallets[hold.source].balance - hold.amount
         && settled.ledger == db.ledger + [Entry(id, hold.source, Debit, hold.amount, settled.wallets[hold.source].balance)]
  {
  }
}
