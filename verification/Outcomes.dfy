/** When each handler does what, said of the rows a caller can see and not of the
    handler's own checks: exactly when it commits, returns or raises. */
module Outcomes {
  import opened Options
  import opened Sums
  import opened Records
  import opened Effects
  import opened Fraud
  import opened Ledger
  import opened Decisions
  import opened Guards
  import opened Kyc
  import opened BankAccounts

  // ---- What a caller can see ------------------------------------------------------

  predicate Open(db: Db, user: UserId) {
    user in db.users && db.users[user].wallet in db.wallets && db.wallets[db.users[user].wallet].active
  }

  predicate Affords(db: Db, user: UserId, amount: int) {
    user in db.users && db.users[user].wallet in db.wallets && amount <= db.wallets[db.users[user].wallet].balance
  }

  ghost predicate KeyUsed(db: Db, key: Option<string>) {
    key.Some? && key.value != "" && exists i :: 0 <= i < |db.txns| && db.txns[i].key == key
  }

  /** The two UNIQUE columns of a new row are free; an empty key takes part like any other. */
  ghost predicate Unused(db: Db, reference: string, key: Option<string>) {
    forall i :: 0 <= i < |db.txns| ==> db.txns[i].reference != reference && (key == None || db.txns[i].key != key)
  }

  /** The tier's limit on one transaction. */
  predicate SmallEnough(db: Db, user: UserId, amount: int) {
    user in db.users &&
    match db.users[user].tier
    case 0 => false
    case 1 => amount <= KYC_TIER1_SINGLE_LIMIT
    case _ => amount <= KYC_TIER2_SINGLE_LIMIT
  }

  /** With this amount, what the user completed today stays within the tier's daily limit. */
  predicate FitsToday(db: Db, user: UserId, kind: TxnType, amount: int) {
    user in db.users && Sum(db.txns, CompletedOn(user, kind, Day(db.now))) + amount <= TierLimit(db.users[user].tier)
  }

  /** The same transfer was made at most a minute before `now`. */
  ghost predicate Repeats(txns: seq<Txn>, now: nat, source: WalletId, dest: WalletId, amount: int) {
    exists i :: 0 <= i < |txns| && SameMove(txns[i], source, dest, amount) && now <= txns[i].createdAt + 60
  }

  predicate SameMove(t: Txn, source: WalletId, dest: WalletId, amount: int) {
    t.kind == Transfer && t.source == Some(source) && t.dest == Some(dest) && t.amount == amount
  }

  // ---- The queries behind it --------------------------------------------------------

  /** The idempotency lookup answers with the key's transaction exactly when there is one. */
  lemma ReplayOutcome(db: Db, key: Option<string>)
    requires UniqueColumns(db.txns)
    ensures Replay(db, key).Some? <==> KeyUsed(db, key)
    ensures Replay(db, key).Some? ==> var d := Replay(db, key).value;
      d.Return? && d.txn < |db.txns| && db.txns[d.txn].key == key
  {
    if KeyUsed(db, key) {
      var i :| 0 <= i < |db.txns| && db.txns[i].key == key;
      OnlyMatch(db.txns, ByKey(key.value), i);
    }
  }

  lemma FreshOutcome(db: Db, reference: string, key: Option<string>)
    ensures Fresh(db.txns, reference, key) <==> Unused(db, reference, key)
  {
    if Unused(db, reference, key) {
      forall t | t in db.txns ensures t.reference != reference && (key.Some? ==> t.key != key) {
        var i :| 0 <= i < |db.txns| && db.txns[i] == t;
      }
    } else {
      var i :| 0 <= i < |db.txns| && !(db.txns[i].reference != reference && (key == None || db.txns[i].key != key));
      assert db.txns[i] in db.txns;
    }
  }

  /** The limit checks raise for the amount, else for the day, else not at all. */
  lemma LimitOutcome(db: Db, user: UserId, kind: TxnType, amount: int)
    requires Stamped(db) && user in db.users
    ensures var tier := db.users[user].tier; var single := EnforceSingleLimit(tier, amount);
      && single == (if SmallEnough(db, user, amount) then None else Some(KycTier))
      && (0 < tier ==> EnforceDailyLimit(db, user, tier, amount, kind) ==
                         if FitsToday(db, user, kind, amount) then None else Some(DailyLimit))
  {
    DailySumIsToday(db, user, kind);
  }

  lemma TransferChecks(db: Db, user: UserId, source: WalletId, dest: WalletId, amount: int)
    requires Stamped(db) && user in db.users
    ensures CheckTransfer(db, user, source, dest, amount) ==
      if !SmallEnough(db, user, amount) then Some(KycTier)
      else if !FitsToday(db, user, Transfer, amount) then Some(DailyLimit)
      else if Repeats(db.txns, db.now, source, dest, amount) then Some(DuplicateTransfer)
      else None
  {
    LimitOutcome(db, user, Transfer, amount);
    if Repeats(db.txns, db.now, source, dest, amount) {
      var i :| 0 <= i < |db.txns| && SameMove(db.txns[i], source, dest, amount) && db.now <= db.txns[i].createdAt + 60;
      assert RecentTransfer(db, db.txns[i], source, dest, amount);
    }
  }

  // ---- Transfers and payments ----------------------------------------------------------

  predicate Reachable(db: Db, recipient: Option<UserId>) {
    recipient.Some? && recipient.value in db.users && db.users[recipient.value].active
  }

  /** A new transfer between two open wallets, under a key nobody has used. */
  ghost predicate NewTransfer(db: Db, sender: UserId, recipient: Option<UserId>, key: Option<string>) {
    Open(db, sender) && Reachable(db, recipient) && sender != recipient.value && Open(db, recipient.value) && !KeyUsed(db, key)
  }

  ghost predicate Allowed(db: Db, user: UserId, kind: TxnType, amount: int) {
    SmallEnough(db, user, amount) && FitsToday(db, user, kind, amount)
  }

  ghost predicate RepeatsTransfer(db: Db, sender: UserId, recipient: Option<UserId>, amount: int) {
    && sender in db.users && recipient.Some? && recipient.value in db.users
    && Repeats(db.txns, db.now, db.users[sender].wallet, db.users[recipient.value].wallet, amount)
  }

  lemma TransferOutcome(db: Db, sender: UserId, recipient: Option<UserId>, amount: int, key: Option<string>, reference: string)
    requires Wired(db) && Stamped(db) && UniqueColumns(db.txns) && 0 < amount
    ensures var d := DecideTransfer(db, sender, recipient, amount, key, reference);
      var valid := NewTransfer(db, sender, recipient, key);
      var allowed := valid && Allowed(db, sender, Transfer, amount);
      var first := allowed && !RepeatsTransfer(db, sender, recipient, amount);
      && (d.Commit? <==> first && Affords(db, sender, amount) && Unused(db, reference, key))
      && (d == Raise(Integrity) <==> first && Affords(db, sender, amount) && !Unused(db, reference, key))
      && (d == Raise(InsufficientBalance) <==> first && !Affords(db, sender, amount))
      && (d == Raise(DuplicateTransfer) <==> allowed && RepeatsTransfer(db, sender, recipient, amount))
      && (d == Raise(DailyLimit) <==> valid && SmallEnough(db, sender, amount) && !FitsToday(db, sender, Transfer, amount))
      && (d == Raise(KycTier) <==> valid && !SmallEnough(db, sender, amount))
      && (d.Return? <==> NewTransfer(db, sender, recipient, None) && KeyUsed(db, key))
      && (d.Return? ==> d.txn < |db.txns| && db.txns[d.txn].key == key)
      && (d == Raise(SelfTransfer) <==> Open(db, sender) && Reachable(db, recipient) && sender == recipient.value)
      && (d == Raise(NotFound) <==> Open(db, sender) && !Reachable(db, recipient))
  {
    ReplayOutcome(db, key);
    FreshOutcome(db, reference, key);
    if NewTransfer(db, sender, recipient, key) {
      OwnWallets(db, sender, recipient.value);
      TransferChecks(db, sender, db.users[sender].wallet, db.users[recipient.value].wallet, amount);
    }
  }

  ghost predicate NewPayment(db: Db, payer: UserId, merchant: Option<Merchant>, key: Option<string>) {
    && merchant.Some? && merchant.value.active && payer != merchant.value.user
    && Open(db, payer) && Open(db, merchant.value.user) && !KeyUsed(db, key)
  }

  lemma PaymentOutcome(db: Db, payer: UserId, merchant: Option<Merchant>, amount: int, key: Option<string>, reference: string)
    requires Wired(db) && Stamped(db) && UniqueColumns(db.txns) && 0 < amount
    ensures var d := DecidePayment(db, payer, merchant, amount, key, reference);
      var valid := NewPayment(db, payer, merchant, key);
      var allowed := valid && Allowed(db, payer, MerchantPayment, amount);
      && (d.Commit? <==> allowed && Affords(db, payer, amount) && Unused(db, reference, key))
      && (d == Raise(Integrity) <==> allowed && Affords(db, payer, amount) && !Unused(db, reference, key))
      && (d == Raise(InsufficientBalance) <==> allowed && !Affords(db, payer, amount))
      && (d == Raise(DailyLimit) <==> valid && SmallEnough(db, payer, amount) && !FitsToday(db, payer, MerchantPayment, amount))
      && (d == Raise(KycTier) <==> valid && !SmallEnough(db, payer, amount))
      && (d.Return? <==> NewPayment(db, payer, merchant, None) && KeyUsed(db, key))
      && (d.Return? ==> d.txn < |db.txns| && db.txns[d.txn].key == key)
      && (d == Raise(SelfPayment) <==> merchant.Some? && merchant.value.active && payer == merchant.value.user)
      && (d == Raise(NotFound) <==> merchant.None?)
  {
    ReplayOutcome(db, key);
    FreshOutcome(db, reference, key);
    if payer in db.users {
      LimitOutcome(db, payer, MerchantPayment, amount);
    }
  }

  // ---- Fundings -----------------------------------------------------------------------------

  lemma FundingOutcome(db: Db, user: UserId, amount: int, key: Option<string>, reference: string, provider: string)
    requires Wired(db) && UniqueColumns(db.txns)
    ensures var d := DecideFunding(db, user, amount, key, reference, provider);
      var asked := Open(db, user) && 100 * 100 <= amount;
      && (d.Commit? <==> asked && !KeyUsed(db, key) && Unused(db, reference, key))
      && (d == Raise(Integrity) <==> asked && !KeyUsed(db, key) && !Unused(db, reference, key))
      && (d.Return? <==> asked && KeyUsed(db, key))
      && (d.Return? ==> d.txn < |db.txns| && db.txns[d.txn].key == key)
      && (d == Raise(BelowMinimum) <==> Open(db, user) && amount < 100 * 100)
      && (d == Raise(Forbidden) <==> !Open(db, user))
  {
    ReplayOutcome(db, key);
    FreshOutcome(db, reference, key);
  }

  // ---- Withdrawals ---------------------------------------------------------------------------

  /** A withdrawal of the user that is neither settled nor refunded. */
  predicate InProgress(t: Txn, user: UserId) {
    t.kind == Withdrawal && t.user == user && (t.status == Pending || t.status == Processing)
  }

  ghost predicate Withdrawing(txns: seq<Txn>, user: UserId) {
    exists i :: 0 <= i < |txns| && InProgress(txns[i], user)
  }

  predicate Owns(db: Db, user: UserId, account: AccountId) {
    account < |db.accounts| && db.accounts[account].owner == user && !db.accounts[account].deleted
  }

  /** The query for the active withdrawal finds one exactly when there is one. */
  lemma ActiveOutcome(db: Db, user: UserId)
    requires OneActive(db.txns)
    ensures ActiveWithdrawal(db, user).OneRow? <==> Withdrawing(db.txns, user)
    ensures ActiveWithdrawal(db, user).NoRow? <==> !Withdrawing(db.txns, user)
    ensures ActiveWithdrawal(db, user).OneRow? ==> InProgress(db.txns[ActiveWithdrawal(db, user).id], user)
  {
    if Withdrawing(db.txns, user) {
      var i :| 0 <= i < |db.txns| && InProgress(db.txns[i], user);
      OnlyMatch(db.txns, ActiveOf(user), i);
    } else {
      forall i | 0 <= i < |db.txns| ensures !ActiveOf(user)(db.txns[i]) {
        assert !InProgress(db.txns[i], user);
      }
    }
  }

  lemma WithdrawalOutcome(db: Db, user: UserId, account: AccountId, amount: int, reference: string)
    requires Wired(db) && Stamped(db) && OneActive(db.txns) && 0 < amount
    ensures var d := DecideWithdrawal(db, user, account, amount, reference);
      var verified := Open(db, user) && 2 <= db.users[user].tier && SmallEnough(db, user, amount);
      var allowed := verified && FitsToday(db, user, Withdrawal, amount);
      var ready := allowed && !Withdrawing(db.txns, user) && Owns(db, user, account);
      && (d.Commit? <==> ready && Affords(db, user, amount) && Unused(db, reference, None))
      && (d == Raise(Integrity) <==> ready && Affords(db, user, amount) && !Unused(db, reference, None))
      && (d == Raise(InsufficientBalance) <==> ready && !Affords(db, user, amount))
      && (d == Raise(NotFound) <==> allowed && !Withdrawing(db.txns, user) && !Owns(db, user, account))
      && (d == Raise(AlreadyPending) <==> allowed && Withdrawing(db.txns, user))
      && (d == Raise(DailyLimit) <==> verified && !FitsToday(db, user, Withdrawal, amount))
      && (d == Raise(KycTier) <==> Open(db, user) && !verified)
      && (d == Raise(Forbidden) <==> !Open(db, user))
  {
    ActiveOutcome(db, user);
    FreshOutcome(db, reference, None);
    if user in db.users {
      LimitOutcome(db, user, Withdrawal, amount);
    }
  }

  /** A payout task sends a pending withdrawal whose account is live, to the recipient the
      account has or else to the one Paystack names. */
  lemma PayoutOutcome(db: Db, id: TxnId, code: string, recipient: string)
    requires RowsOk(db)
    ensures var d := DecidePayout(db, id, code, recipient);
      var live := Is(db, id, Withdrawal, Pending) && db.txns[id].account.Some? && db.txns[id].account.value < |db.accounts|
                  && !db.accounts[db.txns[id].account.value].deleted;
      var known := live && (db.accounts[db.txns[id].account.value].recipient != "" || recipient != "");
      && (d.Commit? <==> known)
      && (d == Raise(External) <==> live && !known)
      && (d == Skip <==> !live)
  {
    if id < |db.txns| {
      assert TxnOk(db.wallets, db.txns[id]);
    }
  }

  // ---- KYC and bank accounts ----------------------------------------------------------------------

  predicate Waits(s: Submission, user: UserId, tier: int) {
    s.user == user && s.tier == tier && s.status == UnderReview
  }

  /** A submission is accepted exactly when it asks for the next tier and none for that tier
      is under review; a rejected one does not stand in the way, nor can an approved one. */
  lemma SubmissionOutcome(db: Db, user: UserId, tier: int)
    requires KycOk(db)
    ensures var next := user in db.users && tier == db.users[user].tier + 1;
      var waiting := exists i :: 0 <= i < |db.submissions| && Waits(db.submissions[i], user, tier);
      && SubmitError(db, user, tier) ==
           (if user !in db.users then Some(Missing) else if !next then Some(TierSkip)
            else if waiting then Some(SubmissionPending) else None)
      && Submitted(db, user, tier) ==
           (if next && !waiting then db.(submissions := db.submissions + [Submission(user, tier, UnderReview)]) else db)
  {
    if user in db.users && tier == db.users[user].tier + 1 {
      var existing := First(db.submissions, ActiveFor(user, tier));
      assert !HasApproved(db.submissions, user, tier);
      if existing.Some? {
        assert db.submissions[existing.value] in db.submissions;
        assert Waits(db.submissions[existing.value], user, tier);
      } else {
        forall i | 0 <= i < |db.submissions| ensures !Waits(db.submissions[i], user, tier) {
          assert !ActiveFor(user, tier)(db.submissions[i]);
        }
      }
    }
  }

  /** A review takes effect exactly when the submission is under review and not the reviewer's
      own; it writes the one submission and, for an approval, the one tier. */
  lemma ReviewOutcome(db: Db, id: nat, reviewer: UserId)
    requires KycOk(db)
    ensures var open := id < |db.submissions| && db.submissions[id].status == UnderReview && db.submissions[id].user != reviewer;
      && (ApproveError(db, id, reviewer).None? <==> open)
      && (RejectError(db, id, reviewer).None? <==> open)
      && (id < |db.submissions| && db.submissions[id].user != reviewer ==>
            ApproveError(db, id, reviewer) ==
              match db.submissions[id].status
              case UnderReview => None
              case Approved => Some(AlreadyApproved)
              case Rejected => Some(AlreadyRejected))
      && (!open ==> ApprovedBy(db, id, reviewer) == db && RejectedBy(db, id, reviewer) == db)
      && (open ==>
            var s := db.submissions[id];
            && s.user in db.users
            && RejectedBy(db, id, reviewer) == db.(submissions := db.submissions[id := s.(status := Rejected)])
            && ApprovedBy(db, id, reviewer) == db.(submissions := db.submissions[id := s.(status := Approved)],
                                                   users := db.users[s.user := db.users[s.user].(tier := s.tier)]))
  {
    if id < |db.submissions| {
      assert db.submissions[id] in db.submissions;
    }
  }

  /** An account may be removed exactly when it is the user's own live one and no withdrawal
      in progress pays to it. */
  lemma RemovalOutcome(db: Db, user: UserId, id: AccountId)
    requires OneActive(db.txns)
    ensures var paying := exists i :: 0 <= i < |db.txns| && InProgress(db.txns[i], user) && db.txns[i].account == Some(id);
      RemoveError(db, user, id) ==
        if !Owns(db, user, id) then Some(NotFound) else if paying then Some(Forbidden) else None
  {
    ActiveOutcome(db, user);
    if Owns(db, user, id) {
      var active := ActiveWithdrawal(db, user);
      if i :| 0 <= i < |db.txns| && InProgress(db.txns[i], user) && db.txns[i].account == Some(id) {
        OnlyMatch(db.txns, ActiveOf(user), i);
      } else if active.OneRow? {
        assert db.txns[active.id].account != Some(id);
      }
    }
  }

  /** What adding, choosing and deleting an account write: one row's own columns, and
      otherwise only the default flags of the same user's accounts. */
  lemma AccountRows(accounts: seq<Account>, owner: UserId, id: AccountId)
    ensures var added := Added(accounts, owner);
      && |added| == |accounts| + 1 && added[..|accounts|] == accounts
      && added[|accounts|].owner == owner && !added[|accounts|].deleted && added[|accounts|].recipient == ""
      && (added[|accounts|].isDefault <==> forall i :: 0 <= i < |accounts| ==> accounts[i].owner != owner || accounts[i].deleted)
    ensures id < |accounts| ==>
      && OnlyFlags(accounts, MadeDefault(accounts, id), accounts[id].owner)
      && OnlyFlags(accounts[id := accounts[id].(deleted := true)], Deleted(accounts, id), accounts[id].owner)
      && (!accounts[id].isDefault ==> Deleted(accounts, id) == accounts[id := accounts[id].(deleted := true)])
  {
    var none := First(accounts, LiveOf(owner)).None?;
    assert none ==> forall i :: 0 <= i < |accounts| ==> !LiveOf(owner)(accounts[i]);
    if id < |accounts| && !accounts[id].isDefault {
      assert accounts[id].(deleted := true) == accounts[id].(deleted := true, isDefault := false);
    }
  }

  ghost predicate OnlyFlags(before: seq<Account>, after: seq<Account>, owner: UserId) {
    && |after| == |before|
    && forall i :: 0 <= i < |before| ==>
         after[i] == before[i] || (before[i].owner == owner && after[i] == before[i].(isDefault := after[i].isDefault))
  }
}
