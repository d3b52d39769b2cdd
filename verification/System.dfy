/** The whole back end as a state machine: one request is one handler run to its
    end, a run is any sequence of requests, and every run keeps every invariant. */
module System {
  import opened Options
  import opened Sums
  import opened Records
  import opened Effects
  import opened Ledger
  import opened Decisions
  import opened Lifecycle
  import opened Guards
  import opened Kyc
  import opened BankAccounts

  datatype Request =
    | Register(user: UserId, wallet: WalletId)
    | SetWalletActive(wallet: WalletId, active: bool)
    | Tick(seconds: nat)
    | SubmitKyc(user: UserId, tier: int)
    | ApproveKyc(submission: nat, reviewer: UserId)
    | RejectKyc(submission: nat, reviewer: UserId)
    | AddAccount(user: UserId)
    | SetDefaultAccount(account: AccountId)
    | RemoveAccount(user: UserId, account: AccountId)
    | StartFunding(user: UserId, amount: int, key: Option<string>, reference: string, provider: string)
    | ChargeSuccess(provider: string, paid: nat)
    | Reconcile(txn: TxnId, provider: string, verified: Option<nat>)
    | StartTransfer(user: UserId, receiver: Option<UserId>, amount: int, key: Option<string>, reference: string)
    | StartPayment(user: UserId, merchant: Option<Merchant>, amount: int, key: Option<string>, reference: string)
    | StartWithdrawal(user: UserId, account: AccountId, amount: int, reference: string)
    | ExecutePayout(txn: TxnId, code: string, recipient: string)
    | TransferResult(event: TransferEvent, reference: string)

  /** Requests that pass the schemas: positive amounts; reconciliation works through its own query. */
  predicate Admissible(db: Db, r: Request) {
    match r
    case StartFunding(_, amount, _, _, _) => 0 < amount
    case StartTransfer(_, _, amount, _, _) => 0 < amount
    case StartPayment(_, _, amount, _, _) => 0 < amount
    case StartWithdrawal(_, _, amount, _) => 0 < amount
    case Reconcile(id, _, _) => StaleFunding(db, id)
    case _ => true
  }

  predicate Money(r: Request) {
    r.StartFunding? || r.ChargeSuccess? || r.Reconcile? || r.StartTransfer? || r.StartPayment? || r.StartWithdrawal?
    || r.ExecutePayout? || r.TransferResult?
  }

  ghost predicate Good(db: Db) {
    Inv(db) && Guarded(db) && KycOk(db) && DefaultsOk(db.accounts)
  }

  function Decide(db: Db, r: Request): (d: Decision)
    requires RowsOk(db) && Wired(db) && Money(r) && Admissible(db, r)
    ensures d.Commit? ==> Enabled(db, d.effect)
  {
    match r
    case StartFunding(user, amount, key, reference, provider) => DecideFunding(db, user, amount, key, reference, provider)
    case ChargeSuccess(provider, paid) => DecideCharge(db, provider, paid)
    case Reconcile(id, provider, verified) => DecideReconcile(db, id, provider, verified)
    case StartTransfer(user, recipient, amount, key, reference) => DecideTransfer(db, user, recipient, amount, key, reference)
    case StartPayment(user, merchant, amount, key, reference) => DecidePayment(db, user, merchant, amount, key, reference)
    case StartWithdrawal(user, account, amount, reference) => DecideWithdrawal(db, user, account, amount, reference)
    case ExecutePayout(id, code, recipient) => DecidePayout(db, id, code, recipient)
    case TransferResult(event, reference) => DecideTransferEvent(db, event, reference)
  }

  /** Requests that touch no money: registration, time, KYC and bank accounts. */
  function Other(db: Db, r: Request): Db {
    match r
    case Register(user, wallet) =>
      if user in db.users || wallet in db.wallets then db
      else db.(users := db.users[user := User(true, 0, wallet)], wallets := db.wallets[wallet := Wallet(user, 0, true)])
    case SetWalletActive(wallet, active) =>
      if wallet in db.wallets then db.(wallets := db.wallets[wallet := db.wallets[wallet].(active := active)]) else db
    case Tick(seconds) => db.(now := db.now + seconds)
    case SubmitKyc(user, tier) => Submitted(db, user, tier)
    case ApproveKyc(id, reviewer) => ApprovedBy(db, id, reviewer)
    case RejectKyc(id, reviewer) => RejectedBy(db, id, reviewer)
    case AddAccount(user) => if user in db.users then db.(accounts := Added(db.accounts, user)) else db
    case SetDefaultAccount(id) =>
      if LiveAccount(db, id).Some? then db.(accounts := MadeDefault(db.accounts, id)) else db
    case RemoveAccount(user, id) => AccountRemoved(db, user, id)
    case _ => db
  }

  function Serve(db: Db, r: Request): Db
    requires RowsOk(db) && Wired(db)
  {
    if !Money(r) then Other(db, r)
    else if Admissible(db, r) then After(db, Decide(db, r))
    else db
  }

  // ---- Requests that move no money ---------------------------------------------

  /** The money tables agree on everything the accounting invariant reads. */
  predicate SameMoney(db: Db, next: Db) {
    && next.txns == db.txns && next.ledger == db.ledger && next.wallets.Keys == db.wallets.Keys
    && forall w :: w in db.wallets ==> next.wallets[w].balance == db.wallets[w].balance
                                       && next.wallets[w].owner == db.wallets[w].owner
  }

  lemma SameMoneyKeepsInv(db: Db, next: Db)
    requires Inv(db) && SameMoney(db, next)
    ensures Inv(next)
  {
    assert Balances(next.wallets) == Balances(db.wallets);
    forall t | t in next.txns ensures TxnOk(next.wallets, t) {
      SameShape(db.wallets, next.wallets, t);
    }
    SameHistory(db, next);
  }

  /** A wallet nobody has used yet has no entries and no holds. */
  lemma UnusedWallet(db: Db, wallet: WalletId)
    requires RowsOk(db) && wallet !in db.wallets
    ensures Sum(db.ledger, SignedOn(wallet)) == 0 && Sum(db.txns, HeldOn(wallet)) == 0
  {
    forall i | 0 <= i < |db.ledger| ensures SignedOn(wallet)(db.ledger[i]) == 0 {
      assert db.ledger[i] in db.ledger;
    }
    SumZero(db.ledger, SignedOn(wallet));
    forall i | 0 <= i < |db.txns| ensures HeldOn(wallet)(db.txns[i]) == 0 {
      assert TxnOk(db.wallets, db.txns[i]);
    }
    SumZero(db.txns, HeldOn(wallet));
  }

  lemma NewWalletKeepsInv(db: Db, next: Db, wallet: WalletId, user: UserId)
    requires Inv(db) && wallet !in db.wallets
    requires next == db.(users := next.users, wallets := db.wallets[wallet := Wallet(user, 0, true)])
    ensures Inv(next)
  {
    NewWalletKeepsRows(db, next, wallet, user);
    NewWalletKeepsSums(db, next, wallet, user);
    SameHistory(db, next);
  }

  lemma NewWalletKeepsSums(db: Db, next: Db, wallet: WalletId, user: UserId)
    requires RowsOk(db) && BalanceIdentity(db) && Conserved(db) && wallet !in db.wallets
    requires next == db.(users := next.users, wallets := db.wallets[wallet := Wallet(user, 0, true)])
    ensures BalanceIdentity(next) && Conserved(next)
  {
    UnusedWallet(db, wallet);
    NewWalletKeepsTotal(db.wallets, next.wallets, wallet, user);
  }

  lemma NewWalletKeepsTotal(wallets: map<WalletId, Wallet>, next: map<WalletId, Wallet>, wallet: WalletId, user: UserId)
    requires wallet !in wallets && next == wallets[wallet := Wallet(user, 0, true)]
    ensures Total(Balances(next)) == Total(Balances(wallets))
  {
    TotalPut(Balances(wallets), wallet, 0);
    assert Balances(next) == Balances(wallets)[wallet := 0];
  }

  lemma NewWalletKeepsRows(db: Db, next: Db, wallet: WalletId, user: UserId)
    requires RowsOk(db) && wallet !in db.wallets
    requires next == db.(users := next.users, wallets := db.wallets[wallet := Wallet(user, 0, true)])
    ensures RowsOk(next)
  {
    forall t | t in next.txns ensures TxnOk(next.wallets, t) {
      assert TxnOk(db.wallets, t);
    }
  }

  lemma SameHistory(db: Db, next: Db)
    requires History(db) && next.txns == db.txns && next.ledger == db.ledger
    ensures History(next)
  {
    forall k | 0 <= k < |next.ledger| ensures SnapshotOk(next, k) {
      assert SnapshotOk(db, k);
    }
  }

  lemma OtherMovesNothing(db: Db, r: Request)
    requires !Money(r) && !r.Register?
    ensures SameMoney(db, Other(db, r))
  {
  }

  lemma OtherKeepsInv(db: Db, r: Request)
    requires Inv(db) && !Money(r)
    ensures Inv(Other(db, r))
  {
    if !r.Register? {
      OtherMovesNothing(db, r);
      SameMoneyKeepsInv(db, Other(db, r));
    } else if r.user !in db.users && r.wallet !in db.wallets {
      NewWalletKeepsInv(db, Other(db, r), r.wallet, r.user);
    }
  }

  lemma LimitsGrow(db: Db, next: Db)
    requires SpendingCaps(db) && next.txns == db.txns
    requires forall u :: u in db.users ==> u in next.users && db.users[u].tier <= next.users[u].tier
    ensures SpendingCaps(next)
  {
    forall user: UserId, kind, day: nat | kind in {Transfer, MerchantPayment} ensures SpendingCap(next, user, kind, day) {
      assert SpendingCap(db, user, kind, day);
    }
  }

  lemma TiersGrow(db: Db, r: Request)
    requires KycOk(db) && !Money(r)
    ensures forall u :: u in db.users ==> u in Other(db, r).users && db.users[u].tier <= Other(db, r).users[u].tier
                                          && db.users[u].wallet == Other(db, r).users[u].wallet
  {
    if r.ApproveKyc? && ApproveError(db, r.submission, r.reviewer).None? {
      ApprovalRaisesByOne(db, r.submission, r.reviewer);
    }
  }

  /** Accounts keep their owner, and live ones stay live: payouts keep their account. */
  lemma StillPays(db: Db, next: Db)
    requires PayoutAccounts(db) && next.txns == db.txns && |db.accounts| <= |next.accounts|
    requires forall i :: 0 <= i < |db.accounts| ==>
      next.accounts[i].owner == db.accounts[i].owner && next.accounts[i].deleted == db.accounts[i].deleted
    ensures PayoutAccounts(next)
  {
    forall t | t in next.txns && Active(t) ensures PaysTo(next, t) {
      assert PaysTo(db, t);
    }
  }

  lemma OtherKeepsAccounts(db: Db, r: Request)
    requires Guarded(db) && DefaultsOk(db.accounts) && !Money(r)
    ensures PayoutAccounts(Other(db, r)) && DefaultsOk(Other(db, r).accounts)
  {
    if r.RemoveAccount? {
      RemoveKeepsPayoutAccounts(db, r.user, r.account);
      if RemoveError(db, r.user, r.account).None? {
        DeleteKeepsDefaults(db.accounts, r.account);
      }
    } else {
      StillPays(db, Other(db, r));
      if r.AddAccount? {
        AddKeepsDefaults(db.accounts, r.user);
      } else if r.SetDefaultAccount? && LiveAccount(db, r.account).Some? {
        SetDefaultKeepsDefaults(db.accounts, r.account);
      }
    }
  }

  lemma OtherKeepsKyc(db: Db, r: Request)
    requires KycOk(db) && !Money(r)
    ensures KycOk(Other(db, r))
  {
    if r.SubmitKyc? {
      SubmitKeepsKyc(db, r.user, r.tier);
    } else if r.ApproveKyc? {
      ApproveKeepsKyc(db, r.submission, r.reviewer);
    } else if r.RejectKyc? {
      RejectKeepsKyc(db, r.submission, r.reviewer);
    } else if r.Register? && Other(db, r) != db {
      RegisterKeepsKyc(db, Other(db, r), r.user);
    }
  }

  lemma RegisterKeepsKyc(db: Db, next: Db, user: UserId)
    requires KycOk(db) && user !in db.users && next.submissions == db.submissions
    requires exists wallet :: next.users == db.users[user := User(true, 0, wallet)]
    ensures KycOk(next)
  {
    forall u: UserId, tier: nat | u in next.users
      ensures HasApproved(next.submissions, u, tier) <==> 1 <= tier <= next.users[u].tier
    {
      assert user == u ==> !HasApproved(next.submissions, u, tier);
    }
  }

  lemma OtherKeepsStamps(db: Db, r: Request)
    requires KycOk(db) && Wired(db) && Stamped(db) && !Money(r)
    ensures Wired(Other(db, r)) && Stamped(Other(db, r))
  {
    TiersGrow(db, r);
    var next := Other(db, r);
    assert next.txns == db.txns && db.now <= next.now;
    forall t | t in next.txns
      ensures t.user in next.users && t.createdAt <= next.now && (t.kind == Withdrawal ==> t.source == WalletOf(next, t.user))
    {
      assert t in db.txns;
    }
  }

  lemma OtherKeepsGuards(db: Db, r: Request)
    requires Guarded(db) && KycOk(db) && DefaultsOk(db.accounts) && !Money(r)
    ensures Guarded(Other(db, r)) && DefaultsOk(Other(db, r).accounts)
  {
    TiersGrow(db, r);
    OtherKeepsRows(db, r);
    LimitsGrow(db, Other(db, r));
    OtherKeepsAccounts(db, r);
    OtherKeepsStamps(db, r);
  }

  lemma OtherKeepsGood(db: Db, r: Request)
    requires Good(db) && !Money(r)
    ensures Good(Other(db, r))
  {
    OtherKeepsInv(db, r);
    OtherKeepsGuards(db, r);
    OtherKeepsKyc(db, r);
  }

  // ---- Requests that move money --------------------------------------------------

  lemma DecisionScreened(db: Db, r: Request)
    requires RowsOk(db) && Wired(db) && Money(r) && Admissible(db, r)
    ensures var d := Decide(db, r); d.Commit? ==> Screened(db, d.effect)
  {
    match r
    case StartTransfer(user, recipient, amount, key, reference) =>
      TransferScreened(db, user, recipient, amount, key, reference);
    case StartPayment(user, merchant, amount, key, reference) =>
      PaymentScreened(db, user, merchant, amount, key, reference);
    case StartWithdrawal(user, account, amount, reference) =>
      WithdrawalScreened(db, user, account, amount, reference);
    case StartFunding(_, _, _, _, _) =>
    case ChargeSuccess(_, _) =>
    case Reconcile(_, _, _) =>
    case ExecutePayout(_, _, _) =>
    case TransferResult(_, _) =>
  }

  lemma EffectKeepsTables(db: Db, e: Effect)
    requires KycOk(db) && DefaultsOk(db.accounts) && Enabled(db, e)
    ensures KycOk(Apply(db, e)) && DefaultsOk(Apply(db, e).accounts)
  {
    var next := Apply(db, e);
    assert next.users == db.users && next.submissions == db.submissions;
    if e.Dispatch? {
      RecipientKeepsDefaults(db.accounts, db.txns[e.txn].account.value, e.recipient);
    }
  }

  lemma RecipientKeepsDefaults(accounts: seq<Account>, id: AccountId, recipient: string)
    requires DefaultsOk(accounts) && id < |accounts|
    ensures DefaultsOk(accounts[id := accounts[id].(recipient := recipient)])
  {
    var next := accounts[id := accounts[id].(recipient := recipient)];
    forall i | 0 <= i < |next| && !next[i].deleted ensures HasDefault(next, next[i].owner) {
      assert HasDefault(accounts, accounts[i].owner);
      var j :| 0 <= j < |accounts| && LiveDefault(accounts[j], next[i].owner);
      assert LiveDefault(next[j], next[i].owner);
    }
  }

  /** One request keeps every invariant. */
  lemma ServeKeepsGood(db: Db, r: Request)
    requires Good(db)
    ensures Good(Serve(db, r))
  {
    if !Money(r) {
      OtherKeepsGood(db, r);
    } else if Admissible(db, r) && Decide(db, r).Commit? {
      var e := Decide(db, r).effect;
      DecisionScreened(db, r);
      ApplyKeepsInv(db, e);
      ApplyKeepsGuards(db, e);
      EffectKeepsTables(db, e);
    }
  }

  // ---- Whole runs -------------------------------------------------------------------

  lemma EmptyIsGood()
    ensures Good(EMPTY)
  {
    assert Balances(EMPTY.wallets) == map[];
    forall user: UserId, kind, day: nat ensures SpendingCap(EMPTY, user, kind, day) {
    }
  }

  /** One request on a good database. */
  ghost function Next(db: GoodDb, r: Request): GoodDb {
    ServeKeepsGood(db, r);
    Serve(db, r)
  }

  /** The database after a run from a good one. */
  ghost function Run(db: GoodDb, rs: seq<Request>): GoodDb
    decreases |rs|
  {
    if rs == [] then db else Run(Next(db, rs[0]), rs[1..])
  }

  lemma RunFront(db: GoodDb, rs: seq<Request>, r: Request)
    requires rs != []
    ensures Run(db, rs + [r]) == Run(Next(db, rs[0]), rs[1..] + [r])
  {
    assert (rs + [r])[1..] == rs[1..] + [r];
  }

  lemma RunOne(db: GoodDb, r: Request)
    ensures Run(db, [] + [r]) == Next(db, r)
  {
    assert ([] + [r])[1..] == [];
  }

  lemma {:induction false} RunAppend(db: GoodDb, rs: seq<Request>, r: Request)
    ensures Run(db, rs + [r]) == Next(Run(db, rs), r)
    decreases |rs|
  {
    if rs == [] {
      RunOne(db, r);
    } else {
      RunFront(db, rs, r);
      RunAppend(Next(db, rs[0]), rs[1..], r);
    }
  }

  ghost function Empty(): (db: Db)
    ensures db == EMPTY && Good(db)
  {
    EmptyIsGood();
    EMPTY
  }

  type GoodDb = db: Db | Good(db) ghost witness Empty()

  lemma OtherKeepsRows(db: Db, r: Request)
    requires !Money(r)
    ensures Other(db, r).txns == db.txns && Other(db, r).ledger == db.ledger
  {
  }

  lemma ServeEvolves(db: Db, r: Request, id: TxnId)
    requires RowsOk(db) && Wired(db) && id < |db.txns|
    ensures id < |Serve(db, r).txns| && Evolves(db.txns[id], Serve(db, r).txns[id])
    ensures db.ledger <= Serve(db, r).ledger
  {
    EvolvesRefl(db.txns[id]);
    if !Money(r) {
      OtherKeepsRows(db, r);
    } else if Admissible(db, r) && Decide(db, r).Commit? {
      EffectEvolves(db, Decide(db, r).effect, id);
    }
  }

  /** Over any run, a transaction's committed history is a walk of the state machine,
      its other columns are written once, and the ledger is only appended to. */
  lemma {:induction false} HistoryIsAWalk(db: GoodDb, rs: seq<Request>, id: TxnId)
    requires id < |db.txns|
    ensures id < |Run(db, rs).txns| && Evolves(db.txns[id], Run(db, rs).txns[id])
    ensures db.ledger <= Run(db, rs).ledger
    decreases |rs|
  {
    if rs == [] {
      EvolvesRefl(db.txns[id]);
    } else {
      ServeKeepsGood(db, rs[0]);
      ServeEvolves(db, rs[0], id);
      var mid: GoodDb := Serve(db, rs[0]);
      HistoryIsAWalk(mid, rs[1..], id);
      EvolvesTransitive(db.txns[id], mid.txns[id], Run(mid, rs[1..]).txns[id]);
    }
  }

  lemma RowStatuses(db: Db, id: TxnId)
    requires RowsOk(db) && id < |db.txns|
    ensures var t := db.txns[id];
      && t.status != Reversed
      && (t.kind in {Transfer, MerchantPayment} ==> t.status == Completed)
      && (t.status == Processing ==> t.kind == Withdrawal && t.provider.Some?)
  {
    assert TxnOk(db.wallets, db.txns[id]);
  }

  /** What a committed row can look like: fundings are never PROCESSING, moves only
      COMPLETED, and a PROCESSING row is a withdrawal that has its transfer code. */
  lemma CommittedStatuses(rs: seq<Request>, id: TxnId)
    requires id < |Run(Empty(), rs).txns|
    ensures var t := Run(Empty(), rs).txns[id];
      && t.status != Reversed
      && (t.kind in {Transfer, MerchantPayment} ==> t.status == Completed)
      && (t.status == Processing ==> t.kind == Withdrawal && t.provider.Some?)
  {
    RowStatuses(Run(Empty(), rs), id);
  }

  // ---- Idempotency keys ---------------------------------------------------------------

  predicate Keyed(r: Request) { r.StartFunding? || r.StartTransfer? || r.StartPayment? }

  /** The transaction a keyed call answers with, if it answers with one. */
  function Answer(db: Db, r: Request): Option<TxnId>
    requires RowsOk(db) && Wired(db) && Keyed(r)
  {
    if !Admissible(db, r) then None
    else match ReplyTo(db, Decide(db, r))
      case Transaction(id) => Some(id)
      case _ => None
  }

  /** `d` answers for `key`: with a row that carries it, or by inserting one when none does. */
  ghost predicate AnswersFor(db: Db, key: Option<string>, d: Decision) {
    && (d.Return? ==> d.txn < |db.txns| && db.txns[d.txn].key == key)
    && (d.Commit? ==> Inserts(d.effect) && Enabled(db, d.effect) && NewTxn(db, d.effect).key == key
                      && forall t :: t in db.txns ==> t.key != key)
  }

  lemma ReplayAnswers(db: Db, key: Option<string>)
    requires Truthy(key)
    ensures var d := Replay(db, key);
      if d.Some? then AnswersFor(db, key, d.value) else forall t :: t in db.txns ==> t.key != key
  {
    if Replay(db, key).None? {
      forall t | t in db.txns ensures t.key != key {
        var i :| 0 <= i < |db.txns| && db.txns[i] == t;
        assert !ByKey(key.value)(db.txns[i]);
      }
    }
  }

  lemma TransferAnswers(db: Db, user: UserId, receiver: Option<UserId>, amount: int, key: Option<string>, reference: string)
    requires Wired(db) && 0 < amount && Truthy(key)
    ensures AnswersFor(db, key, DecideTransfer(db, user, receiver, amount, key, reference))
  {
    ReplayAnswers(db, key);
  }

  lemma PaymentAnswers(db: Db, user: UserId, merchant: Option<Merchant>, amount: int, key: Option<string>, reference: string)
    requires Wired(db) && 0 < amount && Truthy(key)
    ensures AnswersFor(db, key, DecidePayment(db, user, merchant, amount, key, reference))
  {
    ReplayAnswers(db, key);
  }

  lemma FundingAnswers(db: Db, user: UserId, amount: int, key: Option<string>, reference: string, provider: string)
    requires Wired(db) && Truthy(key)
    ensures AnswersFor(db, key, DecideFunding(db, user, amount, key, reference, provider))
  {
    ReplayAnswers(db, key);
  }

  lemma AnswersWithKey(db: Db, key: Option<string>, d: Decision)
    requires AnswersFor(db, key, d) && ReplyTo(db, d).Transaction?
    ensures var id := ReplyTo(db, d).id; id < |After(db, d).txns| && After(db, d).txns[id].key == key
    ensures (exists t :: t in db.txns && t.key == key) ==> After(db, d) == db
  {
  }

  /** A call that answers with a transaction answers with the one that carries its key,
      and moves money only when no transaction carried the key before. */
  lemma AnswerCarriesKey(db: Db, r: Request)
    requires RowsOk(db) && Wired(db) && Keyed(r) && Truthy(r.key) && Answer(db, r).Some?
    ensures var id := Answer(db, r).value; id < |Serve(db, r).txns| && Serve(db, r).txns[id].key == r.key
    ensures (exists t :: t in db.txns && t.key == r.key) ==> Serve(db, r) == db
  {
    match r {
      case StartTransfer(user, receiver, amount, key, reference) =>
        TransferAnswers(db, user, receiver, amount, key, reference);
      case StartPayment(user, merchant, amount, key, reference) =>
        PaymentAnswers(db, user, merchant, amount, key, reference);
      case StartFunding(user, amount, key, reference, provider) =>
        FundingAnswers(db, user, amount, key, reference, provider);
    }
    AnswersWithKey(db, r.key, Decide(db, r));
  }

  lemma OneRowPerKey(txns: seq<Txn>, i: TxnId, j: TxnId, key: Option<string>)
    requires UniqueColumns(txns) && i < |txns| && j < |txns| && key.Some?
    requires txns[i].key == key && txns[j].key == key
    ensures i == j
  {
  }

  /** Over any run, every later call that answers for a key answers with the same
      transaction as the first, and changes nothing. */
  lemma SameKeySameTransaction(db: GoodDb, first: Request, between: seq<Request>, second: Request)
    requires Keyed(first) && Keyed(second) && first.key == second.key && Truthy(first.key)
    requires Answer(db, first).Some?
    requires Answer(Run(db, [first] + between), second).Some?
    ensures Answer(Run(db, [first] + between), second) == Answer(db, first)
    ensures Serve(Run(db, [first] + between), second) == Run(db, [first] + between)
  {
    ServeKeepsGood(db, first);
    assert ([first] + between)[1..] == between;
    var one: GoodDb := Serve(db, first);
    var later: GoodDb := Run(one, between);
    var id := Answer(db, first).value;
    AnswerCarriesKey(db, first);
    HistoryIsAWalk(one, between, id);
    assert later.txns[id] in later.txns;
    AnswerCarriesKey(later, second);
    OneRowPerKey(later.txns, id, Answer(later, second).value, first.key);
  }
}
