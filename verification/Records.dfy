/** The rows of the database and the queries the services put to them. */
module Records {
  import opened Options

  type UserId = nat
  /** A wallet's UUID read as a number: UUIDs print as fixed-width lower-case hex,
      so ordering wallets by `str(id)` is ordering them by this number. */
  type WalletId = nat
  /** A transaction's or bank account's position in its append-only table. */
  type TxnId = nat
  type AccountId = nat

  datatype TxnType = Funding | Transfer | MerchantPayment | Withdrawal
  datatype Status = Pending | Processing | Completed | Failed | Reversed

  function ValidTransitions(s: Status): set<Status> {
    match s
    case Pending => {Processing}
    case Processing => {Completed, Failed}
    case Completed => {Reversed}
    case Failed => {}
    case Reversed => {}
  }

  datatype User = User(active: bool, tier: nat, wallet: WalletId)

  /** Money is in kobo. */
  datatype Wallet = Wallet(owner: UserId, balance: int, active: bool)

  datatype Merchant = Merchant(user: UserId, active: bool)

  datatype Txn = Txn(
    reference: string, kind: TxnType, status: Status, amount: int,
    source: Option<WalletId>, dest: Option<WalletId>, user: UserId,
    provider: Option<string>, key: Option<string>, account: Option<AccountId>,
    createdAt: nat)

  datatype Side = Debit | Credit
  datatype Entry = Entry(txn: TxnId, wallet: WalletId, side: Side, amount: int, balanceAfter: int)

  /** `recipient` is Paystack's cached recipient code, "" while there is none. */
  datatype Account = Account(owner: UserId, isDefault: bool, deleted: bool, recipient: string)

  datatype KycStatus = UnderReview | Approved | Rejected
  datatype Submission = Submission(user: UserId, tier: nat, status: KycStatus)

  datatype Db = Db(
    now: nat, users: map<UserId, User>, wallets: map<WalletId, Wallet>, txns: seq<Txn>,
    ledger: seq<Entry>, accounts: seq<Account>, submissions: seq<Submission>)

  const EMPTY := Db(0, map[], map[], [], [], [], [])

  /** What SQLAlchemy's scalar_one_or_none makes of a result set: it raises on two rows. */
  datatype Rows = NoRow | OneRow(id: nat) | ManyRows

  function ScalarOneOrNone<T>(s: seq<T>, p: T -> bool): (r: Rows)
    ensures r.NoRow? <==> forall i :: 0 <= i < |s| ==> !p(s[i])
    ensures r.OneRow? ==> r.id < |s| && p(s[r.id]) && forall i :: 0 <= i < |s| && p(s[i]) ==> i == r.id
    ensures r.ManyRows? ==> exists i, j :: 0 <= i < j < |s| && p(s[i]) && p(s[j])
  {
    if s == [] then NoRow
    else
      var front := ScalarOneOrNone(s[..|s| - 1], p);
      if !p(s[|s| - 1]) then front
      else if front.NoRow? then OneRow(|s| - 1)
      else ManyRows
  }

  /** A row that is the only match is the one the query returns. */
  lemma OnlyMatch<T>(s: seq<T>, p: T -> bool, i: nat)
    requires i < |s| && p(s[i])
    requires forall j :: 0 <= j < |s| && p(s[j]) ==> j == i
    ensures ScalarOneOrNone(s, p) == OneRow(i)
  {
  }

  /** The oldest matching row: ORDER BY created_at LIMIT 1. */
  function First<T>(s: seq<T>, p: T -> bool): (r: Option<nat>)
    ensures r.None? <==> forall i :: 0 <= i < |s| ==> !p(s[i])
    ensures r.Some? ==> r.value < |s| && p(s[r.value]) && forall i :: 0 <= i < r.value ==> !p(s[i])
  {
    if s == [] then None
    else
      var front := First(s[..|s| - 1], p);
      if front.Some? then front else if p(s[|s| - 1]) then Some(|s| - 1) else None
  }

  function ByReference(reference: string): Txn -> bool { (t: Txn) => t.reference == reference }
  function ByProvider(provider: string): Txn -> bool { (t: Txn) => t.provider == Some(provider) }
  function ByKey(key: string): Txn -> bool { (t: Txn) => t.key == Some(key) }

  predicate Active(t: Txn) { t.kind == Withdrawal && t.status in {Pending, Processing} }
  predicate Terminal(t: Txn) { t.status in {Completed, Failed, Reversed} }
  function ActiveOf(user: UserId): Txn -> bool { (t: Txn) => t.user == user && Active(t) }

  /** Python truth of an optional key: None and "" are both false. */
  predicate Truthy(key: Option<string>) { key.Some? && key.value != "" }

  function WalletOf(db: Db, user: UserId): Option<WalletId> {
    if user in db.users then Some(db.users[user].wallet) else None
  }

  predicate Usable(db: Db, wallet: Option<WalletId>) {
    wallet.Some? && wallet.value in db.wallets && db.wallets[wallet.value].active
  }

  function LiveAccount(db: Db, id: AccountId): Option<Account> {
    if id < |db.accounts| && !db.accounts[id].deleted then Some(db.accounts[id]) else None
  }

  /** The two UNIQUE columns of the transactions table. */
  predicate Fresh(txns: seq<Txn>, reference: string, key: Option<string>) {
    forall t :: t in txns ==> t.reference != reference && (key.Some? ==> t.key != key)
  }

  /** Rows written under one transaction id, oldest first. */
  function Postings(ledger: seq<Entry>, id: TxnId): seq<Entry> {
    if ledger == [] then []
    else
      var front, last := Postings(ledger[..|ledger| - 1], id), ledger[|ledger| - 1];
      if last.txn == id then front + [last] else front
  }

  function Signed(e: Entry): int { if e.side == Credit then e.amount else -e.amount }
  function SignedOn(w: WalletId): Entry -> int { (e: Entry) => if e.wallet == w then Signed(e) else 0 }

  /** Money a withdrawal has taken from its wallet without a ledger entry yet. */
  function Held(t: Txn): int { if Active(t) then t.amount else 0 }
  function HeldOn(w: WalletId): Txn -> int { (t: Txn) => if t.source == Some(w) then Held(t) else 0 }

  function Balances(wallets: map<WalletId, Wallet>): map<WalletId, int> {
    map w | w in wallets :: wallets[w].balance
  }
}
