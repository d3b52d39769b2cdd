/** All the handlers that change money, running at the same time, one database
    statement at a time: unlocked reads, wallet row locks taken in id order, the checks
    made under them, the insert that may wait on a unique key, commit or rollback. */
module Locks {
  import opened Options
  import opened Sums
  import opened Records
  import opened Effects
  import opened Fraud
  import opened Ledger
  import opened Decisions

  /** `place` is the commit's position among all commits, `id` the row it wrote. */
  datatype Outcome = Committed(place: nat, id: TxnId) | Existing(id: TxnId) | Refused | Short | Conflict | Ignored

  /** Where a worker stands.  `first`, `second` and `balance` are the balances it read under
      its locks and `row` the transaction as it read it without one; it writes from these,
      never from a second read. */
  datatype Phase =
    | Begin
    | Screening
    | WantFirst
    | WantSecond(first: int)
    | Checking(first: int, second: int)
    | Inserting(first: int, second: int)
    | Inserted(first: int, second: int)
    | ReadingBack
    | Acting(row: Txn)
    | Updating(row: Txn, balance: int)
    | Finished(outcome: Outcome)

  /** `job` is what the worker wants to commit. */
  datatype Worker = Worker(job: Effect, phase: Phase)

  /** `locks` maps a locked wallet row to its holder; `log` lists commits in order. */
  datatype Sys = Sys(db: Db, locks: map<WalletId, nat>, workers: seq<Worker>, log: seq<Effect>)

  // ---- The steps --------------------------------------------------------------------

  function First(job: Effect): WalletId
    requires job.Move? || job.Hold?
  {
    if job.Move? && job.dest < job.source then job.dest else job.source
  }

  function Second(job: Effect): WalletId
    requires job.Move?
  {
    if job.dest < job.source then job.source else job.dest
  }

  function SourceBalance(job: Effect, first: int, second: int): int {
    if job.Move? && job.dest < job.source then second else first
  }

  function DestBalance(job: Effect, first: int, second: int): int
    requires job.Move?
  {
    if job.dest < job.source then first else second
  }

  function KeyOf(job: Effect): Option<string> {
    if job.Move? || job.OpenFunding? then job.key else None
  }

  /** The wallet whose row a handler of an existing transaction locks, if it locks one. */
  function OwnWallet(job: Effect, row: Txn): Option<WalletId> {
    match job
    case CreditFunding(_, _) => row.dest
    case SettlePayout(_) => row.source
    case RefundPayout(_) => row.source
    case _ => None
  }

  /** What a request settles before it starts. */
  predicate JobOk(db: Db, job: Effect) {
    match job
    case Move(kind, source, dest, amount, _, _, _) =>
      kind in {Transfer, MerchantPayment} && source in db.wallets && dest in db.wallets && source != dest && 0 < amount
    case Hold(source, amount, _, _, _) => source in db.wallets && 0 < amount
    case OpenFunding(dest, amount, _, _, _, _) => dest in db.wallets && MINIMUM_FUNDING <= amount
    case CreditFunding(_, paid) => 0 <= paid
    case _ => true
  }

  predicate SameColumns(a: Effect, b: Effect) {
    Inserts(a) && Inserts(b) && (a.reference == b.reference || (KeyOf(a).Some? && KeyOf(a) == KeyOf(b)))
  }

  /** An insert waits while another worker's uncommitted row has the same reference or key. */
  predicate InsertWaits(s: Sys, k: nat)
    requires k < |s.workers|
  {
    exists j :: 0 <= j < |s.workers| && j != k && s.workers[j].phase.Inserted?
                && SameColumns(s.workers[j].job, s.workers[k].job)
  }

  /** Between reading a transaction and committing its update. */
  predicate BusyWith(w: Worker, id: TxnId) {
    (w.phase.Acting? || w.phase.Updating?) && !Inserts(w.job) && w.job.txn == id
  }

  /** Handlers of one transaction are taken one at a time: they read its status without a
      lock, so the code does not decide what two overlapping ones come to.  Where every
      worker has a transaction of its own this never holds anybody up. */
  predicate Overlaps(s: Sys, k: nat)
    requires k < |s.workers|
  {
    !Inserts(s.workers[k].job) &&
    exists j :: 0 <= j < |s.workers| && j != k && BusyWith(s.workers[j], s.workers[k].job.txn)
  }

  predicate Done(w: Worker) { w.phase.Finished? }

  /** The wallet row a worker locks in its next step, if it locks one. */
  function Wants(w: Worker): Option<WalletId> {
    match w.phase
    case WantFirst => if w.job.Move? || w.job.Hold? then Some(First(w.job)) else None
    case WantSecond(_) => if w.job.Move? then Some(Second(w.job)) else None
    case Acting(row) => OwnWallet(w.job, row)
    case _ => None
  }

  predicate CanStep(s: Sys, k: nat) {
    && k < |s.workers| && !Done(s.workers[k])
    && (s.workers[k].phase.Begin? ==> !Overlaps(s, k))
    && (s.workers[k].phase.Inserting? ==> !InsertWaits(s, k))
    && (Wants(s.workers[k]).Some? ==> Wants(s.workers[k]).value !in s.locks)
  }

  function Released(locks: map<WalletId, nat>, k: nat): map<WalletId, nat> {
    map w | w in locks && locks[w] != k :: locks[w]
  }

  /** The writes of an insert, computed from the balances read under its locks. */
  function InsertWrites(db: Db, job: Effect, first: int, second: int): Db
    requires JobOk(db, job) && Inserts(job)
  {
    var id, next := |db.txns|, db.(txns := db.txns + [NewTxn(db, job)]);
    match job
    case Move(_, source, dest, amount, _, _, _) =>
      var out, into := SourceBalance(job, first, second) - amount, DestBalance(job, first, second) + amount;
      next.(ledger := db.ledger + [Entry(id, source, Debit, amount, out), Entry(id, dest, Credit, amount, into)],
            wallets := WithBalance(WithBalance(db.wallets, source, out), dest, into))
    case Hold(source, amount, _, _, _) =>
      next.(wallets := WithBalance(db.wallets, source, first - amount))
    case OpenFunding(_, _, _, _, _, _) => next
  }

  /** The writes of a handler of an existing transaction, computed from the row it read
      without a lock and the balance it read under its lock. */
  function UpdateWrites(db: Db, job: Effect, row: Txn, balance: int): Db
    requires Reads(db, job, row)
  {
    match job
    case CreditFunding(id, paid) =>
      db.(txns := WithStatus(db.txns, id, Completed),
          ledger := db.ledger + [Entry(id, row.dest.value, Credit, paid, balance + paid)],
          wallets := WithBalance(db.wallets, row.dest.value, balance + paid))
    case FailFunding(id) =>
      db.(txns := WithStatus(db.txns, id, Failed))
    case Dispatch(id, code, recipient) =>
      var a := row.account.value;
      db.(txns := db.txns[id := db.txns[id].(status := Processing, provider := Some(code))],
          accounts := db.accounts[a := db.accounts[a].(recipient := recipient)])
    case SettlePayout(id) =>
      db.(txns := WithStatus(db.txns, id, Completed),
          ledger := db.ledger + [Entry(id, row.source.value, Debit, row.amount, balance)])
    case RefundPayout(id) =>
      db.(txns := WithStatus(db.txns, id, Failed),
          wallets := WithBalance(db.wallets, row.source.value, balance + row.amount))
  }

  /** The answer of the idempotency lookup; `otherwise` when there is nothing to answer. */
  function LookUp(db: Db, key: Option<string>, otherwise: Phase): Phase {
    match Replay(db, key)
    case None => otherwise
    case Some(d) => if d.Return? then Finished(Existing(d.txn)) else Finished(Conflict)
  }

  /** The first read: the idempotency key, or the transaction the event is about. */
  function FirstRead(db: Db, job: Effect): Phase {
    if Inserts(job) then LookUp(db, KeyOf(job), Screening)
    else if Enabled(db, job) then Acting(db.txns[job.txn])
    else Finished(Ignored)
  }

  /** A worker's next phase.  `place` is where a commit would stand; `passes` is what its
      unlocked limit checks, or its call to Paystack, came to. */
  function NextPhase(db: Db, w: Worker, place: nat, passes: bool): Phase
    requires WorkerOk(db, w)
  {
    match w.phase
    case Begin => FirstRead(db, w.job)
    case Screening =>
      if !passes then Finished(Refused) else if w.job.OpenFunding? then Inserting(0, 0) else WantFirst
    case WantFirst =>
      var balance := db.wallets[First(w.job)].balance;
      if w.job.Move? then WantSecond(balance) else Checking(balance, 0)
    case WantSecond(first) => Checking(first, db.wallets[Second(w.job)].balance)
    case Checking(first, second) =>
      if SourceBalance(w.job, first, second) < w.job.amount then Finished(Short) else Inserting(first, second)
    case Inserting(first, second) =>
      if Fresh(db.txns, w.job.reference, KeyOf(w.job)) then Inserted(first, second)
      else if w.job.Move? then ReadingBack
      else Finished(Conflict)
    case Inserted(_, _) => Finished(Committed(place, |db.txns|))
    case ReadingBack => LookUp(db, KeyOf(w.job), Finished(Conflict))
    case Acting(row) =>
      var own := OwnWallet(w.job, row);
      if own.Some? then Updating(row, db.wallets[own.value].balance)
      else if passes then Updating(row, 0)
      else Finished(Refused)
    case Updating(_, _) => Finished(Committed(place, w.job.txn))
    case Finished(_) => w.phase
  }

  predicate Commits(w: Worker) { w.phase.Inserted? || w.phase.Updating? }

  /** What a commit makes of the database. */
  function Written(db: Db, w: Worker): Db
    requires WorkerOk(db, w) && Commits(w)
  {
    if w.phase.Inserted? then InsertWrites(db, w.job, w.phase.first, w.phase.second)
    else UpdateWrites(db, w.job, w.phase.row, w.phase.balance)
  }

  /** Worker k takes its next step.  Commit and rollback release all its locks. */
  function Step(s: Sys, k: nat, passes: bool): Sys
    requires WorkersOk(s.db, s.workers) && CanStep(s, k)
  {
    var w := s.workers[k];
    assert WorkerOk(s.db, w);
    var phase := NextPhase(s.db, w, |s.log|, passes);
    Sys(if Commits(w) then Written(s.db, w) else s.db,
        if Wants(w).Some? then s.locks[Wants(w).value := k]
        else if phase.Finished? || phase.ReadingBack? then Released(s.locks, k)
        else s.locks,
        s.workers[k := w.(phase := phase)],
        if Commits(w) then s.log + [w.job] else s.log)
  }

  // ---- The invariant --------------------------------------------------------------------

  predicate Locking(job: Effect, wallet: WalletId) {
    (job.Move? && wallet in {job.source, job.dest}) || (job.Hold? && wallet == job.source)
  }

  predicate Holds(w: Worker, wallet: WalletId) {
    match w.phase
    case WantSecond(_) => w.job.Move? && wallet == First(w.job)
    case Checking(_, _) => Locking(w.job, wallet)
    case Inserting(_, _) => Locking(w.job, wallet)
    case Inserted(_, _) => Locking(w.job, wallet)
    case Updating(row, _) => OwnWallet(w.job, row) == Some(wallet)
    case _ => false
  }

  /** The balances a worker goes by are the committed ones. */
  predicate Current(db: Db, job: Effect, first: int, second: int) {
    && JobOk(db, job) && Inserts(job)
    && (job.Move? || job.Hold? ==> first == db.wallets[First(job)].balance)
    && (job.Move? ==> second == db.wallets[Second(job)].balance)
  }

  predicate Covered(job: Effect, first: int, second: int) {
    job.Move? || job.Hold? ==> job.amount <= SourceBalance(job, first, second)
  }

  /** The row a handler goes by is the committed one, and is one it may update. */
  predicate Reads(db: Db, job: Effect, row: Txn) {
    !Inserts(job) && Enabled(db, job) && row == db.txns[job.txn]
  }

  predicate HasColumns(txns: seq<Txn>, id: TxnId, job: Effect) {
    id < |txns| && (Inserts(job) ==> txns[id].reference == job.reference && txns[id].key == KeyOf(job))
  }

  predicate WorkerOk(db: Db, w: Worker) {
    && JobOk(db, w.job)
    && match w.phase
       case Begin => true
       case Screening => Inserts(w.job)
       case WantFirst => w.job.Move? || w.job.Hold?
       case WantSecond(first) => w.job.Move? && first == db.wallets[First(w.job)].balance
       case Checking(first, second) => Current(db, w.job, first, second) && !w.job.OpenFunding?
       case Inserting(first, second) => Current(db, w.job, first, second) && Covered(w.job, first, second)
       case Inserted(first, second) =>
         && Current(db, w.job, first, second) && Covered(w.job, first, second)
         && Fresh(db.txns, w.job.reference, KeyOf(w.job))
       case ReadingBack => w.job.Move?
       case Acting(row) => Reads(db, w.job, row)
       case Updating(row, balance) =>
         && Reads(db, w.job, row)
         && var own := OwnWallet(w.job, row);
            own.Some? ==> own.value in db.wallets && balance == db.wallets[own.value].balance
       case Finished(Committed(_, id)) => HasColumns(db.txns, id, w.job)
       case Finished(Existing(id)) =>
         id < |db.txns| && Truthy(KeyOf(w.job)) && db.txns[id].key == KeyOf(w.job)
       case Finished(_) => true
  }

  /** A row is locked by exactly the worker that holds it. */
  ghost predicate LocksOk(locks: map<WalletId, nat>, workers: seq<Worker>) {
    && (forall wallet :: wallet in locks ==> locks[wallet] < |workers| && Holds(workers[locks[wallet]], wallet))
    && (forall k, wallet :: 0 <= k < |workers| && Holds(workers[k], wallet) ==> wallet in locks && locks[wallet] == k)
  }

  /** The id of the row a worker has inserted and committed. */
  function InsertedId(w: Worker): Option<TxnId> {
    if Inserts(w.job) && w.phase.Finished? && w.phase.outcome.Committed? then Some(w.phase.outcome.id) else None
  }

  /** Two uncommitted rows with the same unique column, two handlers busy with one
      transaction, or two inserts that were given one id. */
  predicate Clash(v: Worker, w: Worker) {
    || (v.phase.Inserted? && w.phase.Inserted? && SameColumns(v.job, w.job))
    || (!Inserts(v.job) && BusyWith(v, v.job.txn) && BusyWith(w, v.job.txn))
    || (InsertedId(v).Some? && InsertedId(v) == InsertedId(w))
  }

  ghost predicate RowsDiffer(workers: seq<Worker>) {
    forall i, j :: 0 <= i < |workers| && 0 <= j < |workers| && i != j ==> !Clash(workers[i], workers[j])
  }

  ghost predicate WorkersOk(db: Db, workers: seq<Worker>) {
    forall k :: 0 <= k < |workers| ==> WorkerOk(db, workers[k])
  }

  ghost predicate SysOk(s: Sys) {
    WorkersOk(s.db, s.workers) && LocksOk(s.locks, s.workers) && RowsDiffer(s.workers)
  }

  // ---- A commit is the atomic effect ------------------------------------------------------

  /** What a worker writes from its snapshots is the effect applied to the committed rows. */
  lemma WritesTheEffect(db: Db, w: Worker)
    requires WorkerOk(db, w) && Commits(w)
    ensures Enabled(db, w.job) && Written(db, w) == Apply(db, w.job)
  {
  }

  /** An event about the only row with its reference starts a handler exactly when that
      handler, alone on the same database, would commit; so does reconciliation of an unpaid
      funding, and a payout task that would commit is one that starts. */
  lemma StartsAsDecided(db: Db, id: TxnId, succeeded: bool, paid: nat)
    requires RowsOk(db) && UniqueColumns(db.txns) && id < |db.txns|
    ensures var job := if succeeded then SettlePayout(id) else RefundPayout(id);
      DecidePayoutResult(db, db.txns[id].reference, succeeded) == if FirstRead(db, job).Acting? then Commit(job) else Skip
    ensures var p := db.txns[id].provider; var job := CreditFunding(id, paid);
      p.Some? && p.value != "" && ScalarOneOrNone(db.txns, ByProvider(p.value)) == OneRow(id) ==>
        DecideCharge(db, p.value, paid) == if FirstRead(db, job).Acting? then Commit(job) else Skip
    ensures forall provider :: StaleFunding(db, id) ==>
      DecideReconcile(db, id, provider, None) == if FirstRead(db, FailFunding(id)).Acting? then Commit(FailFunding(id)) else Skip
    ensures forall code, recipient ::
      var d := DecidePayout(db, id, code, recipient); d.Commit? ==> FirstRead(db, d.effect).Acting?
  {
    assert TxnOk(db.wallets, db.txns[id]);
    OnlyMatch(db.txns, ByReference(db.txns[id].reference), id);
  }

  lemma ColumnsStay(db: Db, job: Effect)
    requires Enabled(db, job)
    ensures |db.txns| <= |Apply(db, job).txns|
    ensures forall i :: 0 <= i < |db.txns| ==>
      (Apply(db, job).txns[i].reference, Apply(db, job).txns[i].key) == (db.txns[i].reference, db.txns[i].key)
  {
  }

  /** The unique columns of an insert stay free through the commit of another job. */
  lemma FreshStays(db: Db, job: Effect, other: Effect)
    requires Enabled(db, job) && Inserts(other) && !SameColumns(job, other) && Fresh(db.txns, other.reference, KeyOf(other))
    ensures Fresh(Apply(db, job).txns, other.reference, KeyOf(other))
  {
    var next := Apply(db, job).txns;
    forall t | t in next ensures t.reference != other.reference && (KeyOf(other).Some? ==> t.key != KeyOf(other)) {
      var i :| 0 <= i < |next| && next[i] == t;
      if i < |db.txns| {
        assert db.txns[i] in db.txns;
      }
    }
  }

  /** A handler's transaction stays as read while other transactions are written. */
  lemma ReadsStay(db: Db, job: Effect, other: Effect, row: Txn)
    requires Enabled(db, job) && Reads(db, other, row) && (!Inserts(job) ==> job.txn != other.txn)
    ensures Reads(Apply(db, job), other, row)
  {
    UntouchedRows(db, job);
    assert Apply(db, job).txns[other.txn] == row;
  }

  /** A worker that holds none of the wallets a job writes, whose unique columns are other
      ones and who is busy with another transaction is not disturbed by its commit. */
  lemma OthersUndisturbed(db: Db, job: Effect, w: Worker)
    requires Enabled(db, job) && WorkerOk(db, w)
    requires forall x :: x in db.wallets && Holds(w, x) ==> Apply(db, job).wallets[x] == db.wallets[x]
    requires w.phase.Inserted? ==> !SameColumns(job, w.job)
    requires !Inserts(job) ==> !BusyWith(w, job.txn)
    ensures WorkerOk(Apply(db, job), w)
  {
    UntouchedRows(db, job);
    ColumnsStay(db, job);
    if w.phase.Inserted? {
      FreshStays(db, job, w.job);
    } else if w.phase.Acting? || w.phase.Updating? {
      ReadsStay(db, job, w.job, w.phase.row);
    }
  }

  // ---- Every step keeps the invariant --------------------------------------------------------

  /** Releasing frees what worker k held and nothing else. */
  lemma ReleaseKeepsLocks(locks: map<WalletId, nat>, workers: seq<Worker>, k: nat, w: Worker)
    requires LocksOk(locks, workers) && k < |workers| && forall wallet: WalletId :: !Holds(w, wallet)
    ensures LocksOk(Released(locks, k), workers[k := w])
  {
  }

  /** Taking a free row adds it to what worker k holds. */
  lemma AcquireKeepsLocks(locks: map<WalletId, nat>, workers: seq<Worker>, k: nat, w: Worker, taken: WalletId)
    requires LocksOk(locks, workers) && k < |workers| && taken !in locks
    requires forall wallet: WalletId :: Holds(w, wallet) <==> Holds(workers[k], wallet) || wallet == taken
    ensures LocksOk(locks[taken := k], workers[k := w])
  {
  }

  lemma SameHoldsKeepsLocks(locks: map<WalletId, nat>, workers: seq<Worker>, k: nat, w: Worker)
    requires LocksOk(locks, workers) && k < |workers|
    requires forall wallet: WalletId :: Holds(w, wallet) <==> Holds(workers[k], wallet)
    ensures LocksOk(locks, workers[k := w])
  {
  }

  lemma LookUpFinds(db: Db, key: Option<string>, otherwise: Phase)
    ensures var p := LookUp(db, key, otherwise);
      || p == otherwise || p == Finished(Conflict)
      || (p.Finished? && p.outcome.Existing? && Truthy(key) && p.outcome.id < |db.txns| && db.txns[p.outcome.id].key == key)
  {
  }

  /** A step that commits nothing moves its worker on and keeps its view current. */
  lemma NextPhaseOk(db: Db, w: Worker, place: nat, passes: bool)
    requires WorkerOk(db, w) && !Commits(w) && !Done(w)
    ensures var v := w.(phase := NextPhase(db, w, place, passes));
      && WorkerOk(db, v) && Remaining(v) < Remaining(w) && CommitOf(v).None? && InsertedId(v).None?
  {
    LookUpFinds(db, KeyOf(w.job), Screening);
    LookUpFinds(db, KeyOf(w.job), Finished(Conflict));
  }

  lemma ReadStep(s: Sys, k: nat, passes: bool)
    requires SysOk(s) && CanStep(s, k) && !Commits(s.workers[k])
    ensures var next := Step(s, k, passes);
      && next.db == s.db && next.log == s.log && |next.workers| == |s.workers|
      && next.workers == s.workers[k := next.workers[k]] && next.workers[k].job == s.workers[k].job
      && WorkerOk(s.db, next.workers[k])
      && Remaining(next.workers[k]) < Remaining(s.workers[k])
      && CommitOf(next.workers[k]).None? && InsertedId(next.workers[k]).None?
  {
    assert WorkerOk(s.db, s.workers[k]);
    NextPhaseOk(s.db, s.workers[k], |s.log|, passes);
  }

  /** A job writes no wallet but those its worker has locked. */
  lemma WritesWhatItHolds(db: Db, w: Worker, x: WalletId)
    requires WorkerOk(db, w) && Commits(w) && x in db.wallets && !Holds(w, x)
    ensures Enabled(db, w.job) && x in Apply(db, w.job).wallets && Apply(db, w.job).wallets[x] == db.wallets[x]
  {
  }

  /** Committing worker k applies its effect and leaves every other worker's view current. */
  lemma CommitStep(s: Sys, k: nat, passes: bool)
    requires SysOk(s) && CanStep(s, k) && Commits(s.workers[k])
    ensures var next := Step(s, k, passes); var w := s.workers[k];
      && Enabled(s.db, w.job) && next.db == Apply(s.db, w.job) && next.log == s.log + [w.job]
      && next.workers == s.workers[k := Worker(w.job, Finished(Committed(|s.log|, Touched(s.db, w.job))))]
      && WorkersOk(next.db, next.workers)
  {
    var w, next := s.workers[k], Step(s, k, passes);
    assert WorkerOk(s.db, w);
    WritesTheEffect(s.db, w);
    forall j | 0 <= j < |next.workers| ensures WorkerOk(next.db, next.workers[j]) {
      if j != k {
        var v := s.workers[j];
        forall x | x in s.db.wallets && Holds(v, x) ensures next.db.wallets[x] == s.db.wallets[x] {
          assert s.locks[x] == j;
          WritesWhatItHolds(s.db, w, x);
        }
        assert !Clash(w, v);
        OthersUndisturbed(s.db, w.job, v);
      }
    }
  }

  /** A step holds what was held and the row it takes, unless it finishes or rolls back. */
  lemma HoldsAfter(db: Db, w: Worker, place: nat, passes: bool)
    requires WorkerOk(db, w) && !Done(w)
    ensures var phase := NextPhase(db, w, place, passes);
      forall x: WalletId :: Holds(w.(phase := phase), x) <==>
        !phase.Finished? && !phase.ReadingBack? && (Holds(w, x) || Wants(w) == Some(x))
    ensures Wants(w).Some? ==> var phase := NextPhase(db, w, place, passes); !phase.Finished? && !phase.ReadingBack?
  {
    LookUpFinds(db, KeyOf(w.job), Screening);
    LookUpFinds(db, KeyOf(w.job), Finished(Conflict));
  }

  lemma StepKeepsLocks(s: Sys, k: nat, passes: bool)
    requires SysOk(s) && CanStep(s, k)
    ensures LocksOk(Step(s, k, passes).locks, Step(s, k, passes).workers)
  {
    var w, next := s.workers[k], Step(s, k, passes);
    assert WorkerOk(s.db, w);
    HoldsAfter(s.db, w, |s.log|, passes);
    if Wants(w).Some? {
      AcquireKeepsLocks(s.locks, s.workers, k, next.workers[k], Wants(w).value);
    } else if next.workers[k].phase.Finished? || next.workers[k].phase.ReadingBack? {
      ReleaseKeepsLocks(s.locks, s.workers, k, next.workers[k]);
    } else {
      SameHoldsKeepsLocks(s.locks, s.workers, k, next.workers[k]);
    }
  }

  /** The stepping worker clashes with nobody after its step. */
  lemma StepClashesWithNone(s: Sys, k: nat, passes: bool, j: nat)
    requires SysOk(s) && CanStep(s, k) && j < |s.workers| && j != k
    ensures k < |Step(s, k, passes).workers|
    ensures !Clash(Step(s, k, passes).workers[k], s.workers[j]) && !Clash(s.workers[j], Step(s, k, passes).workers[k])
  {
    var w, v := s.workers[k], s.workers[j];
    assert WorkerOk(s.db, w) && WorkerOk(s.db, v) && !Clash(w, v) && !Clash(v, w);
    if Commits(w) {
      CommitStep(s, k, passes);
    } else {
      ReadStep(s, k, passes);
    }
  }

  lemma StepKeepsRowsDifferent(s: Sys, k: nat, passes: bool)
    requires SysOk(s) && CanStep(s, k)
    requires Step(s, k, passes).workers == s.workers[k := Step(s, k, passes).workers[k]]
    ensures RowsDiffer(Step(s, k, passes).workers)
  {
    var next := Step(s, k, passes);
    forall i, j | 0 <= i < |next.workers| && 0 <= j < |next.workers| && i != j
      ensures !Clash(next.workers[i], next.workers[j])
    {
      if i == k {
        StepClashesWithNone(s, k, passes, j);
      } else if j == k {
        StepClashesWithNone(s, k, passes, i);
      } else {
        assert !Clash(s.workers[i], s.workers[j]);
      }
    }
  }

  lemma StepKeeps(s: Sys, k: nat, passes: bool)
    requires SysOk(s) && CanStep(s, k)
    ensures SysOk(Step(s, k, passes)) && |Step(s, k, passes).workers| == |s.workers|
  {
    if Commits(s.workers[k]) {
      CommitStep(s, k, passes);
    } else {
      ReadStep(s, k, passes);
    }
    StepKeepsLocks(s, k, passes);
    StepKeepsRowsDifferent(s, k, passes);
  }

  // ---- Whole schedules ------------------------------------------------------------------------

  type GoodSys = s: Sys | SysOk(s) witness Sys(EMPTY, map[], [], [])

  /** Who steps next, and what its limit checks or its call to Paystack would come to. */
  datatype Turn = Turn(worker: nat, passes: bool)

  function Take(s: GoodSys, t: Turn): GoodSys {
    if CanStep(s, t.worker) then
      StepKeeps(s, t.worker, t.passes);
      Step(s, t.worker, t.passes)
    else s
  }

  function Schedule(s: GoodSys, turns: seq<Turn>): GoodSys
    decreases |turns|
  {
    if turns == [] then s else Schedule(Take(s, turns[0]), turns[1..])
  }

  /** The log run one effect at a time, each with its guard: None if a guard fails. */
  function Serially(db: Db, log: seq<Effect>): Option<Db>
    decreases |log|
  {
    if log == [] then Some(db)
    else
      var before := Serially(db, log[..|log| - 1]);
      var e := log[|log| - 1];
      if before.Some? && Enabled(before.value, e) then Some(Apply(before.value, e)) else None
  }

  lemma TakeIsSerial(db0: Db, s: GoodSys, t: Turn)
    requires Serially(db0, s.log) == Some(s.db)
    ensures Serially(db0, Take(s, t).log) == Some(Take(s, t).db)
  {
    var k := t.worker;
    if CanStep(s, k) {
      if Commits(s.workers[k]) {
        CommitStep(s, k, t.passes);
        assert (s.log + [s.workers[k].job])[..|s.log|] == s.log;
      } else {
        ReadStep(s, k, t.passes);
      }
    }
  }

  /** Every interleaving of any number of workers leaves the database that running the
      committed jobs one at a time, in commit order and each under its own guard, leaves. */
  lemma {:induction false} InterleavingsAreSerial(db0: Db, s: GoodSys, turns: seq<Turn>)
    requires Serially(db0, s.log) == Some(s.db)
    ensures Serially(db0, Schedule(s, turns).log) == Some(Schedule(s, turns).db)
    decreases |turns|
  {
    if turns != [] {
      TakeIsSerial(db0, s, turns[0]);
      InterleavingsAreSerial(db0, Take(s, turns[0]), turns[1..]);
    }
  }

  /** The place of a worker's commit, once it has committed. */
  function CommitOf(w: Worker): Option<nat> {
    if w.phase.Finished? && w.phase.outcome.Committed? then Some(w.phase.outcome.place) else None
  }

  ghost predicate MadeBySome(workers: seq<Worker>, job: Effect, place: nat) {
    exists k :: 0 <= k < |workers| && CommitOf(workers[k]) == Some(place) && workers[k].job == job
  }

  /** A committed worker's job stands in the log at its place. */
  ghost predicate Placed(workers: seq<Worker>, log: seq<Effect>) {
    forall k :: 0 <= k < |workers| && CommitOf(workers[k]).Some? ==>
      CommitOf(workers[k]).value < |log| && log[CommitOf(workers[k]).value] == workers[k].job
  }

  ghost predicate Filled(workers: seq<Worker>, log: seq<Effect>) {
    forall m :: 0 <= m < |log| ==> MadeBySome(workers, log[m], m)
  }

  ghost predicate Once(workers: seq<Worker>) {
    forall i, j :: 0 <= i < j < |workers| && CommitOf(workers[i]).Some? ==> CommitOf(workers[i]) != CommitOf(workers[j])
  }

  /** The log is what the workers committed, each once, in the order of their commits. */
  ghost predicate LogOk(workers: seq<Worker>, log: seq<Effect>) {
    Placed(workers, log) && Filled(workers, log) && Once(workers)
  }

  lemma StillFilled(workers: seq<Worker>, log: seq<Effect>, k: nat, w: Worker)
    requires Filled(workers, log) && k < |workers| && CommitOf(workers[k]).None?
    ensures Filled(workers[k := w], log)
  {
    forall m | 0 <= m < |log| ensures MadeBySome(workers[k := w], log[m], m) {
      assert MadeBySome(workers, log[m], m);
      var i :| 0 <= i < |workers| && CommitOf(workers[i]) == Some(m) && workers[i].job == log[m];
      assert workers[k := w][i] == workers[i];
    }
  }

  lemma StillOnce(workers: seq<Worker>, log: seq<Effect>, k: nat, w: Worker)
    requires Once(workers) && Placed(workers, log) && k < |workers|
    requires CommitOf(w).Some? ==> CommitOf(w).value == |log|
    ensures Once(workers[k := w])
  {
  }

  /** A commit appends its job at the next place. */
  lemma LogGrows(workers: seq<Worker>, log: seq<Effect>, k: nat, w: Worker)
    requires LogOk(workers, log) && k < |workers| && CommitOf(workers[k]).None?
    requires CommitOf(w) == Some(|log|)
    ensures LogOk(workers[k := w], log + [w.job])
  {
    var next, grown := workers[k := w], log + [w.job];
    StillFilled(workers, log, k, w);
    StillOnce(workers, log, k, w);
    forall m | 0 <= m < |grown| ensures MadeBySome(next, grown[m], m) {
      if m < |log| {
        assert MadeBySome(next, log[m], m);
      } else {
        assert CommitOf(next[k]) == Some(m) && next[k].job == grown[m];
      }
    }
  }

  lemma TakeKeepsLog(s: GoodSys, t: Turn)
    requires LogOk(s.workers, s.log)
    ensures LogOk(Take(s, t).workers, Take(s, t).log)
  {
    var k, next := t.worker, Take(s, t);
    if CanStep(s, k) {
      if Commits(s.workers[k]) {
        CommitStep(s, k, t.passes);
        LogGrows(s.workers, s.log, k, next.workers[k]);
      } else {
        ReadStep(s, k, t.passes);
        StillFilled(s.workers, s.log, k, next.workers[k]);
        StillOnce(s.workers, s.log, k, next.workers[k]);
      }
    }
  }

  /** From a start with no commits, the log of any schedule is exactly the jobs its workers
      report committed, one entry each, in the order of their commits. */
  lemma {:induction false} LogIsTheCommits(s: GoodSys, turns: seq<Turn>)
    requires LogOk(s.workers, s.log)
    ensures LogOk(Schedule(s, turns).workers, Schedule(s, turns).log)
    decreases |turns|
  {
    if turns != [] {
      TakeKeepsLog(s, turns[0]);
      LogIsTheCommits(Take(s, turns[0]), turns[1..]);
    }
  }

  /** A serial log keeps the accounting invariant. */
  lemma {:induction false} SerialKeepsInv(db: Db, log: seq<Effect>)
    requires Inv(db) && Serially(db, log).Some?
    ensures Inv(Serially(db, log).value)
    decreases |log|
  {
    if log != [] {
      SerialKeepsInv(db, log[..|log| - 1]);
      ApplyKeepsInv(Serially(db, log[..|log| - 1]).value, log[|log| - 1]);
    }
  }

  /** So balances, postings and unique keys survive every interleaving. */
  lemma InterleavingsKeepInv(s: GoodSys, turns: seq<Turn>)
    requires Inv(s.db) && s.log == []
    ensures Inv(Schedule(s, turns).db)
  {
    InterleavingsAreSerial(s.db, s, turns);
    SerialKeepsInv(s.db, Schedule(s, turns).log);
  }

  /** Any population of jobs, none of them begun. */
  function Start(db: Db, jobs: seq<Effect>): Sys {
    Sys(db, map[], seq(|jobs|, k requires 0 <= k < |jobs| => Worker(jobs[k], Begin)), [])
  }

  /** Every population is a start of the theorems here. */
  lemma StartIsGood(db: Db, jobs: seq<Effect>)
    requires forall job :: job in jobs ==> JobOk(db, job)
    ensures SysOk(Start(db, jobs)) && LogOk(Start(db, jobs).workers, [])
    ensures Serially(db, Start(db, jobs).log) == Some(db)
  {
    forall k | 0 <= k < |jobs| ensures WorkerOk(db, Start(db, jobs).workers[k]) {
      assert jobs[k] in jobs;
    }
  }

  /** From any database and any population of jobs, every schedule keeps the accounting
      invariant, ends as its committed jobs run one at a time do, and reports each once. */
  lemma EveryInterleaving(db: Db, jobs: seq<Effect>, turns: seq<Turn>)
    requires Inv(db) && forall job :: job in jobs ==> JobOk(db, job)
    ensures SysOk(Start(db, jobs))
    ensures var end := Schedule(Start(db, jobs), turns);
      Inv(end.db) && Serially(db, end.log) == Some(end.db) && LogOk(end.workers, end.log)
  {
    StartIsGood(db, jobs);
    InterleavingsAreSerial(db, Start(db, jobs), turns);
    InterleavingsKeepInv(Start(db, jobs), turns);
    LogIsTheCommits(Start(db, jobs), turns);
  }

  function Answered(w: Worker): Option<TxnId> {
    match w.phase
    case Finished(Committed(_, id)) => Some(id)
    case Finished(Existing(id)) => Some(id)
    case _ => None
  }

  /** Racing callers with the same key that get a transaction get the same one, and at
      most one of them committed it. */
  lemma RacersAgree(s: GoodSys, turns: seq<Turn>, i: nat, j: nat)
    requires Inv(s.db) && s.log == [] && i < |Schedule(s, turns).workers| && j < |Schedule(s, turns).workers|
    requires var v, w := Schedule(s, turns).workers[i], Schedule(s, turns).workers[j];
      KeyOf(v.job).Some? && KeyOf(v.job) == KeyOf(w.job) && Answered(v).Some? && Answered(w).Some?
    ensures Answered(Schedule(s, turns).workers[i]) == Answered(Schedule(s, turns).workers[j])
    ensures i != j ==> CommitOf(Schedule(s, turns).workers[i]).None? || CommitOf(Schedule(s, turns).workers[j]).None?
  {
    var t := Schedule(s, turns);
    InterleavingsKeepInv(s, turns);
    assert WorkerOk(t.db, t.workers[i]) && WorkerOk(t.db, t.workers[j]);
    assert i != j ==> !Clash(t.workers[i], t.workers[j]);
  }

  // ---- What each worker is told --------------------------------------------------------------

  /** A transfer or payment whose key belongs to row `id`, at a point where it has still to
      meet that row, or has met it. */
  ghost predicate MeetsKey(db: Db, w: Worker, id: TxnId) {
    && w.job.Move? && Truthy(w.job.key) && id < |db.txns| && db.txns[id].key == w.job.key
    && (w.phase.Begin? || w.phase.Inserting? || w.phase.ReadingBack? || w.phase == Finished(Existing(id)))
  }

  lemma MeetsKeyStays(db: Db, w: Worker, id: TxnId, place: nat, passes: bool)
    requires UniqueColumns(db.txns) && WorkerOk(db, w) && MeetsKey(db, w, id)
    ensures MeetsKey(db, w.(phase := NextPhase(db, w, place, passes)), id)
  {
    assert db.txns[id] in db.txns;
    OnlyMatch(db.txns, ByKey(w.job.key.value), id);
  }

  lemma TakeMeetsKey(s: GoodSys, t: Turn, k: nat, id: TxnId)
    requires Inv(s.db) && k < |s.workers| && MeetsKey(s.db, s.workers[k], id)
    ensures k < |Take(s, t).workers| && Inv(Take(s, t).db) && MeetsKey(Take(s, t).db, Take(s, t).workers[k], id)
  {
    var j := t.worker;
    if CanStep(s, j) {
      assert WorkerOk(s.db, s.workers[j]);
      if Commits(s.workers[j]) {
        CommitStep(s, j, t.passes);
        ApplyKeepsInv(s.db, s.workers[j].job);
        ColumnsStay(s.db, s.workers[j].job);
      } else {
        ReadStep(s, j, t.passes);
        if j == k {
          MeetsKeyStays(s.db, s.workers[k], id, |s.log|, t.passes);
        }
      }
    }
  }

  /** The loser of a race on a key gets the winner's transaction: a transfer or payment that
      is about to insert, or has not begun, when row `id` carries its key ends with `id`. */
  lemma {:induction false} LoserIsAnswered(s: GoodSys, turns: seq<Turn>, k: nat, id: TxnId)
    requires Inv(s.db) && k < |s.workers| && MeetsKey(s.db, s.workers[k], id)
    ensures k < |Schedule(s, turns).workers|
    ensures Done(Schedule(s, turns).workers[k]) ==> Answered(Schedule(s, turns).workers[k]) == Some(id)
    decreases |turns|
  {
    if turns != [] {
      TakeMeetsKey(s, turns[0], k, id);
      LoserIsAnswered(Take(s, turns[0]), turns[1..], k, id);
    }
  }

  /** What layer one decides in the section a job runs under its locks. */
  function UnderLocks(db: Db, job: Effect): Decision
    requires Inserts(job)
  {
    match job
    case Move(kind, source, dest, amount, user, key, reference) =>
      DecideMove(db, kind, source, dest, amount, user, key, reference)
    case Hold(source, amount, user, account, reference) => DecideHold(db, source, amount, user, account, reference)
    case OpenFunding(_, _, _, key, reference, _) => if Fresh(db.txns, reference, key) then Commit(job) else Raise(Integrity)
  }

  function OutcomeOf(db: Db, d: Decision): Outcome {
    match d
    case Commit(e) => Committed(0, Touched(db, e))
    case Return(id) => Existing(id)
    case Raise(error) => if error == InsufficientBalance then Short else Conflict
    case Skip => Ignored
  }

  /** What layer one decides for a job on this database; `passes` says what its limit checks,
      or its call to Paystack, come to. */
  function Decided(db: Db, job: Effect, passes: bool): Outcome {
    if Inserts(job) then
      var known := Replay(db, KeyOf(job));
      if known.Some? then OutcomeOf(db, known.value)
      else if passes then OutcomeOf(db, UnderLocks(db, job))
      else Refused
    else if !Enabled(db, job) then Ignored
    else if passes || job.CreditFunding? || job.SettlePayout? || job.RefundPayout? then OutcomeOf(db, Commit(job))
    else Refused
  }

  /** What a worker that runs alone from `db` has established. */
  ghost predicate OnCourse(db: Db, s: Sys, job: Effect, passes: bool) {
    && |s.workers| == 1 && s.workers[0].job == job
    && match s.workers[0].phase
       case Finished(outcome) =>
         outcome == Decided(db, job, passes) && (outcome.Committed? ==> Enabled(db, job))
         && s.db == if outcome.Committed? then Apply(db, job) else db
       case phase => s.db == db && s.log == [] && Established(db, job, phase, passes)
  }

  predicate Established(db: Db, job: Effect, phase: Phase, passes: bool) {
    match phase
    case Begin => true
    case Acting(_) => true
    case Updating(_, _) => passes || job.CreditFunding? || job.SettlePayout? || job.RefundPayout?
    case Screening => Replay(db, KeyOf(job)).None?
    case ReadingBack =>
      && Replay(db, KeyOf(job)).None? && passes && job.Move? && JobOk(db, job)
      && job.amount <= db.wallets[job.source].balance && !Fresh(db.txns, job.reference, job.key)
    case _ => Replay(db, KeyOf(job)).None? && passes
  }

  lemma StaysOnCourse(db: Db, w: Worker, passes: bool)
    requires WorkerOk(db, w) && !Commits(w) && !Done(w) && Established(db, w.job, w.phase, passes)
    ensures var phase := NextPhase(db, w, 0, passes);
      if phase.Finished? then phase.outcome == Decided(db, w.job, passes) && !phase.outcome.Committed?
      else Established(db, w.job, phase, passes)
  {
  }

  lemma CommitsOnCourse(db: Db, w: Worker, passes: bool)
    requires WorkerOk(db, w) && Commits(w) && Established(db, w.job, w.phase, passes)
    ensures Decided(db, w.job, passes) == Committed(0, Touched(db, w.job))
  {
  }

  lemma TakeOnCourse(db: Db, s: GoodSys, t: Turn, job: Effect)
    requires OnCourse(db, s, job, t.passes)
    ensures OnCourse(db, Take(s, t), job, t.passes)
  {
    if CanStep(s, t.worker) {
      var w := s.workers[0];
      assert WorkerOk(s.db, w);
      if Commits(w) {
        CommitStep(s, 0, t.passes);
        CommitsOnCourse(db, w, t.passes);
      } else {
        ReadStep(s, 0, t.passes);
        StaysOnCourse(db, w, t.passes);
      }
    }
  }

  lemma {:induction false} ScheduleOnCourse(db: Db, s: GoodSys, turns: seq<Turn>, job: Effect, passes: bool)
    requires OnCourse(db, s, job, passes) && forall t :: t in turns ==> t.passes == passes
    ensures OnCourse(db, Schedule(s, turns), job, passes)
    decreases |turns|
  {
    if turns != [] {
      assert turns[0] in turns;
      TakeOnCourse(db, s, turns[0], job);
      ScheduleOnCourse(db, Take(s, turns[0]), turns[1..], job, passes);
    }
  }

  /** A worker that runs alone ends exactly as layer one decides: the statements of a handler,
      one at a time, come to its decision and its one effect. */
  lemma AloneAsDecided(db: Db, job: Effect, turns: seq<Turn>, passes: bool)
    requires JobOk(db, job) && forall t :: t in turns ==> t.passes == passes
    ensures SysOk(Start(db, [job])) && |Schedule(Start(db, [job]), turns).workers| == 1
    ensures var end := Schedule(Start(db, [job]), turns); var outcome := Decided(db, job, passes);
      Done(end.workers[0]) ==>
        && end.workers[0].phase.outcome == outcome
        && (outcome.Committed? ==> Enabled(db, job)) && end.db == if outcome.Committed? then Apply(db, job) else db
  {
    StartIsGood(db, [job]);
    ScheduleOnCourse(db, Start(db, [job]), turns, job, passes);
  }

  // ---- No deadlock -------------------------------------------------------------------------------

  /** The row a worker waits for, 0 when it waits for none. */
  function Wanted(w: Worker): WalletId { if Wants(w).Some? then Wants(w).value else 0 }

  /** A blocked insert waits for a worker that has only its commit left to do. */
  lemma InserterCanCommit(s: Sys, k: nat) returns (j: nat)
    requires k < |s.workers| && s.workers[k].phase.Inserting? && !CanStep(s, k)
    ensures CanStep(s, j)
  {
    j :| 0 <= j < |s.workers| && j != k && s.workers[j].phase.Inserted? && SameColumns(s.workers[j].job, s.workers[k].job);
  }

  predicate Begun(w: Worker) { !w.phase.Begin? && !Done(w) }

  /** A worker blocked on a row waits for one that holds the row and is itself further on. */
  lemma HolderIsAhead(s: GoodSys, k: nat) returns (holder: nat)
    requires k < |s.workers| && Begun(s.workers[k]) && !s.workers[k].phase.Inserting? && !CanStep(s, k)
    ensures holder < |s.workers| && Begun(s.workers[holder])
    ensures CanStep(s, holder) || s.workers[holder].phase.Inserting? || Wanted(s.workers[k]) < Wanted(s.workers[holder])
  {
    assert WorkerOk(s.db, s.workers[k]);
    holder := s.locks[Wanted(s.workers[k])];
    assert Holds(s.workers[holder], Wanted(s.workers[k]));
    assert WorkerOk(s.db, s.workers[holder]);
  }

  /** Follow the waits: each leads to a worker that wants a higher row, or to one that can step. */
  lemma {:induction false} FollowWaits(s: GoodSys, k: nat, bound: nat) returns (j: nat)
    requires k < |s.workers| && Begun(s.workers[k])
    requires forall i :: 0 <= i < |s.workers| ==> Wanted(s.workers[i]) < bound
    ensures CanStep(s, j)
    decreases bound - Wanted(s.workers[k])
  {
    if CanStep(s, k) {
      j := k;
    } else if s.workers[k].phase.Inserting? {
      j := InserterCanCommit(s, k);
    } else {
      j := HolderIsAhead(s, k);
      if !CanStep(s, j) {
        if s.workers[j].phase.Inserting? {
          j := InserterCanCommit(s, j);
        } else {
          j := FollowWaits(s, j, bound);
        }
      }
    }
  }

  lemma {:induction false} SomeBound(workers: seq<Worker>) returns (bound: nat)
    ensures forall i :: 0 <= i < |workers| ==> Wanted(workers[i]) < bound
  {
    bound := 0;
    for n := 0 to |workers|
      invariant forall i :: 0 <= i < n ==> Wanted(workers[i]) < bound
    {
      if bound <= Wanted(workers[n]) {
        bound := Wanted(workers[n]) + 1;
      }
    }
  }

  /** Deadlock freedom: while any worker is unfinished, some worker can take a step. */
  lemma NoDeadlock(s: GoodSys, k: nat) returns (j: nat)
    requires k < |s.workers| && !Done(s.workers[k])
    ensures CanStep(s, j)
  {
    if CanStep(s, k) {
      return k;
    }
    var bound := SomeBound(s.workers);
    j := k;
    if s.workers[k].phase.Begin? {
      j :| 0 <= j < |s.workers| && j != k && BusyWith(s.workers[j], s.workers[k].job.txn);
    }
    j := FollowWaits(s, j, bound);
  }

  /** Statements a worker still has to run. */
  function Remaining(w: Worker): int {
    match w.phase
    case Begin => 8
    case Screening => 7
    case WantFirst => 6
    case WantSecond(_) => 5
    case Checking(_, _) => 4
    case Inserting(_, _) => 3
    case Inserted(_, _) => 2
    case Acting(_) => 2
    case Updating(_, _) => 1
    case ReadingBack => 1
    case Finished(_) => 0
  }

  lemma StepAdvances(s: Sys, k: nat, passes: bool)
    requires SysOk(s) && CanStep(s, k)
    ensures Step(s, k, passes).workers == s.workers[k := Step(s, k, passes).workers[k]]
    ensures Remaining(Step(s, k, passes).workers[k]) < Remaining(s.workers[k])
  {
    if Commits(s.workers[k]) {
      CommitStep(s, k, passes);
    } else {
      ReadStep(s, k, passes);
    }
  }

  /** Every step shortens what is left, so only finitely many are ever taken. */
  lemma StepsRunOut(s: GoodSys, t: Turn)
    requires CanStep(s, t.worker)
    ensures 0 <= Sum(Take(s, t).workers, Remaining) < Sum(s.workers, Remaining)
  {
    var workers := Take(s, t).workers;
    StepAdvances(s, t.worker, t.passes);
    SumUpdate(s.workers, t.worker, workers[t.worker], Remaining);
    SumNonnegative(workers, Remaining);
  }

  /** Each turn is taken by a worker that can step. */
  predicate NoIdleTurn(s: GoodSys, turns: seq<Turn>)
    decreases |turns|
  {
    turns == [] || (CanStep(s, turns[0].worker) && NoIdleTurn(Take(s, turns[0]), turns[1..]))
  }

  /** However the workers are scheduled and whatever their checks come to, they take a
      bounded number of steps, and when nobody can step everybody has finished. */
  lemma {:induction false} EveryScheduleFinishes(s: GoodSys, turns: seq<Turn>)
    requires NoIdleTurn(s, turns)
    ensures |turns| <= Sum(s.workers, Remaining)
    ensures (forall j: nat :: !CanStep(Schedule(s, turns), j)) ==>
      forall k :: 0 <= k < |Schedule(s, turns).workers| ==> Done(Schedule(s, turns).workers[k])
    decreases |turns|
  {
    if turns != [] {
      StepsRunOut(s, turns[0]);
      EveryScheduleFinishes(Take(s, turns[0]), turns[1..]);
    } else {
      SumNonnegative(s.workers, Remaining);
      if k: nat :| k < |s.workers| && !Done(s.workers[k]) {
        var j := NoDeadlock(s, k);
      }
    }
  }

  /** From anywhere, whatever each worker's checks come to, some schedule finishes everybody. */
  lemma {:induction false} AllCanFinish(s: GoodSys, answers: nat -> bool) returns (turns: seq<Turn>)
    ensures forall k :: 0 <= k < |Schedule(s, turns).workers| ==> Done(Schedule(s, turns).workers[k])
    ensures forall t :: t in turns ==> t.passes == answers(t.worker)
    decreases Sum(s.workers, Remaining)
  {
    if k: nat :| k < |s.workers| && !Done(s.workers[k]) {
      var j := NoDeadlock(s, k);
      var t := Turn(j, answers(j));
      SumNonnegative(s.workers, Remaining);
      StepsRunOut(s, t);
      var rest := AllCanFinish(Take(s, t), answers);
      turns := [t] + rest;
      assert turns[1..] == rest;
    } else {
      turns := [];
    }
  }
}
