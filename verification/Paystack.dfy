/** The back end together with Paystack.  Paystack holds charges and transfers by
    reference; its messages sit in a pool from which any may be delivered at any
    time, any number of times, or never; and a worker may die after calling Paystack
    and before its commit. */
module Paystack {
  import opened Options
  import opened Sums
  import opened Records
  import opened Effects
  import opened Ledger
  import opened Decisions
  import opened System

  datatype PayoutStatus = InFlight | Succeeded | Bounced | Returned
  datatype Payout = Payout(amount: int, status: PayoutStatus)

  /** `Verified` is an answer of the verify endpoint, true when it was given. */
  datatype Message =
    | ChargePaid(provider: string, amount: nat)
    | TransferOutcome(event: TransferEvent, reference: string)
    | Verified(provider: string, paid: Option<nat>)

  /** What Paystack knows: charges opened, what customers paid on them, transfers requested. */
  datatype Books = Books(charges: set<string>, paid: map<string, nat>, payouts: map<string, Payout>)

  datatype World = World(db: GoodDb, books: Books, pool: set<Message>)

  datatype Action =
    | Local(request: Request)
    | Fund(user: UserId, amount: int, key: Option<string>, reference: string, provider: string, dies: bool)
    | PayOut(id: TxnId, code: string, recipient: string, dies: bool)
    | Deliver(message: Message)
    | ReconcileOn(id: TxnId, message: Message)
    | CustomerPays(provider: string, charged: nat)
    | AnswerVerify(provider: string)
    | TransferResolves(reference: string, status: PayoutStatus)

  /** Requests that do not involve Paystack. */
  predicate Internal(r: Request) {
    !r.StartFunding? && !r.ChargeSuccess? && !r.Reconcile? && !r.ExecutePayout? && !r.TransferResult?
  }

  function EventOf(status: PayoutStatus): TransferEvent {
    match status
    case InFlight => OtherEvent
    case Succeeded => TransferSuccess
    case Bounced => TransferFailed
    case Returned => TransferReversed
  }

  /** A transfer succeeds, fails or is reversed; a successful one may still be reversed. */
  predicate Resolves(from: PayoutStatus, to: PayoutStatus) {
    (from == InFlight && to != InFlight) || (from == Succeeded && to == Returned)
  }

  function Opened(books: Books, provider: string): Books {
    books.(charges := books.charges + {provider})
  }

  /** Paystack deduplicates transfers by reference. */
  function Requested(books: Books, reference: string, amount: int): Books {
    if reference in books.payouts then books
    else books.(payouts := books.payouts[reference := Payout(amount, InFlight)])
  }

  /** Paystack is called only past the screen, and answers with the reference of a new charge. */
  predicate CallsForFunding(w: World, user: UserId, amount: int, key: Option<string>, provider: string) {
    0 < amount && ScreenFunding(w.db, user, amount, key).None? && provider !in w.books.charges
  }

  /** The request an action puts to the back end, if it is one the back end serves to its end. */
  function RequestOf(w: World, a: Action): Option<Request> {
    match a
    case Local(r) => if Internal(r) then Some(r) else None
    case Fund(user, amount, key, reference, provider, dies) =>
      if dies || !CallsForFunding(w, user, amount, key, provider) then None
      else Some(StartFunding(user, amount, key, reference, provider))
    case PayOut(id, code, recipient, dies) => if dies then None else Some(ExecutePayout(id, code, recipient))
    case Deliver(m) => if m in w.pool then EventRequest(m) else None
    case ReconcileOn(id, m) =>
      if m in w.pool && m.Verified? && id < |w.db.txns| && w.db.txns[id].provider == Some(m.provider)
      then Some(Reconcile(id, m.provider, m.paid)) else None
    case _ => None
  }

  function EventRequest(m: Message): Option<Request> {
    match m
    case ChargePaid(provider, amount) => Some(ChargeSuccess(provider, amount))
    case TransferOutcome(event, reference) => Some(TransferResult(event, reference))
    case Verified(_, _) => None
  }

  /** An action's effect on the back end's database. */
  ghost function StepDb(w: World, a: Action): GoodDb {
    var r := RequestOf(w, a);
    if r.Some? then Next(w.db, r.value) else w.db
  }

  /** An action's effect on Paystack's books. */
  ghost function StepBooks(w: World, a: Action): Books {
    match a
    case Fund(user, amount, key, _, provider, _) =>
      if CallsForFunding(w, user, amount, key, provider) then Opened(w.books, provider) else w.books
    case PayOut(id, code, recipient, _) =>
      if DecidePayout(w.db, id, code, recipient).Commit?
      then Requested(w.books, w.db.txns[id].reference, w.db.txns[id].amount) else w.books
    case CustomerPays(provider, charged) =>
      if provider in w.books.charges && provider !in w.books.paid
      then w.books.(paid := w.books.paid[provider := charged]) else w.books
    case TransferResolves(reference, status) =>
      if CanResolve(w.books, reference, status) then Resolved(w.books, reference, status) else w.books
    case _ => w.books
  }

  predicate CanResolve(books: Books, reference: string, status: PayoutStatus) {
    reference in books.payouts && Resolves(books.payouts[reference].status, status)
  }

  function Resolved(books: Books, reference: string, status: PayoutStatus): Books
    requires reference in books.payouts
  {
    books.(payouts := books.payouts[reference := books.payouts[reference].(status := status)])
  }

  /** The messages an action leaves in the pool; none is ever removed. */
  function StepPool(books: Books, pool: set<Message>, a: Action): set<Message> {
    match a
    case CustomerPays(provider, charged) =>
      if provider in books.charges && provider !in books.paid then pool + {ChargePaid(provider, charged)} else pool
    case AnswerVerify(provider) =>
      if provider !in books.charges then pool
      else pool + {Verified(provider, if provider in books.paid then Some(books.paid[provider]) else None)}
    case TransferResolves(reference, status) =>
      if CanResolve(books, reference, status) then pool + {TransferOutcome(EventOf(status), reference)} else pool
    case _ => pool
  }

  ghost function Step(w: World, a: Action): World {
    World(StepDb(w, a), StepBooks(w, a), StepPool(w.books, w.pool, a))
  }

  ghost function Start(): World {
    World(Empty(), Books({}, map[], map[]), {})
  }

  ghost function Play(w: World, actions: seq<Action>): World
    decreases |actions|
  {
    if actions == [] then w else Play(Step(w, actions[0]), actions[1..])
  }

  // ---- What ties the two together ---------------------------------------------------

  predicate FundingOk(db: Db, id: TxnId, charges: set<string>, paid: map<string, nat>)
    requires id < |db.txns|
  {
    var t := db.txns[id];
    t.kind == Funding ==>
      && t.provider.Some? && t.provider.value in charges
      && (t.status == Completed ==>
            t.provider.value in paid && Sum(Postings(db.ledger, id), Signed) == paid[t.provider.value])
  }

  ghost predicate FundingsOk(db: Db, charges: set<string>, paid: map<string, nat>) {
    && paid.Keys <= charges
    && (forall i :: 0 <= i < |db.txns| ==> FundingOk(db, i, charges, paid))
    && OneFundingPerCharge(db.txns)
  }

  ghost predicate OneFundingPerCharge(txns: seq<Txn>) {
    forall i, j :: 0 <= i < j < |txns| && txns[i].kind == Funding && txns[j].kind == Funding ==>
      txns[i].provider != txns[j].provider
  }

  predicate UnusedCharge(txns: seq<Txn>, provider: string) {
    forall t :: t in txns && t.kind == Funding ==> t.provider != Some(provider)
  }

  predicate PaysFor(db: Db, i: TxnId, reference: string, amount: int) {
    i < |db.txns| && db.txns[i].reference == reference && db.txns[i].kind == Withdrawal && db.txns[i].amount == amount
  }

  predicate PayoutOk(t: Txn, payouts: map<string, Payout>) {
    t.kind == Withdrawal && t.status != Pending ==>
      && t.reference in payouts
      && (t.status == Failed ==> payouts[t.reference].status in {Bounced, Returned})
      && (t.status == Completed ==> payouts[t.reference].status in {Succeeded, Returned})
  }

  ghost predicate PayoutsOk(db: Db, payouts: map<string, Payout>) {
    && (forall t :: t in db.txns ==> PayoutOk(t, payouts))
    && (forall r :: r in payouts ==> exists i: TxnId :: PaysFor(db, i, r, payouts[r].amount))
  }

  ghost predicate Tied(db: Db, books: Books) {
    match books
    case Books(charges, paid, payouts) => FundingsOk(db, charges, paid) && PayoutsOk(db, payouts)
  }

  predicate Truthful(m: Message, books: Books) {
    match m
    case ChargePaid(provider, amount) => provider in books.paid && books.paid[provider] == amount
    case Verified(provider, answer) => answer.Some? ==> provider in books.paid && books.paid[provider] == answer.value
    case TransferOutcome(event, reference) =>
      && reference in books.payouts
      && match event
         case TransferSuccess => books.payouts[reference].status in {Succeeded, Returned}
         case TransferFailed => books.payouts[reference].status == Bounced
         case TransferReversed => books.payouts[reference].status == Returned
         case OtherEvent => true
  }

  ghost predicate WorldOk(w: World) {
    Tied(w.db, w.books) && forall m :: m in w.pool ==> Truthful(m, w.books)
  }

  // ---- Effects keep the tie --------------------------------------------------------------

  lemma FundingAfter(db: Db, e: Effect, i: TxnId, charges: set<string>, paid: map<string, nat>)
    requires RowsOk(db) && PostingsOk(db) && Enabled(db, e) && i < |Apply(db, e).txns|
    requires i < |db.txns| ==> FundingOk(db, i, charges, paid)
    requires e.OpenFunding? ==> e.provider in charges
    requires e.CreditFunding? && db.txns[e.txn].provider.Some? ==>
      db.txns[e.txn].provider.value in paid && paid[db.txns[e.txn].provider.value] == e.paid
    ensures FundingOk(Apply(db, e), i, charges, paid)
  {
    UntouchedRows(db, e);
    AppendedOk(db, e);
    PostingsAfter(db, e, i);
    if i == Touched(db, e) {
      TouchedPostings(db, e);
      SumOfFew(Appended(db, e), Signed);
    }
    if i < |db.txns| {
      assert TxnOk(db.wallets, db.txns[i]);
    }
  }

  lemma EffectKeepsFundings(db: Db, e: Effect, charges: set<string>, paid: map<string, nat>)
    requires RowsOk(db) && PostingsOk(db) && FundingsOk(db, charges, paid) && Enabled(db, e)
    requires e.OpenFunding? ==> e.provider in charges && UnusedCharge(db.txns, e.provider)
    requires e.CreditFunding? && db.txns[e.txn].provider.Some? ==>
      db.txns[e.txn].provider.value in paid && paid[db.txns[e.txn].provider.value] == e.paid
    ensures FundingsOk(Apply(db, e), charges, paid)
  {
    forall i | 0 <= i < |Apply(db, e).txns| ensures FundingOk(Apply(db, e), i, charges, paid) {
      FundingAfter(db, e, i, charges, paid);
    }
    KeepsDistinct(db, e);
  }

  lemma KeepsDistinct(db: Db, e: Effect)
    requires RowsOk(db) && Enabled(db, e) && OneFundingPerCharge(db.txns)
    requires e.OpenFunding? ==> UnusedCharge(db.txns, e.provider)
    ensures OneFundingPerCharge(Apply(db, e).txns)
  {
    var next := Apply(db, e);
    UntouchedRows(db, e);
    forall i, j | 0 <= i < j < |next.txns| && next.txns[i].kind == Funding && next.txns[j].kind == Funding
      ensures next.txns[i].provider != next.txns[j].provider
    {
      assert db.txns[i] in db.txns;
    }
  }

  lemma PayersStay(db: Db, next: Db, payouts: map<string, Payout>)
    requires forall r :: r in payouts ==> exists i: TxnId :: PaysFor(db, i, r, payouts[r].amount)
    requires |db.txns| <= |next.txns|
    requires forall i :: 0 <= i < |db.txns| ==>
      (next.txns[i].reference, next.txns[i].kind, next.txns[i].amount) ==
      (db.txns[i].reference, db.txns[i].kind, db.txns[i].amount)
    ensures forall r :: r in payouts ==> exists i: TxnId :: PaysFor(next, i, r, payouts[r].amount)
  {
    forall r | r in payouts ensures exists i: TxnId :: PaysFor(next, i, r, payouts[r].amount) {
      var i: TxnId :| PaysFor(db, i, r, payouts[r].amount);
      assert PaysFor(next, i, r, payouts[r].amount);
    }
  }

  lemma EffectKeepsPayouts(db: Db, e: Effect, payouts: map<string, Payout>)
    requires RowsOk(db) && PayoutsOk(db, payouts) && Enabled(db, e)
    requires e.Dispatch? ==> db.txns[e.txn].reference in payouts
    requires e.SettlePayout? && db.txns[e.txn].reference in payouts ==>
      payouts[db.txns[e.txn].reference].status in {Succeeded, Returned}
    requires e.RefundPayout? && db.txns[e.txn].reference in payouts ==>
      payouts[db.txns[e.txn].reference].status in {Bounced, Returned}
    ensures PayoutsOk(Apply(db, e), payouts)
  {
    var next := Apply(db, e);
    UntouchedRows(db, e);
    PayersStay(db, next, payouts);
    forall t | t in next.txns ensures PayoutOk(t, payouts) {
      var i :| 0 <= i < |next.txns| && next.txns[i] == t;
      if i < |db.txns| {
        assert PayoutOk(db.txns[i], payouts);
      }
    }
  }

  // ---- Every action keeps the tie ----------------------------------------------------------

  /** What Paystack's books must say for an effect to keep the tie. */
  predicate Backed(db: Db, e: Effect, books: Books)
    requires Enabled(db, e)
  {
    match e
    case OpenFunding(_, _, _, _, _, provider) => provider in books.charges && UnusedCharge(db.txns, provider)
    case CreditFunding(id, paid) =>
      var provider := db.txns[id].provider;
      provider.Some? && provider.value in books.paid && books.paid[provider.value] == paid
    case Dispatch(id, _, _) => db.txns[id].reference in books.payouts
    case SettlePayout(id) =>
      var r := db.txns[id].reference;
      r in books.payouts && books.payouts[r].status in {Succeeded, Returned}
    case RefundPayout(id) =>
      var r := db.txns[id].reference;
      r in books.payouts && books.payouts[r].status in {Bounced, Returned}
    case _ => true
  }

  lemma EffectKeepsTie(db: Db, e: Effect, books: Books)
    requires RowsOk(db) && PostingsOk(db) && Tied(db, books) && Enabled(db, e) && Backed(db, e, books)
    ensures Tied(Apply(db, e), books)
  {
    EffectKeepsFundings(db, e, books.charges, books.paid);
    EffectKeepsPayouts(db, e, books.payouts);
  }

  lemma DecisionKeepsTie(db: Db, d: Decision, books: Books)
    requires RowsOk(db) && PostingsOk(db) && Tied(db, books)
    requires d.Commit? ==> Enabled(db, d.effect) && Backed(db, d.effect, books)
    ensures Tied(After(db, d), books)
  {
    if d.Commit? {
      EffectKeepsTie(db, d.effect, books);
    }
  }

  /** The same through the request that led to the decision. */
  lemma ServeKeepsTie(db: GoodDb, r: Request, books: Books)
    requires Tied(db, books) && Money(r) && Admissible(db, r)
    requires Decide(db, r).Commit? ==> Backed(db, Decide(db, r).effect, books)
    ensures Tied(Next(db, r), books)
  {
    DecisionKeepsTie(db, Decide(db, r), books);
  }

  lemma SameRowsKeepTie(db: Db, next: Db, books: Books)
    requires Tied(db, books) && next.txns == db.txns && next.ledger == db.ledger
    ensures Tied(next, books)
  {
    forall i | 0 <= i < |next.txns| ensures FundingOk(next, i, books.charges, books.paid) {
      assert FundingOk(db, i, books.charges, books.paid);
    }
    PayersStay(db, next, books.payouts);
  }

  lemma InternalIsBacked(db: Db, r: Request, books: Books)
    requires RowsOk(db) && Wired(db) && Internal(r) && Money(r) && Admissible(db, r)
    ensures var d := Decide(db, r); d.Commit? ==> Backed(db, d.effect, books)
  {
  }

  lemma InternalKeeps(db: GoodDb, r: Request, books: Books)
    requires Tied(db, books) && Internal(r)
    ensures Tied(Next(db, r), books)
  {
    if !Money(r) {
      OtherKeepsRows(db, r);
      SameRowsKeepTie(db, Other(db, r), books);
    } else if Admissible(db, r) {
      InternalIsBacked(db, r, books);
      ServeKeepsTie(db, r, books);
    }
  }

  lemma OpeningKeepsTie(db: Db, books: Books, provider: string)
    requires Tied(db, books) && provider !in books.charges
    ensures Tied(db, Opened(books, provider)) && UnusedCharge(db.txns, provider)
  {
    forall i | 0 <= i < |db.txns|
      ensures FundingOk(db, i, Opened(books, provider).charges, books.paid)
      ensures db.txns[i].kind == Funding ==> db.txns[i].provider != Some(provider)
    {
      assert FundingOk(db, i, books.charges, books.paid);
    }
  }

  lemma FundKeeps(db: GoodDb, user: UserId, amount: int, key: Option<string>, reference: string, provider: string, books: Books)
    requires Tied(db, books) && provider !in books.charges && 0 < amount
    ensures Tied(Next(db, StartFunding(user, amount, key, reference, provider)), Opened(books, provider))
  {
    OpeningKeepsTie(db, books, provider);
    ServeKeepsTie(db, StartFunding(user, amount, key, reference, provider), Opened(books, provider));
  }

  lemma RequestKeepsTie(db: Db, id: TxnId, books: Books)
    requires RowsOk(db) && Tied(db, books) && Is(db, id, Withdrawal, Pending)
    ensures Tied(db, Requested(books, db.txns[id].reference, db.txns[id].amount))
  {
    var t := db.txns[id];
    var next := Requested(books, t.reference, t.amount);
    assert PaysFor(db, id, t.reference, t.amount);
    forall u | u in db.txns ensures PayoutOk(u, next.payouts) {
      assert PayoutOk(u, books.payouts);
    }
  }

  lemma DispatchKeeps(db: GoodDb, id: TxnId, code: string, recipient: string, books: Books)
    requires Tied(db, books) && DecidePayout(db, id, code, recipient).Commit?
    ensures id < |db.txns|
    ensures Tied(db, Requested(books, db.txns[id].reference, db.txns[id].amount))
    ensures Tied(Next(db, ExecutePayout(id, code, recipient)), Requested(books, db.txns[id].reference, db.txns[id].amount))
  {
    RequestKeepsTie(db, id, books);
    ServeKeepsTie(db, ExecutePayout(id, code, recipient), Requested(books, db.txns[id].reference, db.txns[id].amount));
  }

  lemma ChargeKeeps(db: GoodDb, provider: string, amount: nat, books: Books)
    requires Tied(db, books) && Truthful(ChargePaid(provider, amount), books)
    ensures Tied(Next(db, ChargeSuccess(provider, amount)), books)
  {
    ServeKeepsTie(db, ChargeSuccess(provider, amount), books);
  }

  lemma OutcomeIsBacked(db: Db, event: TransferEvent, reference: string, books: Books)
    requires RowsOk(db) && Truthful(TransferOutcome(event, reference), books)
    ensures var d := DecideTransferEvent(db, event, reference); d.Commit? ==> Backed(db, d.effect, books)
  {
  }

  lemma OutcomeKeeps(db: GoodDb, event: TransferEvent, reference: string, books: Books)
    requires Tied(db, books) && Truthful(TransferOutcome(event, reference), books)
    ensures Tied(Next(db, TransferResult(event, reference)), books)
  {
    OutcomeIsBacked(db, event, reference, books);
    ServeKeepsTie(db, TransferResult(event, reference), books);
  }

  lemma ReconcileIsBacked(db: Db, id: TxnId, provider: string, verified: Option<nat>, books: Books)
    requires RowsOk(db) && Wired(db) && Truthful(Verified(provider, verified), books) && StaleFunding(db, id)
    ensures var d := Decide(db, Reconcile(id, provider, verified)); d.Commit? ==> Backed(db, d.effect, books)
  {
  }

  lemma RefusedChangesNothing(db: GoodDb, r: Request)
    requires Money(r) && !Admissible(db, r)
    ensures Next(db, r) == db
  {
  }

  lemma ReconcileKeeps(db: GoodDb, id: TxnId, provider: string, verified: Option<nat>, books: Books)
    requires Tied(db, books) && Truthful(Verified(provider, verified), books)
    ensures Tied(Next(db, Reconcile(id, provider, verified)), books)
  {
    if StaleFunding(db, id) {
      ReconcileIsBacked(db, id, provider, verified, books);
      ServeKeepsTie(db, Reconcile(id, provider, verified), books);
    } else {
      RefusedChangesNothing(db, Reconcile(id, provider, verified));
    }
  }

  lemma PaymentKeepsTie(db: Db, books: Books, provider: string, charged: nat)
    requires Tied(db, books) && provider in books.charges && provider !in books.paid
    ensures Tied(db, books.(paid := books.paid[provider := charged]))
  {
    var paid := books.paid[provider := charged];
    forall i | 0 <= i < |db.txns| ensures FundingOk(db, i, books.charges, paid) {
      assert FundingOk(db, i, books.charges, books.paid);
    }
  }

  lemma ResolutionKeepsTie(db: Db, books: Books, reference: string, status: PayoutStatus)
    requires Tied(db, books) && CanResolve(books, reference, status)
    ensures Tied(db, Resolved(books, reference, status))
  {
    var payouts := Resolved(books, reference, status).payouts;
    forall t | t in db.txns ensures PayoutOk(t, payouts) {
      assert PayoutOk(t, books.payouts);
    }
  }

  predicate Advances(from: PayoutStatus, to: PayoutStatus) { to == from || Resolves(from, to) }

  /** Paystack's books only grow, and a transfer's outcome only advances. */
  ghost predicate Grown(books: Books, later: Books) {
    && (forall p :: p in books.paid ==> p in later.paid && later.paid[p] == books.paid[p])
    && (forall r :: r in books.payouts ==> r in later.payouts && Advances(books.payouts[r].status, later.payouts[r].status))
  }

  lemma TruthStays(m: Message, books: Books, later: Books)
    requires Grown(books, later) && Truthful(m, books)
    ensures Truthful(m, later)
  {
  }

  lemma StepGrows(w: World, a: Action)
    ensures Grown(w.books, StepBooks(w, a))
  {
  }

  /** A message Paystack puts in the pool is true when it is put there. */
  lemma NewMessageIsTrue(w: World, a: Action, m: Message)
    requires m in StepPool(w.books, w.pool, a) && m !in w.pool
    ensures Truthful(m, StepBooks(w, a))
  {
  }

  lemma PoolStaysTrue(w: World, a: Action)
    requires forall m :: m in w.pool ==> Truthful(m, w.books)
    ensures forall m :: m in StepPool(w.books, w.pool, a) ==> Truthful(m, StepBooks(w, a))
  {
    StepGrows(w, a);
    forall m | m in StepPool(w.books, w.pool, a) ensures Truthful(m, StepBooks(w, a)) {
      if m in w.pool {
        TruthStays(m, w.books, StepBooks(w, a));
      } else {
        NewMessageIsTrue(w, a, m);
      }
    }
  }

  lemma CallKeepsTie(w: World, a: Action)
    requires Tied(w.db, w.books) && (a.Local? || a.Fund? || a.PayOut?)
    ensures Tied(StepDb(w, a), StepBooks(w, a))
  {
    match a
    case Local(r) => if Internal(r) { InternalKeeps(w.db, r, w.books); }
    case Fund(user, amount, key, reference, provider, dies) =>
      if CallsForFunding(w, user, amount, key, provider) {
        OpeningKeepsTie(w.db, w.books, provider);
        FundKeeps(w.db, user, amount, key, reference, provider, w.books);
      }
    case PayOut(id, code, recipient, dies) =>
      if DecidePayout(w.db, id, code, recipient).Commit? {
        DispatchKeeps(w.db, id, code, recipient, w.books);
      } else if !dies {
        ServeKeepsTie(w.db, ExecutePayout(id, code, recipient), w.books);
      }
  }

  /** Paystack's books say what the request says of them. */
  predicate Vouched(r: Request, books: Books) {
    match r
    case ChargeSuccess(provider, amount) => Truthful(ChargePaid(provider, amount), books)
    case TransferResult(event, reference) => Truthful(TransferOutcome(event, reference), books)
    case Reconcile(_, provider, paid) => Truthful(Verified(provider, paid), books)
    case _ => false
  }

  lemma VouchedKeepsTie(db: GoodDb, r: Request, books: Books)
    requires Tied(db, books) && Vouched(r, books)
    ensures Tied(Next(db, r), books)
  {
    match r
    case ChargeSuccess(provider, amount) => ChargeKeeps(db, provider, amount, books);
    case TransferResult(event, reference) => OutcomeKeeps(db, event, reference, books);
    case Reconcile(id, provider, paid) => ReconcileKeeps(db, id, provider, paid, books);
  }

  lemma MessagesAreVouched(w: World, a: Action)
    requires (a.Deliver? || a.ReconcileOn?) && (a.message in w.pool ==> Truthful(a.message, w.books))
    ensures RequestOf(w, a).Some? ==> Vouched(RequestOf(w, a).value, w.books)
  {
  }

  lemma MessageKeepsTie(w: World, a: Action)
    requires WorldOk(w) && (a.Deliver? || a.ReconcileOn?)
    ensures Tied(StepDb(w, a), w.books)
  {
    MessagesAreVouched(w, a);
    var r := RequestOf(w, a);
    if r.Some? {
      VouchedKeepsTie(w.db, r.value, w.books);
    }
  }

  lemma StepKeepsTie(w: World, a: Action)
    requires WorldOk(w)
    ensures Tied(StepDb(w, a), StepBooks(w, a))
  {
    if a.Local? || a.Fund? || a.PayOut? {
      CallKeepsTie(w, a);
    } else if a.Deliver? || a.ReconcileOn? {
      MessageKeepsTie(w, a);
    } else if a.CustomerPays? && a.provider in w.books.charges && a.provider !in w.books.paid {
      PaymentKeepsTie(w.db, w.books, a.provider, a.charged);
    } else if a.TransferResolves? && CanResolve(w.books, a.reference, a.status) {
      ResolutionKeepsTie(w.db, w.books, a.reference, a.status);
    }
  }

  lemma StepKeepsWorld(w: World, a: Action)
    requires WorldOk(w)
    ensures WorldOk(Step(w, a))
  {
    StepKeepsTie(w, a);
    PoolStaysTrue(w, a);
  }

  lemma {:induction false} PlayKeepsWorld(w: World, actions: seq<Action>)
    requires WorldOk(w)
    ensures WorldOk(Play(w, actions))
    decreases |actions|
  {
    if actions != [] {
      StepKeepsWorld(w, actions[0]);
      PlayKeepsWorld(Step(w, actions[0]), actions[1..]);
    }
  }

  // ---- Solvency ---------------------------------------------------------------------------

  /** The provider references of the credited fundings, row by row. */
  function CreditedKeys(db: Db): seq<Option<string>> {
    seq(|db.txns|, i requires 0 <= i < |db.txns| =>
      if db.txns[i].kind == Funding && db.txns[i].status == Completed then db.txns[i].provider else None)
  }

  function References(db: Db): seq<Option<string>> {
    seq(|db.txns|, i requires 0 <= i < |db.txns| => Some(db.txns[i].reference))
  }

  function SucceededAmounts(payouts: map<string, Payout>): map<string, int> {
    map r | r in payouts && payouts[r].status == Succeeded :: payouts[r].amount
  }

  lemma PendingHasNoPostings(db: Db, id: TxnId)
    requires PostingsOk(db) && id < |db.txns| && db.txns[id].status != Completed
    ensures Postings(db.ledger, id) == []
  {
    assert PostingsMatch(db.txns[id], Strip(Postings(db.ledger, id)));
    assert |Strip(Postings(db.ledger, id))| == 0;
  }

  /** A credited funding is credited what was paid on its charge; nothing else is credited. */
  lemma CreditIsPayment(db: Db, id: TxnId, books: Books)
    requires PostingsOk(db) && Tied(db, books) && id < |db.txns|
    ensures Credited(db, id) <= At(books.paid)(CreditedKeys(db)[id])
  {
    assert FundingOk(db, id, books.charges, books.paid);
    if db.txns[id].status != Completed {
      PendingHasNoPostings(db, id);
    }
  }

  lemma CreditsAreBacked(db: GoodDb, books: Books)
    requires Tied(db, books)
    ensures Sum(Inflows(db), Itself) <= Total(books.paid)
  {
    var keys := CreditedKeys(db);
    forall i | 0 <= i < |db.txns| ensures Itself(Inflows(db)[i]) <= At(books.paid)(keys[i]) {
      CreditIsPayment(db, i, books);
    }
    SumPairwise(Inflows(db), Itself, keys, At(books.paid));
    Reindex(keys, books.paid);
  }

  /** Money of a withdrawal that has left its wallet's balance. */
  function Covering(t: Txn): int { PaidOut(t) + Held(t) }

  lemma PayerIsUnique(db: Db, i: TxnId, j: TxnId)
    requires UniqueColumns(db.txns) && i < |db.txns| && j < |db.txns| && db.txns[i].reference == db.txns[j].reference
    ensures i == j
  {
  }

  /** A transfer Paystack holds is one withdrawal's, and covered by it unless Paystack
      reported failure or reversal. */
  lemma CoveredPayout(db: Db, reference: string, books: Books) returns (id: TxnId)
    requires RowsOk(db) && UniqueColumns(db.txns) && Tied(db, books) && reference in books.payouts
    ensures PaysFor(db, id, reference, books.payouts[reference].amount)
    ensures forall other: TxnId :: other < |db.txns| && db.txns[other].reference == reference ==> other == id
    ensures 0 <= Covering(db.txns[id]) && 0 <= books.payouts[reference].amount
    ensures if db.txns[id].status == Failed then books.payouts[reference].status in {Bounced, Returned}
            else Covering(db.txns[id]) == books.payouts[reference].amount
  {
    id :| PaysFor(db, id, reference, books.payouts[reference].amount);
    assert TxnOk(db.wallets, db.txns[id]) && PayoutOk(db.txns[id], books.payouts);
    forall other: TxnId | other < |db.txns| && db.txns[other].reference == reference ensures other == id {
      PayerIsUnique(db, other, id);
    }
  }

  /** The successful transfers are matched one by one by a withdrawal's debit or hold. */
  lemma PayoutsAreCovered(db: GoodDb, books: Books)
    requires Tied(db, books)
    ensures Total(SucceededAmounts(books.payouts)) <= Sum(db.txns, Covering)
  {
    var refs, amounts := References(db), SucceededAmounts(books.payouts);
    forall i | 0 <= i < |db.txns| ensures At(amounts)(refs[i]) <= Covering(db.txns[i]) {
      assert TxnOk(db.wallets, db.txns[i]);
      if db.txns[i].reference in amounts {
        var id := CoveredPayout(db, db.txns[i].reference, books);
        assert i == id;
      }
    }
    SumPairwise(refs, At(amounts), db.txns, Covering);
    forall r | r in amounts ensures 0 <= amounts[r] && Some(r) in refs {
      var id := CoveredPayout(db, r, books);
      assert refs[id] == Some(r);
    }
    DistinctReferences(db);
    Reindex(refs, amounts);
  }

  lemma DistinctReferences(db: Db)
    requires UniqueColumns(db.txns)
    ensures DistinctKeys(References(db))
  {
  }

  lemma {:induction false} CoveringSplits(txns: seq<Txn>)
    ensures Sum(txns, Covering) == Sum(txns, PaidOut) + Sum(txns, Held)
  {
    if txns != [] {
      CoveringSplits(txns[..|txns| - 1]);
    }
  }

  /** Wherever the two systems' books agree, balances are backed by Paystack's money. */
  lemma TieIsSolvent(db: GoodDb, books: Books)
    requires Tied(db, books)
    ensures Total(Balances(db.wallets)) <= Total(books.paid) - Total(SucceededAmounts(books.payouts))
  {
    Conservation(db);
    CreditsAreBacked(db, books);
    PayoutsAreCovered(db, books);
    CoveringSplits(db.txns);
  }

  /** In every reachable state of the two systems together, whatever was lost,
      duplicated, reordered or cut off by a crash: customers' balances never exceed
      what Paystack collected less what it paid out. */
  lemma Solvency(actions: seq<Action>)
    ensures var w := Play(Start(), actions);
      Total(Balances(w.db.wallets)) <= Total(w.books.paid) - Total(SucceededAmounts(w.books.payouts))
  {
    PlayKeepsWorld(Start(), actions);
    TieIsSolvent(Play(Start(), actions).db, Play(Start(), actions).books);
  }

  /** Paystack holds at most one transfer per withdrawal, of its amount; the money stays
      held or debited unless Paystack reported failure or reversal. */
  lemma PayoutsAndHolds(actions: seq<Action>, reference: string) returns (id: TxnId)
    requires reference in Play(Start(), actions).books.payouts
    ensures var w := Play(Start(), actions);
      && PaysFor(w.db, id, reference, w.books.payouts[reference].amount)
      && (forall other: TxnId :: other < |w.db.txns| && w.db.txns[other].reference == reference ==> other == id)
      && if w.db.txns[id].status == Failed then w.books.payouts[reference].status in {Bounced, Returned}
         else Covering(w.db.txns[id]) == w.books.payouts[reference].amount
  {
    PlayKeepsWorld(Start(), actions);
    id := CoveredPayout(Play(Start(), actions).db, reference, Play(Start(), actions).books);
  }

  // ---- Which events count ----------------------------------------------------------------------

  /** An outcome of a withdrawal that is still PENDING is dropped. */
  lemma EarlyOutcomeIsDropped(db: Db, id: TxnId, event: TransferEvent)
    requires RowsOk(db) && Wired(db) && id < |db.txns| && db.txns[id].status == Pending
    ensures Serve(db, TransferResult(event, db.txns[id].reference)) == db
  {
    assert ByReference(db.txns[id].reference)(db.txns[id]);
  }

  /** A payment on a funding that is already FAILED is dropped. */
  lemma LatePaymentIsDropped(db: Db, id: TxnId, provider: string, charged: nat)
    requires RowsOk(db) && Wired(db) && id < |db.txns| && db.txns[id].status == Failed && db.txns[id].provider == Some(provider)
    ensures Serve(db, ChargeSuccess(provider, charged)) == db
  {
    assert ByProvider(provider)(db.txns[id]);
  }

  /** A worker that dies after the call leaves the transfer with Paystack and nothing here. */
  lemma DiesAfterCall(w: World, id: TxnId, code: string, recipient: string)
    requires DecidePayout(w.db, id, code, recipient).Commit? && id < |w.db.txns|
    ensures Step(w, PayOut(id, code, recipient, true)) ==
      World(w.db, Requested(w.books, w.db.txns[id].reference, w.db.txns[id].amount), w.pool)
    ensures w.db.txns[id].status == Pending
  {
  }

  lemma ReportsOutcome(w: World, reference: string, status: PayoutStatus)
    requires CanResolve(w.books, reference, status)
    ensures Step(w, TransferResolves(reference, status)) ==
      World(w.db, Resolved(w.books, reference, status), w.pool + {TransferOutcome(EventOf(status), reference)})
  {
  }

  lemma DeliversOutcome(w: World, event: TransferEvent, reference: string)
    requires TransferOutcome(event, reference) in w.pool
    ensures Step(w, Deliver(TransferOutcome(event, reference))).db == Serve(w.db, TransferResult(event, reference))
  {
  }

  lemma DeliversPayment(w: World, provider: string, charged: nat)
    requires ChargePaid(provider, charged) in w.pool
    ensures Step(w, Deliver(ChargePaid(provider, charged))).db == Serve(w.db, ChargeSuccess(provider, charged))
  {
  }

  lemma AnswersUnpaid(w: World, provider: string)
    requires provider in w.books.charges && provider !in w.books.paid
    ensures Step(w, AnswerVerify(provider)) == World(w.db, w.books, w.pool + {Verified(provider, None)})
  {
  }

  lemma ReportsPayment(w: World, provider: string, charged: nat)
    requires provider in w.books.charges && provider !in w.books.paid
    ensures Step(w, CustomerPays(provider, charged)) ==
      World(w.db, w.books.(paid := w.books.paid[provider := charged]), w.pool + {ChargePaid(provider, charged)})
  {
  }

  /** Reconciliation fails a stale funding that Paystack reports unpaid. */
  lemma UnpaidFails(db: Db, id: TxnId, provider: string)
    requires RowsOk(db) && Wired(db) && Is(db, id, Funding, Pending) && StaleFunding(db, id)
    ensures Serve(db, Reconcile(id, provider, None)) == Apply(db, FailFunding(id))
    ensures Apply(db, FailFunding(id)).txns == db.txns[id := db.txns[id].(status := Failed)]
  {
  }

  lemma ReconcilesUnpaid(w: World, id: TxnId, provider: string)
    requires Is(w.db, id, Funding, Pending) && StaleFunding(w.db, id) && w.db.txns[id].provider == Some(provider)
    requires Verified(provider, None) in w.pool
    ensures Step(w, ReconcileOn(id, Verified(provider, None))).db == Apply(w.db, FailFunding(id))
    ensures Step(w, ReconcileOn(id, Verified(provider, None))).books == w.books
    ensures Step(w, ReconcileOn(id, Verified(provider, None))).pool == w.pool
  {
    UnpaidFails(w.db, id, provider);
  }

  /** An outcome of a dispatched withdrawal settles or refunds it. */
  lemma OutcomeCounts(db: Db, id: TxnId, event: TransferEvent)
    requires RowsOk(db) && UniqueColumns(db.txns) && Wired(db) && Is(db, id, Withdrawal, Processing)
    requires db.txns[id].reference != "" && event != OtherEvent
    ensures var e := if event == TransferSuccess then SettlePayout(id) else RefundPayout(id);
      && Enabled(db, e) && Serve(db, TransferResult(event, db.txns[id].reference)) == Apply(db, e)
      && Apply(db, e).txns == db.txns[id := db.txns[id].(status := if event == TransferSuccess then Completed else Failed)]
  {
    assert TxnOk(db.wallets, db.txns[id]);
    OnlyMatch(db.txns, ByReference(db.txns[id].reference), id);
  }

  /** A payment on a pending funding credits it, if no other row carries its reference. */
  lemma PaymentCounts(db: Db, id: TxnId, provider: string, charged: nat)
    requires RowsOk(db) && Wired(db) && Is(db, id, Funding, Pending) && db.txns[id].provider == Some(provider)
    requires provider != "" && forall i :: 0 <= i < |db.txns| && db.txns[i].provider == Some(provider) ==> i == id
    ensures Enabled(db, CreditFunding(id, charged))
    ensures Serve(db, ChargeSuccess(provider, charged)) == Apply(db, CreditFunding(id, charged))
  {
    assert TxnOk(db.wallets, db.txns[id]);
    OnlyMatch(db.txns, ByProvider(provider), id);
  }

  /** Otherwise events do what they are for: when Paystack resolves the transfer of a
      dispatched withdrawal and the event is delivered, success settles it, and failure or
      reversal refunds it. */
  lemma OutcomeArrives(w: World, id: TxnId, status: PayoutStatus)
    requires Is(w.db, id, Withdrawal, Processing) && w.db.txns[id].reference != ""
    requires CanResolve(w.books, w.db.txns[id].reference, status)
    ensures var reference := w.db.txns[id].reference;
      var e := if status == Succeeded then SettlePayout(id) else RefundPayout(id);
      var resolved := Step(w, TransferResolves(reference, status));
      Enabled(w.db, e) && Step(resolved, Deliver(TransferOutcome(EventOf(status), reference))).db == Apply(w.db, e)
  {
    var reference := w.db.txns[id].reference;
    ReportsOutcome(w, reference, status);
    DeliversOutcome(Step(w, TransferResolves(reference, status)), EventOf(status), reference);
    OutcomeCounts(w.db, id, EventOf(status));
  }

  /** And when a customer pays on a pending funding and the event is delivered, the funding is
      credited what was paid. */
  lemma PaymentArrives(w: World, id: TxnId, provider: string, charged: nat)
    requires Is(w.db, id, Funding, Pending) && w.db.txns[id].provider == Some(provider)
    requires provider != "" && provider in w.books.charges && provider !in w.books.paid
    requires forall i :: 0 <= i < |w.db.txns| && w.db.txns[i].provider == Some(provider) ==> i == id
    ensures var paid := Step(w, CustomerPays(provider, charged));
      && Enabled(w.db, CreditFunding(id, charged))
      && Step(paid, Deliver(ChargePaid(provider, charged))).db == Apply(w.db, CreditFunding(id, charged))
  {
    ReportsPayment(w, provider, charged);
    DeliversPayment(Step(w, CustomerPays(provider, charged)), provider, charged);
    PaymentCounts(w.db, id, provider, charged);
  }

  lemma OpensFunding(w: World, user: UserId, amount: int, key: Option<string>, reference: string, provider: string)
    requires CallsForFunding(w, user, amount, key, provider)
    ensures var asked := Step(w, Fund(user, amount, key, reference, provider, false));
      && asked.db == Serve(w.db, StartFunding(user, amount, key, reference, provider))
      && asked.books == Opened(w.books, provider)
  {
  }

  lemma DispatchesPayout(w: World, id: TxnId, code: string, recipient: string)
    requires DecidePayout(w.db, id, code, recipient).Commit? && id < |w.db.txns|
    ensures var called := Step(w, PayOut(id, code, recipient, false));
      && called.db == Serve(w.db, ExecutePayout(id, code, recipient))
      && called.books == Requested(w.books, w.db.txns[id].reference, w.db.txns[id].amount)
  {
  }

  /** A row a request adds or updates, as the next event finds it. */
  lemma FundingIsOpen(db: Db, user: UserId, amount: int, key: Option<string>, reference: string, provider: string)
    requires RowsOk(db) && Wired(db) && 0 < amount && DecideFunding(db, user, amount, key, reference, provider).Commit?
    requires forall t :: t in db.txns ==> t.provider != Some(provider)
    ensures user in db.users && db.users[user].wallet in db.wallets
    ensures var next := Serve(db, StartFunding(user, amount, key, reference, provider)); var id := |db.txns|;
      && Is(next, id, Funding, Pending) && next.txns[id].provider == Some(provider)
      && next.txns[id].dest == Some(db.users[user].wallet) && next.wallets == db.wallets && next.ledger == db.ledger
      && forall i :: 0 <= i < |next.txns| && next.txns[i].provider == Some(provider) ==> i == id
  {
  }

  /** A funding that nothing disturbs goes through: asked for, paid and reported, it ends in
      the user's wallet with what the customer paid. */
  lemma FundingGoesThrough(w: World, user: UserId, amount: int, key: Option<string>, reference: string, provider: string, charged: nat)
    requires WorldOk(w) && CallsForFunding(w, user, amount, key, provider) && provider != ""
    requires DecideFunding(w.db, user, amount, key, reference, provider).Commit?
    requires forall t :: t in w.db.txns ==> t.provider != Some(provider)
    ensures user in w.db.users && w.db.users[user].wallet in w.db.wallets
    ensures var asked := Step(w, Fund(user, amount, key, reference, provider, false));
      var paid := Step(asked, CustomerPays(provider, charged));
      var end := Step(paid, Deliver(ChargePaid(provider, charged))).db; var wallet := w.db.users[user].wallet;
      wallet in end.wallets && end.wallets[wallet].balance == w.db.wallets[wallet].balance + charged
  {
    OpensFunding(w, user, amount, key, reference, provider);
    FundingIsOpen(w.db, user, amount, key, reference, provider);
    PaymentArrives(Step(w, Fund(user, amount, key, reference, provider, false)), |w.db.txns|, provider, charged);
  }

  lemma PayoutIsOut(db: Db, id: TxnId, code: string, recipient: string)
    requires RowsOk(db) && Wired(db) && DecidePayout(db, id, code, recipient).Commit?
    ensures var next := Serve(db, ExecutePayout(id, code, recipient));
      && Is(next, id, Withdrawal, Processing) && id < |db.txns| && next.txns[id].reference == db.txns[id].reference
      && next.txns[id].provider == Some(code)
  {
  }

  /** A dispatched withdrawal ends settled or refunded, under the code it was given. */
  lemma OutcomeEnds(w: World, id: TxnId, status: PayoutStatus, reference: string, code: string)
    requires Is(w.db, id, Withdrawal, Processing) && w.db.txns[id].reference == reference != ""
    requires w.db.txns[id].provider == Some(code) && CanResolve(w.books, reference, status)
    ensures var end := Step(Step(w, TransferResolves(reference, status)), Deliver(TransferOutcome(EventOf(status), reference))).db;
      && id < |end.txns| && end.txns[id].status == (if status == Succeeded then Completed else Failed)
      && end.txns[id].provider == Some(code)
  {
    OutcomeArrives(w, id, status);
    OutcomeCounts(w.db, id, EventOf(status));
  }

  /** So does a withdrawal: dispatched and reported, it is settled or refunded. */
  lemma WithdrawalGoesThrough(w: World, id: TxnId, code: string, recipient: string, status: PayoutStatus)
    requires DecidePayout(w.db, id, code, recipient).Commit? && id < |w.db.txns| && status != InFlight
    requires w.db.txns[id].reference != "" && w.db.txns[id].reference !in w.books.payouts
    ensures var reference := w.db.txns[id].reference;
      var resolved := Step(Step(w, PayOut(id, code, recipient, false)), TransferResolves(reference, status));
      var end := Step(resolved, Deliver(TransferOutcome(EventOf(status), reference))).db;
      && id < |end.txns| && end.txns[id].status == (if status == Succeeded then Completed else Failed)
      && end.txns[id].provider == Some(code)
  {
    DispatchesPayout(w, id, code, recipient);
    PayoutIsOut(w.db, id, code, recipient);
    OutcomeEnds(Step(w, PayOut(id, code, recipient, false)), id, status, w.db.txns[id].reference, code);
  }

  /** A true event can be lost.  A worker dies after Paystack took the transfer; the
      transfer succeeds and its event arrives while the withdrawal is still PENDING: the
      money has been paid out and the back end has not changed at all. */
  lemma LostOutcome(w: World, id: TxnId, code: string, recipient: string)
    requires DecidePayout(w.db, id, code, recipient).Commit?
    requires id < |w.db.txns| && w.db.txns[id].reference !in w.books.payouts
    ensures var t := w.db.txns[id]; var event := TransferOutcome(TransferSuccess, t.reference);
      var paid := Step(Step(w, PayOut(id, code, recipient, true)), TransferResolves(t.reference, Succeeded));
      && t.reference in paid.books.payouts && paid.books.payouts[t.reference] == Payout(t.amount, Succeeded)
      && event in paid.pool && t.status == Pending
      && Step(paid, Deliver(event)).db == w.db
  {
    var t := w.db.txns[id];
    DiesAfterCall(w, id, code, recipient);
    var called := Step(w, PayOut(id, code, recipient, true));
    ReportsOutcome(called, t.reference, Succeeded);
    var paid := Step(called, TransferResolves(t.reference, Succeeded));
    DeliversOutcome(paid, TransferSuccess, t.reference);
    EarlyOutcomeIsDropped(w.db, id, TransferSuccess);
  }

  /** The database and books once Paystack has reported a funding unpaid and it was failed. */
  lemma FailsUnpaid(w: World, id: TxnId, provider: string)
    requires Is(w.db, id, Funding, Pending) && StaleFunding(w.db, id) && w.db.txns[id].provider == Some(provider)
    requires provider in w.books.charges && provider !in w.books.paid
    ensures var failed := Step(Step(w, AnswerVerify(provider)), ReconcileOn(id, Verified(provider, None)));
      && failed.db == Apply(w.db, FailFunding(id)) && failed.books == w.books
      && id < |failed.db.txns| && failed.db.txns[id].status == Failed && failed.db.txns[id].provider == Some(provider)
  {
    AnswersUnpaid(w, provider);
    UnpaidFails(w.db, id, provider);
    ReconcilesUnpaid(Step(w, AnswerVerify(provider)), id, provider);
  }

  /** A payment reported for a funding that is FAILED changes nothing. */
  lemma PaysTooLate(w: World, id: TxnId, provider: string, charged: nat)
    requires id < |w.db.txns| && w.db.txns[id].status == Failed && w.db.txns[id].provider == Some(provider)
    requires provider in w.books.charges && provider !in w.books.paid
    ensures var paid := Step(w, CustomerPays(provider, charged));
      && ChargePaid(provider, charged) in paid.pool && paid.books.paid == w.books.paid[provider := charged]
      && paid.db == w.db && Step(paid, Deliver(ChargePaid(provider, charged))).db == w.db
  {
    ReportsPayment(w, provider, charged);
    DeliversPayment(Step(w, CustomerPays(provider, charged)), provider, charged);
    LatePaymentIsDropped(w.db, id, provider, charged);
  }

  lemma FundingHasCharge(db: Db, id: TxnId, books: Books)
    requires Tied(db, books) && id < |db.txns| && db.txns[id].kind == Funding
    ensures db.txns[id].provider.Some? && db.txns[id].provider.value in books.charges
  {
    assert FundingOk(db, id, books.charges, books.paid);
  }

  /** So can a payment.  Paystack reports a stale funding unpaid, reconciliation fails it,
      and the customer pays afterwards: the charge is paid and no wallet is ever credited. */
  lemma LostPayment(w: World, id: TxnId, provider: string, charged: nat)
    requires Tied(w.db, w.books) && Is(w.db, id, Funding, Pending) && StaleFunding(w.db, id)
    requires w.db.txns[id].provider == Some(provider) && provider !in w.books.paid
    ensures var failed := Step(Step(w, AnswerVerify(provider)), ReconcileOn(id, Verified(provider, None)));
      var paid := Step(failed, CustomerPays(provider, charged));
      && ChargePaid(provider, charged) in paid.pool && paid.books.paid == w.books.paid[provider := charged]
      && paid.db == Apply(w.db, FailFunding(id)) && Step(paid, Deliver(ChargePaid(provider, charged))).db == paid.db
  {
    FundingHasCharge(w.db, id, w.books);
    FailsUnpaid(w, id, provider);
    PaysTooLate(
      Step(Step(w, AnswerVerify(provider)), ReconcileOn(id, Verified(provider, None))), id, provider, charged);
  }
}
