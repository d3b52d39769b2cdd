/** Webhook deliveries and reconciliation outcomes may arrive in any order across
    transactions: only the order within each transaction matters. */
module Confluence {
  import opened Options
  import opened Sums
  import opened Records
  import opened Effects
  import opened Ledger
  import opened Decisions
  import opened System

  predicate Delivery(r: Request) { r.ChargeSuccess? || r.TransferResult? || r.Reconcile? }

  function ChargeTarget(db: Db, provider: string): Option<TxnId> {
    var found := ScalarOneOrNone(db.txns, ByProvider(provider));
    if provider != "" && found.OneRow? then Some(found.id) else None
  }

  /** The transaction a delivery speaks about, if any. */
  function Target(db: Db, r: Request): Option<TxnId>
    requires Delivery(r)
  {
    match r
    case ChargeSuccess(provider, _) => ChargeTarget(db, provider)
    case Reconcile(id, provider, verified) =>
      if !StaleFunding(db, id) then None
      else if verified.Some? then ChargeTarget(db, provider) else Some(id)
    case TransferResult(event, reference) =>
      var found := ScalarOneOrNone(db.txns, ByReference(reference));
      if reference != "" && event != OtherEvent && found.OneRow? then Some(found.id) else None
  }

  /** One transaction with its postings, less the balance snapshots. */
  datatype Journal = Journal(txn: Txn, posted: seq<Posting>)

  function JournalOf(db: Db, id: TxnId): Journal
    requires id < |db.txns|
  {
    Journal(db.txns[id], Strip(Postings(db.ledger, id)))
  }

  /** A delivery's effect seen from its transaction alone: no balance, no other row. */
  function Local(j: Journal, r: Request): Journal
    requires Delivery(r)
  {
    match r
    case ChargeSuccess(_, paid) => LocalCharge(j, paid)
    case Reconcile(_, _, verified) =>
      if verified.Some? then LocalCharge(j, verified.value)
      else if j.txn.status == Pending then j.(txn := j.txn.(status := Failed))
      else j
    case TransferResult(event, _) =>
      if j.txn.status != Processing || j.txn.source.None? then j
      else if event != TransferSuccess then j.(txn := j.txn.(status := Failed))
      else Journal(j.txn.(status := Completed), j.posted + [Posting(j.txn.source.value, Debit, j.txn.amount)])
  }

  function LocalCharge(j: Journal, paid: nat): Journal {
    if j.txn.status != Pending || j.txn.dest.None? then j
    else Journal(j.txn.(status := Completed), j.posted + [Posting(j.txn.dest.value, Credit, paid)])
  }

  function LocalRun(j: Journal, rs: seq<Request>): Journal
    requires forall r :: r in rs ==> Delivery(r)
    decreases |rs|
  {
    if rs == [] then j else LocalRun(Local(j, rs[0]), rs[1..])
  }

  /** The deliveries addressed to one transaction, in order. */
  function Project(db: Db, rs: seq<Request>, id: TxnId): (own: seq<Request>)
    requires forall r :: r in rs ==> Delivery(r)
    ensures forall r :: r in own ==> Delivery(r) && Target(db, r) == Some(id)
  {
    if rs == [] then []
    else if Target(db, rs[0]) == Some(id) then [rs[0]] + Project(db, rs[1..], id)
    else Project(db, rs[1..], id)
  }

  // ---- One delivery ---------------------------------------------------------------

  /** The effect of a delivery touches its target, and is the local step there. */
  lemma DeliveryEffect(db: Db, r: Request)
    requires RowsOk(db) && Wired(db) && Delivery(r) && Admissible(db, r)
    ensures var d := Decide(db, r);
      && (d.Commit? ==> Target(db, r) == Some(Touched(db, d.effect)) && Touched(db, d.effect) < |db.txns| && !Inserts(d.effect)
                        && !d.effect.Dispatch?)
  {
  }

  lemma LocalStep(db: Db, r: Request, id: TxnId)
    requires RowsOk(db) && Wired(db) && Delivery(r) && Admissible(db, r) && id < |db.txns| && Target(db, r) == Some(id)
    ensures var d := Decide(db, r);
      if d.Commit? then Local(JournalOf(db, id), r) ==
          Journal(Apply(db, d.effect).txns[id], JournalOf(db, id).posted + Strip(Appended(db, d.effect)))
      else Local(JournalOf(db, id), r) == JournalOf(db, id)
  {
    assert TxnOk(db.wallets, db.txns[id]);
    DeliveryEffect(db, r);
  }

  lemma StripConcat(a: seq<Entry>, b: seq<Entry>)
    ensures Strip(a + b) == Strip(a) + Strip(b)
  {
  }

  /** One delivery is the local step on its target's journal and leaves the others alone. */
  lemma DeliverOne(db: Db, r: Request, id: TxnId)
    requires RowsOk(db) && Wired(db) && Delivery(r) && id < |db.txns|
    ensures |Serve(db, r).txns| == |db.txns|
    ensures JournalOf(Serve(db, r), id) == if Target(db, r) == Some(id) then Local(JournalOf(db, id), r) else JournalOf(db, id)
  {
    if Admissible(db, r) {
      if Target(db, r) == Some(id) {
        LocalStep(db, r, id);
      }
      var d := Decide(db, r);
      if d.Commit? {
        DeliveryEffect(db, r);
        UntouchedRows(db, d.effect);
        AppendedOk(db, d.effect);
        PostingsAfter(db, d.effect, id);
        StripConcat(Postings(db.ledger, id), Appended(db, d.effect));
      }
    }
  }

  /** What deliveries read to find their target never changes. */
  predicate SameAddresses(db: Db, next: Db) {
    && |next.txns| == |db.txns| && next.now == db.now
    && forall i :: 0 <= i < |db.txns| ==>
         next.txns[i] == db.txns[i].(status := next.txns[i].status)
  }

  lemma {:induction false} SameMatches(s: seq<Txn>, t: seq<Txn>, p: Txn -> bool)
    requires |s| == |t| && forall i :: 0 <= i < |s| ==> p(s[i]) == p(t[i])
    ensures ScalarOneOrNone(s, p) == ScalarOneOrNone(t, p)
  {
    if s != [] {
      SameMatches(s[..|s| - 1], t[..|t| - 1], p);
    }
  }

  lemma TargetsStay(db: Db, next: Db, r: Request)
    requires SameAddresses(db, next) && Delivery(r)
    ensures Target(next, r) == Target(db, r)
  {
    match r
    case ChargeSuccess(provider, _) => SameMatches(db.txns, next.txns, ByProvider(provider));
    case Reconcile(_, provider, _) => SameMatches(db.txns, next.txns, ByProvider(provider));
    case TransferResult(_, reference) => SameMatches(db.txns, next.txns, ByReference(reference));
  }

  /** A delivery changes nothing but statuses, entries and balances. */
  predicate OnlyMoney(db: Db, next: Db) {
    && SameAddresses(db, next)
    && next.wallets.Keys == db.wallets.Keys
    && (forall w :: w in db.wallets ==> next.wallets[w] == db.wallets[w].(balance := next.wallets[w].balance))
    && next.users == db.users && next.accounts == db.accounts && next.submissions == db.submissions
  }

  lemma EffectOnlyMoney(db: Db, e: Effect)
    requires Enabled(db, e) && !Inserts(e) && !e.Dispatch?
    ensures OnlyMoney(db, Apply(db, e))
  {
  }

  lemma DeliveryOnlyMoney(db: Db, r: Request)
    requires RowsOk(db) && Wired(db) && Delivery(r)
    ensures OnlyMoney(db, Serve(db, r))
  {
    if Admissible(db, r) && Decide(db, r).Commit? {
      DeliveryEffect(db, r);
      EffectOnlyMoney(db, Decide(db, r).effect);
    }
  }

  // ---- Any sequence of deliveries ----------------------------------------------------

  lemma {:induction false} ProjectStays(db: Db, next: Db, rs: seq<Request>, id: TxnId)
    requires SameAddresses(db, next) && forall r :: r in rs ==> Delivery(r)
    ensures Project(next, rs, id) == Project(db, rs, id)
  {
    if rs != [] {
      TargetsStay(db, next, rs[0]);
      ProjectStays(db, next, rs[1..], id);
    }
  }

  lemma {:induction false} DeliverAllOnlyMoney(db: GoodDb, rs: seq<Request>)
    requires forall r :: r in rs ==> Delivery(r)
    ensures OnlyMoney(db, Run(db, rs))
    decreases |rs|
  {
    if rs != [] {
      ServeKeepsGood(db, rs[0]);
      DeliveryOnlyMoney(db, rs[0]);
      DeliverAllOnlyMoney(Serve(db, rs[0]), rs[1..]);
    }
  }

  /** One delivery, seen from transaction `id` and from the deliveries still to come. */
  lemma DeliverFirst(db: GoodDb, rs: seq<Request>, id: TxnId) returns (mid: GoodDb)
    requires rs != [] && (forall r :: r in rs ==> Delivery(r)) && id < |db.txns|
    ensures Run(db, rs) == Run(mid, rs[1..]) && id < |mid.txns|
    ensures JournalOf(mid, id) == if Target(db, rs[0]) == Some(id) then Local(JournalOf(db, id), rs[0]) else JournalOf(db, id)
    ensures Project(mid, rs[1..], id) == Project(db, rs[1..], id)
  {
    ServeKeepsGood(db, rs[0]);
    mid := Serve(db, rs[0]);
    DeliverOne(db, rs[0], id);
    DeliveryOnlyMoney(db, rs[0]);
    ProjectStays(db, mid, rs[1..], id);
  }

  /** After any deliveries, each transaction's journal is its own deliveries applied in order. */
  lemma {:induction false} DeliverAll(db: GoodDb, rs: seq<Request>, id: TxnId)
    requires (forall r :: r in rs ==> Delivery(r)) && id < |db.txns|
    ensures id < |Run(db, rs).txns|
    ensures JournalOf(Run(db, rs), id) == LocalRun(JournalOf(db, id), Project(db, rs, id))
    decreases |rs|
  {
    if rs != [] {
      var mid := DeliverFirst(db, rs, id);
      DeliverAll(mid, rs[1..], id);
      if Target(db, rs[0]) == Some(id) {
        assert Project(db, rs, id)[1..] == Project(db, rs[1..], id);
      }
    }
  }

  // ---- Journals determine balances ------------------------------------------------------

  function PostedOn(w: WalletId): Posting -> int {
    (p: Posting) => if p.wallet == w then (if p.side == Credit then p.amount else -p.amount) else 0
  }

  lemma {:induction false} StripSum(entries: seq<Entry>, w: WalletId)
    ensures Sum(entries, SignedOn(w)) == Sum(Strip(entries), PostedOn(w))
  {
    if entries != [] {
      StripSum(entries[..|entries| - 1], w);
      assert Strip(entries)[..|entries| - 1] == Strip(entries[..|entries| - 1]);
    }
  }

  ghost predicate SameJournals(a: Db, b: Db) {
    |a.txns| == |b.txns| && forall i :: 0 <= i < |a.txns| ==> JournalOf(a, i) == JournalOf(b, i)
  }

  /** Databases with the same journals have the same rows and the same balance in every wallet. */
  lemma JournalsFixBalances(a: Db, b: Db, w: WalletId)
    requires Inv(a) && Inv(b) && SameJournals(a, b) && w in a.wallets && w in b.wallets
    ensures a.txns == b.txns && a.wallets[w].balance == b.wallets[w].balance
  {
    forall i | 0 <= i < |a.txns| ensures a.txns[i] == b.txns[i] {
      assert JournalOf(a, i) == JournalOf(b, i);
    }
    var n := |a.txns|;
    GroupByTxn(a.ledger, n, SignedOn(w));
    GroupByTxn(b.ledger, n, SignedOn(w));
    forall i | 0 <= i < n ensures Grouped(a.ledger, n, SignedOn(w))[i] == Grouped(b.ledger, n, SignedOn(w))[i] {
      assert JournalOf(a, i) == JournalOf(b, i);
      StripSum(Postings(a.ledger, i), w);
      StripSum(Postings(b.ledger, i), w);
    }
    assert Grouped(a.ledger, n, SignedOn(w)) == Grouped(b.ledger, n, SignedOn(w));
  }

  lemma SameOutcome(db: Db, a: Db, b: Db)
    requires OnlyMoney(db, a) && OnlyMoney(db, b) && Inv(a) && Inv(b) && SameJournals(a, b)
    ensures a.txns == b.txns && a.wallets == b.wallets
  {
    forall i | 0 <= i < |a.txns| ensures a.txns[i] == b.txns[i] {
      assert JournalOf(a, i) == JournalOf(b, i);
    }
    forall w | w in db.wallets ensures a.wallets[w] == b.wallets[w] {
      JournalsFixBalances(a, b, w);
    }
  }

  lemma JournalsAgree(db: GoodDb, rs: seq<Request>, ss: seq<Request>)
    requires forall r :: r in rs ==> Delivery(r)
    requires forall s :: s in ss ==> Delivery(s)
    requires forall i: TxnId :: i < |db.txns| ==> Project(db, rs, i) == Project(db, ss, i)
    requires |Run(db, rs).txns| == |db.txns| == |Run(db, ss).txns|
    ensures SameJournals(Run(db, rs), Run(db, ss))
  {
    forall i | 0 <= i < |db.txns| ensures JournalOf(Run(db, rs), i) == JournalOf(Run(db, ss), i) {
      DeliverAll(db, rs, i);
      DeliverAll(db, ss, i);
    }
  }

  /** Two delivery sequences that agree on each transaction's own subsequence end with
      the same rows, the same wallets and the same postings of every transaction. */
  lemma DeliveriesCommute(db: GoodDb, rs: seq<Request>, ss: seq<Request>)
    requires forall r :: r in rs ==> Delivery(r)
    requires forall s :: s in ss ==> Delivery(s)
    requires forall i: TxnId :: i < |db.txns| ==> Project(db, rs, i) == Project(db, ss, i)
    ensures SameJournals(Run(db, rs), Run(db, ss))
    ensures Run(db, rs).txns == Run(db, ss).txns
    ensures Run(db, rs).wallets == Run(db, ss).wallets
  {
    DeliverAllOnlyMoney(db, rs);
    DeliverAllOnlyMoney(db, ss);
    JournalsAgree(db, rs, ss);
    SameOutcome(db, Run(db, rs), Run(db, ss));
  }

  /** A delivery to a transaction that is already terminal, or to none, changes nothing. */
  lemma TerminalAbsorbs(db: Db, r: Request)
    requires RowsOk(db) && Wired(db) && Delivery(r)
    requires Target(db, r).None? || Target(db, r).value >= |db.txns| || Terminal(db.txns[Target(db, r).value])
    ensures Serve(db, r) == db
  {
    if Admissible(db, r) && Decide(db, r).Commit? {
      DeliveryEffect(db, r);
    }
  }

  /** The status a delivery needs its transaction to have. */
  function NeededStatus(r: Request): Status
    requires Delivery(r)
  {
    if r.TransferResult? then Processing else Pending
  }

  /** Exactly when a delivery counts: its one transaction is still in the status it needs.
      A transfer outcome that arrives before the dispatch is committed is lost, and so is
      a payment that arrives after reconciliation gave the funding up. */
  lemma DeliveryCountsIff(db: Db, r: Request, id: TxnId)
    requires RowsOk(db) && Wired(db) && Delivery(r) && Target(db, r) == Some(id) && id < |db.txns|
    ensures Serve(db, r) != db <==> db.txns[id].status == NeededStatus(r)
  {
    assert TxnOk(db.wallets, db.txns[id]);
    DeliverOne(db, r, id);
  }

  /** A delivery either changes nothing or leaves its transaction terminal. */
  lemma DeliveryDecides(db: Db, r: Request)
    requires RowsOk(db) && Wired(db) && Delivery(r) && Serve(db, r) != db
    ensures Target(db, r).Some? && Target(db, r).value < |Serve(db, r).txns|
    ensures Terminal(Serve(db, r).txns[Target(db, r).value])
  {
    DeliveryEffect(db, r);
  }

  /** Delivering the same event twice is delivering it once. */
  lemma DuplicateIsIgnored(db: GoodDb, r: Request)
    requires Delivery(r)
    ensures RowsOk(Serve(db, r)) && Wired(Serve(db, r)) && Serve(Serve(db, r), r) == Serve(db, r)
  {
    ServeKeepsGood(db, r);
    if Serve(db, r) != db {
      DeliveryDecides(db, r);
      DeliveryOnlyMoney(db, r);
      TargetsStay(db, Serve(db, r), r);
      TerminalAbsorbs(Serve(db, r), r);
    }
  }
}
