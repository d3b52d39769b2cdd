/** The half-hourly sweep over stale fundings and withdrawals. */
module Reconciliation {
  import opened Options
  import opened Records
  import opened Effects
  import opened Ledger
  import opened Decisions
  import opened System
  import opened Confluence
  import opened Sessions
  import opened PaystackWebhooks

  const BATCH_LIMIT := 50

  /** What the verify call gives for a reference: an error, or a status (paid: success). */
  datatype Answer = Unreachable | Status(paid: Option<nat>)

  predicate Stale(db: Db, id: TxnId, kind: TxnType) {
    Is(db, id, kind, Pending) && (kind == Funding ==> db.txns[id].provider.Some?) && db.txns[id].createdAt + STALE_SECONDS <= db.now
  }

  /** Ids below n that the query matches, oldest first. */
  function StaleBelow(db: Db, kind: TxnType, n: nat): (ids: seq<TxnId>)
    ensures forall i :: 0 <= i < |ids| ==> ids[i] < n && Stale(db, ids[i], kind)
    ensures forall i, j :: 0 <= i < j < |ids| ==> ids[i] < ids[j]
    ensures forall id: TxnId :: id < n && Stale(db, id, kind) ==> id in ids
  {
    if n == 0 then []
    else StaleBelow(db, kind, n - 1) + (if Stale(db, n - 1, kind) then [n - 1] else [])
  }

  /** The stale rows, oldest first; one is left out only when the batch is full of older ones. */
  function Batch(db: Db, kind: TxnType): (ids: seq<TxnId>)
    ensures |ids| <= BATCH_LIMIT
    ensures forall i :: 0 <= i < |ids| ==> Stale(db, ids[i], kind)
    ensures forall i, j :: 0 <= i < j < |ids| ==> ids[i] < ids[j]
    ensures forall id: TxnId :: Stale(db, id, kind) && id !in ids ==>
      |ids| == BATCH_LIMIT && forall i :: 0 <= i < |ids| ==> ids[i] < id
  {
    var all := StaleBelow(db, kind, |db.txns|);
    if |all| <= BATCH_LIMIT then all else all[..BATCH_LIMIT]
  }

  /** A row of the funding batch: the id and the provider reference read with it. */
  datatype Item = Item(id: TxnId, provider: string)

  function FundingBatch(db: Db): (items: seq<Item>)
    ensures BatchOk(db, items) && |items| <= BATCH_LIMIT
    ensures forall id: TxnId :: Stale(db, id, Funding) && !InBatch(items, id) ==>
      |items| == BATCH_LIMIT && forall i :: 0 <= i < |items| ==> items[i].id < id
  {
    var ids := Batch(db, Funding);
    var items := seq(|ids|, i requires 0 <= i < |ids| => Item(ids[i], db.txns[ids[i]].provider.value));
    assert forall i :: 0 <= i < |ids| ==> items[i].id == ids[i];
    assert forall id :: id in ids ==> InBatch(items, id);
    items
  }

  predicate ItemOk(db: Db, item: Item) {
    Stale(db, item.id, Funding) && db.txns[item.id].provider == Some(item.provider)
  }

  ghost predicate BatchOk(db: Db, items: seq<Item>) {
    && (forall i :: 0 <= i < |items| ==> ItemOk(db, items[i]))
    && (forall i, j :: 0 <= i < j < |items| ==> items[i].id != items[j].id)
  }

  /** One request for each row Paystack gives an answer about, in batch order. */
  function Requests(items: seq<Item>, ask: string -> Answer): (rs: seq<Request>)
    ensures forall r :: r in rs ==> Delivery(r)
  {
    if items == [] then []
    else
      var last := items[|items| - 1];
      Requests(items[..|items| - 1], ask) + RequestFor(last, ask(last.provider))
  }

  function RequestFor(item: Item, answer: Answer): seq<Request> {
    match answer
    case Unreachable => []
    case Status(paid) => [Reconcile(item.id, item.provider, paid)]
  }

  // ---- What a sweep does to each transaction ---------------------------------------

  /** What the answer about a row's own charge does to the row's journal.  The credit
      goes through the webhook's lookup, which must find this row and no other. */
  function Settled(db: Db, id: TxnId, answer: Answer): Journal
    requires id < |db.txns|
  {
    var j := JournalOf(db, id);
    match answer
    case Unreachable => j
    case Status(None) => if j.txn.status == Pending then j.(txn := j.txn.(status := Failed)) else j
    case Status(Some(paid)) =>
      if j.txn.provider.None? || ChargeTarget(db, j.txn.provider.value).None? then j else LocalCharge(j, paid)
  }

  lemma OwnTarget(db: Db, id: TxnId)
    requires id < |db.txns| && db.txns[id].provider.Some?
    ensures ChargeTarget(db, db.txns[id].provider.value) in {None, Some(id)}
  {
    assert ByProvider(db.txns[id].provider.value)(db.txns[id]);
  }

  /** The same answer, seen as a delivery on a database that earlier deliveries led to. */
  lemma AnswerSettles(db: Db, before: Db, item: Item, paid: Option<nat>, id: TxnId)
    requires SameAddresses(db, before) && RowsOk(before) && Wired(before) && ItemOk(db, item) && id < |db.txns|
    ensures var after := Serve(before, Reconcile(item.id, item.provider, paid));
      && |after.txns| == |before.txns|
      && (id != item.id ==> JournalOf(after, id) == JournalOf(before, id))
      && (id == item.id && JournalOf(before, id) == JournalOf(db, id) ==> JournalOf(after, id) == Settled(db, id, Status(paid)))
  {
    var r := Reconcile(item.id, item.provider, paid);
    DeliverOne(before, r, id);
    TargetsStay(db, before, r);
    OwnTarget(db, item.id);
  }

  predicate InBatch(items: seq<Item>, id: TxnId) {
    exists i :: 0 <= i < |items| && items[i].id == id
  }

  /** A row's journal after the answers about the batch: its own answer's, if it is in it. */
  function Outcome(db: Db, items: seq<Item>, ask: string -> Answer, id: TxnId): Journal
    requires id < |db.txns|
  {
    if InBatch(items, id) && db.txns[id].provider.Some? then Settled(db, id, ask(db.txns[id].provider.value))
    else JournalOf(db, id)
  }

  /** A database after the answer about one row. */
  ghost function Answered(before: GoodDb, item: Item, answer: Answer): GoodDb {
    match answer
    case Unreachable => before
    case Status(paid) => Next(before, Reconcile(item.id, item.provider, paid))
  }

  lemma SweepStep(db: GoodDb, items: seq<Item>, n: nat, ask: string -> Answer)
    requires n < |items|
    ensures Run(db, Requests(items[..n + 1], ask)) ==
      Answered(Run(db, Requests(items[..n], ask)), items[n], ask(items[n].provider))
  {
    var rs := Requests(items[..n], ask);
    assert items[..n + 1][..n] == items[..n];
    if ask(items[n].provider).Status? {
      RunAppend(db, rs, Reconcile(items[n].id, items[n].provider, ask(items[n].provider).paid));
    } else {
      assert rs + [] == rs;
    }
  }

  lemma BatchGrows(db: Db, items: seq<Item>, n: nat, id: TxnId)
    requires BatchOk(db, items) && n < |items|
    ensures !InBatch(items[..n], items[n].id)
    ensures InBatch(items[..n + 1], id) <==> InBatch(items[..n], id) || id == items[n].id
  {
    assert items[..n + 1][n] == items[n];
    assert forall i :: 0 <= i < n ==> items[..n + 1][i] == items[..n][i];
  }

  /** The last answer of a batch, on the database the earlier ones led to. */
  lemma LastAnswer(db: Db, before: Db, after: Db, items: seq<Item>, n: nat, ask: string -> Answer, id: TxnId)
    requires BatchOk(db, items) && n < |items| && id < |db.txns|
    requires SameAddresses(db, before) && RowsOk(before) && Wired(before)
    requires JournalOf(before, id) == Outcome(db, items[..n], ask, id)
    requires after == if ask(items[n].provider).Unreachable? then before
      else Serve(before, Reconcile(items[n].id, items[n].provider, ask(items[n].provider).paid))
    ensures id < |after.txns| && JournalOf(after, id) == Outcome(db, items[..n + 1], ask, id)
  {
    BatchGrows(db, items, n, id);
    assert ItemOk(db, items[n]);
    if ask(items[n].provider).Status? {
      AnswerSettles(db, before, items[n], ask(items[n].provider).paid, id);
    }
  }

  lemma SweepBefore(db: GoodDb, items: seq<Item>, n: nat, ask: string -> Answer)
    requires n < |items|
    ensures var before := Run(db, Requests(items[..n], ask)); var answer := ask(items[n].provider);
      && SameAddresses(db, before) && RowsOk(before) && Wired(before)
      && Run(db, Requests(items[..n + 1], ask)) ==
           if answer.Unreachable? then before else Serve(before, Reconcile(items[n].id, items[n].provider, answer.paid))
  {
    DeliverAllOnlyMoney(db, Requests(items[..n], ask));
    SweepStep(db, items, n, ask);
  }

  lemma SweepNext(db: GoodDb, items: seq<Item>, n: nat, ask: string -> Answer, id: TxnId)
    requires BatchOk(db, items) && n < |items| && id < |db.txns|
    requires id < |Run(db, Requests(items[..n], ask)).txns|
    requires JournalOf(Run(db, Requests(items[..n], ask)), id) == Outcome(db, items[..n], ask, id)
    ensures id < |Run(db, Requests(items[..n + 1], ask)).txns|
    ensures JournalOf(Run(db, Requests(items[..n + 1], ask)), id) == Outcome(db, items[..n + 1], ask, id)
  {
    SweepBefore(db, items, n, ask);
    LastAnswer(db, Run(db, Requests(items[..n], ask)), Run(db, Requests(items[..n + 1], ask)), items, n, ask, id);
  }

  lemma NothingAsked(db: GoodDb, items: seq<Item>, ask: string -> Answer)
    ensures items[..0] == [] && Run(db, Requests(items[..0], ask)) == db
  {
    assert items[..0] == [];
  }

  /** After the answers about the first n rows of a batch, each of these rows is settled by
      the answer about its own charge, and every other transaction is as it was. */
  lemma {:induction false} SweepSettles(db: GoodDb, items: seq<Item>, n: nat, ask: string -> Answer, id: TxnId)
    requires BatchOk(db, items) && n <= |items| && id < |db.txns|
    ensures id < |Run(db, Requests(items[..n], ask)).txns|
    ensures JournalOf(Run(db, Requests(items[..n], ask)), id) == Outcome(db, items[..n], ask, id)
    decreases n
  {
    if n == 0 {
      NothingAsked(db, items, ask);
    } else {
      var m: nat := n - 1;
      SweepSettles(db, items, m, ask, id);
      SweepNext(db, items, m, ask, id);
      assert items[..m + 1] == items[..n];
    }
  }

  // ---- What the sweep promises ---------------------------------------------------------

  /** A funding that has been PENDING for half an hour or more. */
  predicate WaitsTooLong(db: Db, id: TxnId) {
    && id < |db.txns| && db.txns[id].kind == Funding && db.txns[id].status == Pending
    && db.txns[id].provider.Some? && db.txns[id].createdAt + 30 * 60 <= db.now
  }

  /** A withdrawal that has been PENDING for half an hour or more. */
  predicate WaitsForPayout(db: Db, id: TxnId) {
    && id < |db.txns| && db.txns[id].kind == Withdrawal && db.txns[id].status == Pending
    && db.txns[id].createdAt + 30 * 60 <= db.now
  }

  function TooLong(db: Db): set<TxnId> {
    set id: TxnId | id < |db.txns| && WaitsTooLong(db, id)
  }

  /** No other row carries this row's charge reference. */
  ghost predicate SoleCharge(db: Db, id: TxnId)
    requires id < |db.txns|
  {
    && db.txns[id].provider.Some? && db.txns[id].provider.value != ""
    && forall i :: 0 <= i < |db.txns| && db.txns[i].provider == db.txns[id].provider ==> i == id
  }

  /** An unpaid funding is FAILED, a paid one COMPLETED with one credit of the answered amount,
      and one Paystack does not answer about stays as it is. */
  ghost predicate SweptAs(db: Db, after: Db, id: TxnId, answer: Answer)
    requires id < |db.txns| && id < |after.txns|
  {
    match answer
    case Unreachable => after.txns[id] == db.txns[id] && Postings(after.ledger, id) == []
    case Status(None) => after.txns[id] == db.txns[id].(status := Failed) && Postings(after.ledger, id) == []
    case Status(Some(paid)) =>
      SoleCharge(db, id) ==>
        && after.txns[id] == db.txns[id].(status := Completed) && db.txns[id].dest.Some?
        && Strip(Postings(after.ledger, id)) == [Posting(db.txns[id].dest.value, Credit, paid)]
  }

  /** What one sweep does to one transaction: when at most fifty fundings wait too long each
      is settled by the answer about its own charge, and nothing else is touched. */
  ghost predicate SweptRight(db: Db, after: Db, id: TxnId, ask: string -> Answer)
    requires id < |db.txns| && id < |after.txns|
  {
    && (WaitsTooLong(db, id) && |TooLong(db)| <= 50 ==> SweptAs(db, after, id, ask(db.txns[id].provider.value)))
    && (!WaitsTooLong(db, id) ==>
          after.txns[id] == db.txns[id] && Strip(Postings(after.ledger, id)) == Strip(Postings(db.ledger, id)))
  }

  function IdsOf(items: seq<Item>): set<TxnId> {
    set i | 0 <= i < |items| :: items[i].id
  }

  lemma {:induction false} DistinctIds(items: seq<Item>)
    requires forall i, j :: 0 <= i < j < |items| ==> items[i].id != items[j].id
    ensures |IdsOf(items)| == |items|
  {
    if items != [] {
      var front, last := items[..|items| - 1], items[|items| - 1];
      DistinctIds(front);
      assert IdsOf(items) == IdsOf(front) + {last.id};
    }
  }

  lemma Fits<T>(few: set<T>, many: set<T>)
    requires few <= many
    ensures |few| <= |many|
  {
    assert many == few + (many - few);
  }

  lemma BatchWaits(db: Db, items: seq<Item>)
    requires BatchOk(db, items)
    ensures IdsOf(items) <= TooLong(db) && |IdsOf(items)| == |items|
  {
    DistinctIds(items);
    forall i | 0 <= i < |items| ensures items[i].id in TooLong(db) {
      assert ItemOk(db, items[i]);
    }
  }

  /** When at most fifty fundings wait too long, the batch holds them all. */
  lemma NoneLeftOut(db: Db, items: seq<Item>, id: TxnId)
    requires BatchOk(db, items) && WaitsTooLong(db, id) && |TooLong(db)| <= 50
    requires !InBatch(items, id) ==> |items| == 50
    ensures InBatch(items, id)
  {
    if !InBatch(items, id) {
      BatchWaits(db, items);
      assert id !in IdsOf(items);
      Fits(IdsOf(items) + {id}, TooLong(db));
    }
  }

  lemma SettledIsSwept(db: Db, after: Db, id: TxnId, answer: Answer)
    requires PostingsOk(db) && RowsOk(db) && WaitsTooLong(db, id) && id < |after.txns|
    requires JournalOf(after, id) == Settled(db, id, answer)
    ensures SweptAs(db, after, id, answer)
  {
    assert TxnOk(db.wallets, db.txns[id]) && PostingsMatch(db.txns[id], Strip(Postings(db.ledger, id)));
    assert |Strip(Postings(after.ledger, id))| == |Postings(after.ledger, id)|;
    if SoleCharge(db, id) {
      OnlyMatch(db.txns, ByProvider(db.txns[id].provider.value), id);
    }
  }

  lemma OutcomeIsRight(db: Db, after: Db, id: TxnId, ask: string -> Answer)
    requires PostingsOk(db) && RowsOk(db) && id < |db.txns| && id < |after.txns|
    requires JournalOf(after, id) == Outcome(db, FundingBatch(db), ask, id)
    ensures SweptRight(db, after, id, ask)
  {
    if WaitsTooLong(db, id) && |TooLong(db)| <= 50 {
      assert Stale(db, id, Funding);
      NoneLeftOut(db, FundingBatch(db), id);
      SettledIsSwept(db, after, id, ask(db.txns[id].provider.value));
    }
  }

  lemma SweepIsRight(db: GoodDb, ask: string -> Answer, id: TxnId)
    requires id < |db.txns|
    ensures id < |Run(db, Requests(FundingBatch(db), ask)).txns|
    ensures SweptRight(db, Run(db, Requests(FundingBatch(db), ask)), id, ask)
  {
    var items := FundingBatch(db);
    SweepSettles(db, items, |items|, ask, id);
    assert items[..|items|] == items;
    OutcomeIsRight(db, Run(db, Requests(items, ask)), id, ask);
  }

  // ---- The task ----------------------------------------------------------------------

  lemma StillStale(db: GoodDb, rs: seq<Request>, item: Item)
    requires ItemOk(db, item) && forall r :: r in rs ==> Delivery(r)
    ensures RowsOk(Run(db, rs)) && Wired(Run(db, rs)) && StaleFunding(Run(db, rs), item.id)
  {
    DeliverAllOnlyMoney(db, rs);
  }

  class ReconciliationTask {
    const session: Session

    constructor (session: Session)
      ensures this.session == session
    {
      this.session := session;
    }

    method ReconcileFunding(item: Item, answer: Answer)
      requires session.Clean() && StaleFunding(session.db, item.id)
      modifies session
      ensures session.rows == session.db
      ensures session.db == if answer.Unreachable? then old(session.db)
        else Serve(old(session.db), Reconcile(item.id, item.provider, answer.paid))
    {
      if answer.Unreachable? {
        return;
      }
      if answer.paid.Some? {
        var webhooks := new PaystackWebhookService(session);
        var r := webhooks.ProcessChargeSuccess(item.provider, answer.paid.value);
        session.Commit();
      } else if session.rows.txns[item.id].status == Pending {
        var begun := session.UpdateStatus(item.id, Processing);
        var failed := session.UpdateStatus(item.id, Failed);
        session.Commit();
      }
    }

    /** One turn of the sweep's loop. */
    method ReconcileItem(ghost start: GoodDb, items: seq<Item>, n: nat, ask: string -> Answer)
      requires BatchOk(start, items) && n < |items|
      requires session.rows == session.db && session.db == Run(start, Requests(items[..n], ask))
      modifies session
      ensures session.rows == session.db && session.db == Run(start, Requests(items[..n + 1], ask))
    {
      StillStale(start, Requests(items[..n], ask), items[n]);
      SweepStep(start, items, n, ask);
      ReconcileFunding(items[n], ask(items[n].provider));
    }

    /** The sweep's loop over a batch read at the start. */
    method ReconcileItems(ghost start: GoodDb, items: seq<Item>, ask: string -> Answer)
      requires BatchOk(start, items) && session.db == start && session.rows == start
      modifies session
      ensures session.rows == session.db && session.db == Run(start, Requests(items, ask))
    {
      NothingAsked(start, items, ask);
      var n := 0;
      while n < |items|
        invariant n <= |items|
        invariant session.rows == session.db && session.db == Run(start, Requests(items[..n], ask))
      {
        ReconcileItem(start, items, n, ask);
        n := n + 1;
      }
      assert items[..n] == items;
    }

    /** Reads the batch, then settles the stale fundings one by one.  The last clause says of
        the rows what the sweep is for. */
    method ReconcileFundings(ask: string -> Answer)
      requires session.rows == session.db && Good(session.db)
      modifies session
      ensures session.rows == session.db
      ensures session.db == Run(old(session.db), Requests(FundingBatch(old(session.db)), ask))
      ensures |session.db.txns| == |old(session.db).txns|
      ensures forall id: TxnId :: id < |session.db.txns| ==> SweptRight(old(session.db), session.db, id, ask)
    {
      ghost var before: GoodDb := session.db;
      ReconcileItems(session.db, FundingBatch(session.rows), ask);
      DeliverAllOnlyMoney(before, Requests(FundingBatch(before), ask));
      forall id: TxnId | id < |before.txns| ensures id < |session.db.txns| && SweptRight(before, session.db, id, ask) {
        SweepIsRight(before, ask, id);
      }
    }

    /** Hands the stale withdrawals back to the payout task. */
    method EnqueueWithdrawals() returns (enqueued: seq<TxnId>)
      ensures enqueued == Batch(session.rows, Withdrawal)
      ensures forall id: TxnId :: id in enqueued ==> WaitsForPayout(session.rows, id)
      ensures forall id: TxnId :: WaitsForPayout(session.rows, id) && id !in enqueued ==> |enqueued| == 50
    {
      var ids := Batch(session.rows, Withdrawal);
      enqueued := [];
      for n := 0 to |ids|
        invariant enqueued == ids[..n]
      {
        enqueued := enqueued + [ids[n]];
      }
      assert enqueued == ids;
      forall id: TxnId | WaitsForPayout(session.rows, id) && id !in ids ensures |ids| == 50 {
        assert Stale(session.rows, id, Withdrawal);
      }
    }
  }
}
