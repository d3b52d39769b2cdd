/** How a transaction row may change over time: its status walks the state machine
    and everything else is written once. */
module Lifecycle {
  import opened Options
  import opened Records
  import opened Effects
  import opened Ledger

  ghost predicate Path(p: seq<Status>) {
    p != [] && forall k :: 0 <= k < |p| - 1 ==> p[k + 1] in ValidTransitions(p[k])
  }

  ghost predicate PathBetween(p: seq<Status>, from: Status, to: Status) {
    Path(p) && p[0] == from && p[|p| - 1] == to
  }

  ghost predicate Walk(from: Status, to: Status) {
    exists p :: PathBetween(p, from, to)
  }

  lemma WalkThrough(p: seq<Status>, from: Status, to: Status)
    requires PathBetween(p, from, to)
    ensures Walk(from, to)
  {
  }

  lemma WalkTransitive(a: Status, b: Status, c: Status)
    requires Walk(a, b) && Walk(b, c)
    ensures Walk(a, c)
  {
    var p :| PathBetween(p, a, b);
    var q :| PathBetween(q, b, c);
    var both := p + q[1..];
    forall k | 0 <= k < |both| - 1 ensures both[k + 1] in ValidTransitions(both[k]) {
      if k < |p| - 1 {
        assert p[k + 1] in ValidTransitions(p[k]);
      } else {
        assert both[k] == q[k - |p| + 1];
        assert q[k - |p| + 2] in ValidTransitions(q[k - |p| + 1]);
      }
    }
    WalkThrough(both, a, c);
  }

  /** A terminal status other than COMPLETED is never left; COMPLETED leads only to REVERSED. */
  lemma NoWayBack(from: Status, to: Status)
    requires Walk(from, to)
    ensures from in {Failed, Reversed} ==> to == from
    ensures from == Completed ==> to in {Completed, Reversed}
  {
    var p :| PathBetween(p, from, to);
    if |p| > 1 {
      assert p[1] in ValidTransitions(p[0]);
      if |p| > 2 {
        assert p[2] in ValidTransitions(p[1]);
        if |p| > 3 {
          assert p[3] in ValidTransitions(p[2]);
        }
      }
    }
  }

  /** A later version of the same row: only a withdrawal's provider reference is filled in. */
  ghost predicate Evolves(t: Txn, later: Txn) {
    && later == t.(status := later.status, provider := later.provider)
    && (later.provider == t.provider || (t.provider.None? && t.kind == Withdrawal))
    && Walk(t.status, later.status)
  }

  lemma EvolvesRefl(t: Txn)
    ensures Evolves(t, t)
  {
    WalkThrough([t.status], t.status, t.status);
  }

  lemma EvolvesTransitive(a: Txn, b: Txn, c: Txn)
    requires Evolves(a, b) && Evolves(b, c)
    ensures Evolves(a, c)
  {
    WalkTransitive(a.status, b.status, c.status);
  }

  /** No effect removes a row or an entry, and every row evolves. */
  lemma EffectEvolves(db: Db, e: Effect, id: TxnId)
    requires RowsOk(db) && Enabled(db, e) && id < |db.txns|
    ensures id < |Apply(db, e).txns| && Evolves(db.txns[id], Apply(db, e).txns[id])
    ensures db.ledger <= Apply(db, e).ledger
  {
    UntouchedRows(db, e);
    EvolvesRefl(db.txns[id]);
    if id == Touched(db, e) {
      assert TxnOk(db.wallets, db.txns[id]);
      WalkThrough([Pending, Processing, Completed], Pending, Completed);
      WalkThrough([Pending, Processing, Failed], Pending, Failed);
      WalkThrough([Pending, Processing], Pending, Processing);
      WalkThrough([Processing, Completed], Processing, Completed);
      WalkThrough([Processing, Failed], Processing, Failed);
    }
  }
}
