/** The accounting invariant of the money tables, kept by every effect. */
module Ledger {
  import opened Options
  import opened Sums
  import opened Records
  import opened Effects

  // ---- The invariant -------------------------------------------------------

  predicate TxnOk(wallets: map<WalletId, Wallet>, t: Txn) {
    && 0 < t.amount
    && match t.kind
       case Funding =>
         && t.source.None? && t.dest.Some? && t.dest.value in wallets
         && t.provider.Some? && t.account.None? && t.status in {Pending, Completed, Failed}
       case Transfer => Moved(wallets, t)
       case MerchantPayment => Moved(wallets, t)
       case Withdrawal =>
         && t.source.Some? && t.source.value in wallets && t.dest.None? && t.account.Some?
         && t.status in {Pending, Processing, Completed, Failed}
         && (t.status == Pending <==> t.provider.None?)
  }

  predicate Moved(wallets: map<WalletId, Wallet>, t: Txn) {
    && t.status == Completed && t.account.None?
    && t.source.Some? && t.source.value in wallets
    && t.dest.Some? && t.dest.value in wallets && t.source != t.dest
  }

  ghost predicate UniqueColumns(txns: seq<Txn>) {
    forall i, j :: 0 <= i < j < |txns| ==>
      txns[i].reference != txns[j].reference && (txns[i].key.Some? ==> txns[i].key != txns[j].key)
  }

  /** An entry without the balance snapshot it carries. */
  datatype Posting = Posting(wallet: WalletId, side: Side, amount: int)

  function Strip(entries: seq<Entry>): seq<Posting> {
    seq(|entries|, i requires 0 <= i < |entries| => Posting(entries[i].wallet, entries[i].side, entries[i].amount))
  }

  /** What the ledger must hold for a transaction, given its type and status. */
  predicate PostingsMatch(t: Txn, posted: seq<Posting>) {
    if t.status != Completed then posted == []
    else match t.kind
      case Funding =>
        |posted| == 1 && t.dest.Some? && posted[0] == Posting(t.dest.value, Credit, posted[0].amount) && 0 <= posted[0].amount
      case Withdrawal =>
        t.source.Some? && posted == [Posting(t.source.value, Debit, t.amount)]
      case _ =>
        && t.source.Some? && t.dest.Some?
        && posted == [Posting(t.source.value, Debit, t.amount), Posting(t.dest.value, Credit, t.amount)]
  }

  ghost predicate BalanceIdentity(db: Db) {
    forall w :: w in db.wallets ==>
      && 0 <= db.wallets[w].balance
      && db.wallets[w].balance == Sum(db.ledger, SignedOn(w)) - Sum(db.txns, HeldOn(w))
  }

  ghost predicate Conserved(db: Db) {
    Total(Balances(db.wallets)) + Sum(db.txns, Held) == Sum(db.ledger, Signed)
  }

  predicate NeverWithdrew(txns: seq<Txn>, w: WalletId) {
    forall t :: t in txns && t.kind == Withdrawal ==> t.source != Some(w)
  }

  /** Every snapshot ever written lies between 0 and the wallet's ledger sum
      through that entry, and is that sum when the wallet never withdrew. */
  ghost predicate History(db: Db) {
    forall k :: 0 <= k < |db.ledger| ==> SnapshotOk(db, k)
  }

  ghost predicate SnapshotOk(db: Db, k: nat)
    requires k < |db.ledger|
  {
    var running := Sum(db.ledger[..k + 1], SignedOn(db.ledger[k].wallet));
    && 0 <= db.ledger[k].balanceAfter <= running
    && (NeverWithdrew(db.txns, db.ledger[k].wallet) ==> db.ledger[k].balanceAfter == running)
  }

  ghost predicate RowsOk(db: Db) {
    && (forall t :: t in db.txns ==> TxnOk(db.wallets, t))
    && (forall e :: e in db.ledger ==> e.txn < |db.txns| && e.wallet in db.wallets)
  }

  ghost predicate PostingsOk(db: Db) {
    forall i :: 0 <= i < |db.txns| ==> PostingsMatch(db.txns[i], Strip(Postings(db.ledger, i)))
  }

  ghost predicate Inv(db: Db) {
    && RowsOk(db)
    && UniqueColumns(db.txns)
    && PostingsOk(db)
    && BalanceIdentity(db)
    && Conserved(db)
    && History(db)
  }

  // ---- What one effect does to the sums ------------------------------------

  /** The entries an effect appends. */
  function Appended(db: Db, e: Effect): seq<Entry>
    requires Enabled(db, e)
  {
    Apply(db, e).ledger[|db.ledger|..]
  }

  lemma AppendsOnly(db: Db, e: Effect)
    requires Enabled(db, e)
    ensures Apply(db, e).ledger == db.ledger + Appended(db, e)
    ensures |Appended(db, e)| <= 2
  {
  }

  predicate Inserts(e: Effect) { e.Move? || e.OpenFunding? || e.Hold? }

  /** The one transaction an effect inserts or updates. */
  function Touched(db: Db, e: Effect): TxnId {
    if Inserts(e) then |db.txns| else e.txn
  }

  lemma RowsAfter(db: Db, e: Effect, f: Txn -> int)
    requires Enabled(db, e)
    ensures |Apply(db, e).txns| == |db.txns| + (if Inserts(e) then 1 else 0)
    ensures Touched(db, e) < |Apply(db, e).txns|
    ensures Sum(Apply(db, e).txns, f) == Sum(db.txns, f) + f(Apply(db, e).txns[Touched(db, e)])
              - (if Inserts(e) then 0 else f(db.txns[e.txn]))
  {
    if Inserts(e) {
      SumAppend(db.txns, NewTxn(db, e), f);
    } else {
      SumUpdate(db.txns, e.txn, Apply(db, e).txns[e.txn], f);
    }
  }

  lemma PostedAfter(db: Db, e: Effect, f: Entry -> int)
    requires Enabled(db, e)
    ensures Sum(Apply(db, e).ledger, f) == Sum(db.ledger, f) + Sum(Appended(db, e), f)
  {
    var added := Appended(db, e);
    if |added| == 1 {
      assert added == [] + [added[0]];
      SumAppend(db.ledger, added[0], f);
      SumAppend([], added[0], f);
    } else if |added| == 2 {
      assert db.ledger + added == db.ledger + [added[0]] + [added[1]];
      SumAppend(db.ledger + [added[0]], added[1], f);
      SumAppend(db.ledger, added[0], f);
      assert added == [] + [added[0]] + [added[1]];
      SumAppend([added[0]], added[1], f);
      SumAppend([], added[0], f);
    }
  }

  /** A pair of entries, or one, or none, sums as written. */
  lemma SumOfFew(es: seq<Entry>, f: Entry -> int)
    requires |es| <= 2
    ensures Sum(es, f) == (if |es| == 0 then 0 else if |es| == 1 then f(es[0]) else f(es[0]) + f(es[1]))
  {
    if |es| == 2 {
      assert es[..1][..0] == [];
      assert Sum(es[..1], f) == Sum(es[..1][..0], f) + f(es[0]);
    }
  }

  // ---- Preservation, one conjunct at a time --------------------------------

  lemma TouchedOk(db: Db, e: Effect)
    requires RowsOk(db) && Enabled(db, e)
    ensures Touched(db, e) < |Apply(db, e).txns|
    ensures TxnOk(Apply(db, e).wallets, Apply(db, e).txns[Touched(db, e)])
  {
    if !Inserts(e) {
      assert TxnOk(db.wallets, db.txns[e.txn]);
    }
  }

  lemma UntouchedRows(db: Db, e: Effect)
    requires Enabled(db, e)
    ensures |db.txns| <= |Apply(db, e).txns| <= |db.txns| + (if Inserts(e) then 1 else 0)
    ensures forall i :: 0 <= i < |db.txns| && i != Touched(db, e) ==> Apply(db, e).txns[i] == db.txns[i]
    ensures Apply(db, e).wallets.Keys == db.wallets.Keys
    ensures Touched(db, e) < |Apply(db, e).txns|
  {
  }

  lemma SameShape(before: map<WalletId, Wallet>, after: map<WalletId, Wallet>, t: Txn)
    requires before.Keys == after.Keys && TxnOk(before, t)
    ensures TxnOk(after, t)
  {
  }

  lemma KeepsRows(db: Db, e: Effect)
    requires RowsOk(db) && Enabled(db, e)
    ensures RowsOk(Apply(db, e))
  {
    var next := Apply(db, e);
    AppendsOnly(db, e);
    TouchedOk(db, e);
    UntouchedRows(db, e);
    forall t | t in next.txns ensures TxnOk(next.wallets, t) {
      var i :| 0 <= i < |next.txns| && next.txns[i] == t;
      if i != Touched(db, e) {
        SameShape(db.wallets, next.wallets, db.txns[i]);
      }
    }
    AppendedOk(db, e);
  }

  lemma AppendedOk(db: Db, e: Effect)
    requires RowsOk(db) && Enabled(db, e)
    ensures forall k :: 0 <= k < |Appended(db, e)| ==>
      Appended(db, e)[k].txn == Touched(db, e) && Appended(db, e)[k].wallet in db.wallets
  {
  }

  lemma KeepsUnique(db: Db, e: Effect)
    requires UniqueColumns(db.txns) && Enabled(db, e)
    ensures UniqueColumns(Apply(db, e).txns)
  {
  }

  lemma PostingsAppend(ledger: seq<Entry>, e: Entry, id: TxnId)
    ensures Postings(ledger + [e], id) == Postings(ledger, id) + (if e.txn == id then [e] else [])
  {
    assert (ledger + [e])[..|ledger|] == ledger;
  }

  lemma {:induction false} NoPostings(ledger: seq<Entry>, id: TxnId)
    requires forall e :: e in ledger ==> e.txn != id
    ensures Postings(ledger, id) == []
  {
    if ledger != [] {
      NoPostings(ledger[..|ledger| - 1], id);
    }
  }

  /** An effect's entries join the postings of the one transaction it touches. */
  lemma PostingsAfter(db: Db, e: Effect, id: TxnId)
    requires Enabled(db, e)
    ensures Postings(Apply(db, e).ledger, id) ==
      Postings(db.ledger, id) + (if Appended(db, e) != [] && Appended(db, e)[0].txn == id then Appended(db, e) else [])
  {
    AppendsOnly(db, e);
    var added := Appended(db, e);
    if |added| == 1 {
      PostingsAppend(db.ledger, added[0], id);
    } else if |added| == 2 {
      PostingsAppend(db.ledger, added[0], id);
      PostingsAppend(db.ledger + [added[0]], added[1], id);
      assert db.ledger + added == db.ledger + [added[0]] + [added[1]];
    }
  }

  lemma AppendedMatch(db: Db, e: Effect)
    requires RowsOk(db) && Enabled(db, e)
    ensures Touched(db, e) < |Apply(db, e).txns|
    ensures PostingsMatch(Apply(db, e).txns[Touched(db, e)], Strip(Appended(db, e)))
  {
    if !Inserts(e) {
      assert TxnOk(db.wallets, db.txns[e.txn]);
    }
  }

  /** Before an effect that writes entries, its transaction has none. */
  lemma NothingPosted(db: Db, e: Effect)
    requires RowsOk(db) && Enabled(db, e)
    requires !Inserts(e) ==> PostingsMatch(db.txns[e.txn], Strip(Postings(db.ledger, e.txn)))
    ensures Postings(db.ledger, Touched(db, e)) == []
  {
    if Inserts(e) {
      NoPostings(db.ledger, |db.txns|);
    } else {
      assert |Strip(Postings(db.ledger, e.txn))| == 0;
    }
  }

  lemma TouchedPostings(db: Db, e: Effect)
    requires RowsOk(db) && Enabled(db, e)
    requires !Inserts(e) ==> PostingsMatch(db.txns[e.txn], Strip(Postings(db.ledger, e.txn)))
    ensures Touched(db, e) < |Apply(db, e).txns|
    ensures Postings(Apply(db, e).ledger, Touched(db, e)) == Appended(db, e)
    ensures PostingsMatch(Apply(db, e).txns[Touched(db, e)], Strip(Postings(Apply(db, e).ledger, Touched(db, e))))
  {
    PostingsAfter(db, e, Touched(db, e));
    AppendedOk(db, e);
    NothingPosted(db, e);
    AppendedMatch(db, e);
  }

  lemma KeepsPostings(db: Db, e: Effect)
    requires RowsOk(db) && PostingsOk(db) && Enabled(db, e)
    ensures PostingsOk(Apply(db, e))
  {
    UntouchedRows(db, e);
    AppendedOk(db, e);
    forall i | 0 <= i < |Apply(db, e).txns|
      ensures PostingsMatch(Apply(db, e).txns[i], Strip(Postings(Apply(db, e).ledger, i)))
    {
      if i == Touched(db, e) {
        TouchedPostings(db, e);
      } else {
        PostingsAfter(db, e, i);
      }
    }
  }

  /** Each effect moves a wallet's balance by what it posts less what it newly holds. */
  lemma BalanceAfter(db: Db, e: Effect, w: WalletId)
    requires RowsOk(db) && Enabled(db, e) && w in db.wallets
    ensures w in Apply(db, e).wallets && Touched(db, e) < |Apply(db, e).txns|
    ensures Apply(db, e).wallets[w].balance == db.wallets[w].balance + Sum(Appended(db, e), SignedOn(w))
              - HeldOn(w)(Apply(db, e).txns[Touched(db, e)]) + (if Inserts(e) then 0 else HeldOn(w)(db.txns[e.txn]))
    ensures 0 <= db.wallets[w].balance ==> 0 <= Apply(db, e).wallets[w].balance
  {
    SumOfFew(Appended(db, e), SignedOn(w));
    if !Inserts(e) {
      assert TxnOk(db.wallets, db.txns[e.txn]);
    }
  }

  lemma KeepsIdentity(db: Db, e: Effect)
    requires RowsOk(db) && BalanceIdentity(db) && Enabled(db, e)
    ensures BalanceIdentity(Apply(db, e))
  {
    var next := Apply(db, e);
    UntouchedRows(db, e);
    forall w | w in next.wallets
      ensures 0 <= next.wallets[w].balance
      ensures next.wallets[w].balance == Sum(next.ledger, SignedOn(w)) - Sum(next.txns, HeldOn(w))
    {
      RowsAfter(db, e, HeldOn(w));
      PostedAfter(db, e, SignedOn(w));
      BalanceAfter(db, e, w);
    }
  }

  lemma BalancesPut(wallets: map<WalletId, Wallet>, w: WalletId, balance: int)
    requires w in wallets
    ensures Total(Balances(WithBalance(wallets, w, balance))) == Total(Balances(wallets)) - wallets[w].balance + balance
  {
    TotalPut(Balances(wallets), w, balance);
    assert Balances(WithBalance(wallets, w, balance)) == Balances(wallets)[w := balance];
  }

  lemma TotalAfterMove(db: Db, e: Effect)
    requires e.Move? && Enabled(db, e)
    ensures Total(Balances(Apply(db, e).wallets)) == Total(Balances(db.wallets))
  {
    var out, into := db.wallets[e.source].balance - e.amount, db.wallets[e.dest].balance + e.amount;
    BalancesPut(db.wallets, e.source, out);
    BalancesPut(WithBalance(db.wallets, e.source, out), e.dest, into);
  }

  lemma TotalAfterOther(db: Db, e: Effect)
    requires !e.Move? && Enabled(db, e)
    requires !Inserts(e) ==> TxnOk(db.wallets, db.txns[e.txn])
    ensures Touched(db, e) < |Apply(db, e).txns|
    ensures Total(Balances(Apply(db, e).wallets)) == Total(Balances(db.wallets)) + Sum(Appended(db, e), Signed)
              - Held(Apply(db, e).txns[Touched(db, e)]) + (if Inserts(e) then 0 else Held(db.txns[e.txn]))
  {
    SumOfFew(Appended(db, e), Signed);
    if e.CreditFunding? {
      var w := db.txns[e.txn].dest.value;
      BalancesPut(db.wallets, w, db.wallets[w].balance + e.paid);
    } else if e.Hold? {
      BalancesPut(db.wallets, e.source, db.wallets[e.source].balance - e.amount);
    } else if e.RefundPayout? {
      var w := db.txns[e.txn].source.value;
      BalancesPut(db.wallets, w, db.wallets[w].balance + db.txns[e.txn].amount);
    }
  }

  lemma TotalAfter(db: Db, e: Effect)
    requires RowsOk(db) && Enabled(db, e)
    ensures Touched(db, e) < |Apply(db, e).txns|
    ensures Total(Balances(Apply(db, e).wallets)) == Total(Balances(db.wallets)) + Sum(Appended(db, e), Signed)
              - Held(Apply(db, e).txns[Touched(db, e)]) + (if Inserts(e) then 0 else Held(db.txns[e.txn]))
  {
    if e.Move? {
      TotalAfterMove(db, e);
      SumOfFew(Appended(db, e), Signed);
    } else {
      TotalAfterOther(db, e);
    }
  }

  lemma KeepsTotal(db: Db, e: Effect)
    requires RowsOk(db) && Conserved(db) && Enabled(db, e)
    ensures Conserved(Apply(db, e))
  {
    RowsAfter(db, e, Held);
    PostedAfter(db, e, Signed);
    TotalAfter(db, e);
  }

  /** The snapshot in an entry is the running ledger sum less exactly what the
      wallet's withdrawals hold in the state the entry was committed with. */
  lemma SnapshotGap(db: Db, e: Effect, k: nat)
    requires RowsOk(db) && BalanceIdentity(db) && Enabled(db, e)
    requires |db.ledger| <= k < |Apply(db, e).ledger|
    ensures var next := Apply(db, e); var w := next.ledger[k].wallet;
      && w in next.wallets
      && next.ledger[k].balanceAfter == next.wallets[w].balance
      && next.ledger[k].balanceAfter == Sum(next.ledger[..k + 1], SignedOn(w)) - Sum(next.txns, HeldOn(w))
  {
    var next := Apply(db, e);
    var w := next.ledger[k].wallet;
    KeepsIdentity(db, e);
    LaterEntries(db, e, k);
  }

  /** No later entry of the same effect is on the same wallet. */
  lemma LaterEntries(db: Db, e: Effect, k: nat)
    requires Enabled(db, e)
    requires |db.ledger| <= k < |Apply(db, e).ledger|
    ensures var l := Apply(db, e).ledger; Sum(l[..k + 1], SignedOn(l[k].wallet)) == Sum(l, SignedOn(l[k].wallet))
  {
    var l := Apply(db, e).ledger;
    if k + 1 < |l| {
      SumPrefix(l, k + 1, SignedOn(l[k].wallet));
      assert l[..k + 2] == l;
    } else {
      assert l[..k + 1] == l;
    }
  }

  lemma HeldNonnegative(db: Db, w: WalletId)
    requires RowsOk(db)
    ensures 0 <= Sum(db.txns, HeldOn(w))
    ensures NeverWithdrew(db.txns, w) ==> Sum(db.txns, HeldOn(w)) == 0
  {
    forall i | 0 <= i < |db.txns| ensures 0 <= HeldOn(w)(db.txns[i]) {
      assert TxnOk(db.wallets, db.txns[i]);
    }
    SumNonnegative(db.txns, HeldOn(w));
    if NeverWithdrew(db.txns, w) {
      SumZero(db.txns, HeldOn(w));
    }
  }

  lemma WithdrewStays(db: Db, e: Effect, w: WalletId)
    requires Enabled(db, e) && NeverWithdrew(Apply(db, e).txns, w)
    ensures NeverWithdrew(db.txns, w)
  {
    forall i | 0 <= i < |db.txns| && db.txns[i].kind == Withdrawal ensures db.txns[i].source != Some(w) {
      assert Apply(db, e).txns[i] in Apply(db, e).txns;
    }
  }

  lemma OldSnapshot(db: Db, e: Effect, k: nat)
    requires Enabled(db, e) && k < |db.ledger| && SnapshotOk(db, k)
    ensures k < |Apply(db, e).ledger| && SnapshotOk(Apply(db, e), k)
  {
    AppendsOnly(db, e);
    assert Apply(db, e).ledger[..k + 1] == db.ledger[..k + 1];
    if NeverWithdrew(Apply(db, e).txns, db.ledger[k].wallet) {
      WithdrewStays(db, e, db.ledger[k].wallet);
    }
  }

  lemma NewSnapshot(db: Db, e: Effect, k: nat)
    requires RowsOk(db) && BalanceIdentity(db) && Enabled(db, e)
    requires |db.ledger| <= k < |Apply(db, e).ledger|
    ensures SnapshotOk(Apply(db, e), k)
  {
    var next := Apply(db, e);
    SnapshotGap(db, e, k);
    KeepsRows(db, e);
    KeepsIdentity(db, e);
    HeldNonnegative(next, next.ledger[k].wallet);
  }

  lemma KeepsHistory(db: Db, e: Effect)
    requires RowsOk(db) && BalanceIdentity(db) && History(db) && Enabled(db, e)
    ensures History(Apply(db, e))
  {
    forall k | 0 <= k < |Apply(db, e).ledger| ensures SnapshotOk(Apply(db, e), k) {
      if k < |db.ledger| {
        OldSnapshot(db, e, k);
      } else {
        NewSnapshot(db, e, k);
      }
    }
  }

  /** Every effect keeps the accounting invariant. */
  lemma ApplyKeepsInv(db: Db, e: Effect)
    requires Inv(db) && Enabled(db, e)
    ensures Inv(Apply(db, e))
  {
    KeepsRows(db, e);
    KeepsUnique(db, e);
    KeepsPostings(db, e);
    KeepsIdentity(db, e);
    KeepsTotal(db, e);
    KeepsHistory(db, e);
  }

  // ---- Consequences --------------------------------------------------------

  /** Rows grouped by transaction add up to the whole ledger. */
  lemma {:induction false} GroupByTxn(ledger: seq<Entry>, n: nat, f: Entry -> int)
    requires forall e :: e in ledger ==> e.txn < n
    ensures Sum(ledger, f) == Sum(Grouped(ledger, n, f), Itself)
  {
    if ledger == [] {
      SumZero(Grouped(ledger, n, f), Itself);
    } else {
      var front, last := ledger[..|ledger| - 1], ledger[|ledger| - 1];
      GroupByTxn(front, n, f);
      assert ledger == front + [last];
      forall i | 0 <= i < n ensures Sum(Postings(ledger, i), f) ==
        Sum(Postings(front, i), f) + (if last.txn == i then f(last) else 0)
      {
        PostingsAppend(front, last, i);
        if last.txn == i {
          SumAppend(Postings(front, i), last, f);
        }
      }
      var before, after := Grouped(front, n, f), Grouped(ledger, n, f);
      SumUpdate(before, last.txn, after[last.txn], Itself);
      assert before[last.txn := after[last.txn]] == after;
    }
  }

  function Grouped(ledger: seq<Entry>, n: nat, f: Entry -> int): seq<int> {
    seq(n, i requires 0 <= i < n => Sum(Postings(ledger, i), f))
  }

  const Itself: int -> int := (x: int) => x

  /** Money that came in through a completed funding: the amount Paystack reported. */
  function Credited(db: Db, id: TxnId): int
    requires id < |db.txns|
  {
    if db.txns[id].kind == Funding then Sum(Postings(db.ledger, id), Signed) else 0
  }

  function PaidOut(t: Txn): int { if t.kind == Withdrawal && t.status == Completed then t.amount else 0 }

  function Inflows(db: Db): seq<int> {
    seq(|db.txns|, i requires 0 <= i < |db.txns| => Credited(db, i))
  }

  /** Over all wallets: balances plus holds are exactly the fundings credited less
      the withdrawals completed; transfers and payments cancel. */
  lemma Conservation(db: Db)
    requires Inv(db)
    ensures Total(Balances(db.wallets)) + Sum(db.txns, Held) == Sum(Inflows(db), Itself) - Sum(db.txns, PaidOut)
  {
    GroupByTxn(db.ledger, |db.txns|, Signed);
    SumDifference(db, |db.txns|);
    assert db.txns[..|db.txns|] == db.txns;
    assert Inflows(db)[..|db.txns|] == Inflows(db);
    assert Grouped(db.ledger, |db.txns|, Signed)[..|db.txns|] == Grouped(db.ledger, |db.txns|, Signed);
  }

  lemma {:induction false} SumDifference(db: Db, n: nat)
    requires Inv(db) && n <= |db.txns|
    ensures Sum(Grouped(db.ledger, |db.txns|, Signed)[..n], Itself) ==
            Sum(Inflows(db)[..n], Itself) - Sum(db.txns[..n], PaidOut)
  {
    if n != 0 {
      SumDifference(db, n - 1);
      SumPrefix(Grouped(db.ledger, |db.txns|, Signed), n - 1, Itself);
      SumPrefix(Inflows(db), n - 1, Itself);
      SumPrefix(db.txns, n - 1, PaidOut);
      NetPosted(db, n - 1);
    }
  }

  /** What one transaction's postings add up to. */
  lemma NetPosted(db: Db, id: TxnId)
    requires Inv(db) && id < |db.txns|
    ensures Sum(Postings(db.ledger, id), Signed) == Credited(db, id) - PaidOut(db.txns[id])
    ensures 0 <= Credited(db, id)
  {
    var t, posted := db.txns[id], Postings(db.ledger, id);
    assert TxnOk(db.wallets, t) && PostingsMatch(t, Strip(posted));
    assert |Strip(posted)| == |posted| <= 2;
    SumOfFew(posted, Signed);
    if posted != [] {
      assert Strip(posted)[0] == Posting(posted[0].wallet, posted[0].side, posted[0].amount);
    }
    if |posted| == 2 {
      assert Strip(posted)[1] == Posting(posted[1].wallet, posted[1].side, posted[1].amount);
    }
  }
}
