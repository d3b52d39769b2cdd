/** A database session and the repositories' writes through it: rows are read and
    changed in the session's own view, and reach the database only on commit. */
module Sessions {
  import opened Options
  import opened Records
  import opened Effects
  import opened Ledger
  import opened Decisions

  class Session {
    /** Committed rows. */
    var db: Db
    /** Rows as this session sees them: the committed ones and its flushed writes. */
    var rows: Db

    /** A session with nothing pending. */
    ghost predicate Clean()
      reads this
    {
      rows == db && RowsOk(db) && Wired(db)
    }

    constructor (db: Db)
      requires RowsOk(db) && Wired(db)
      ensures this.db == db && Clean()
    {
      this.db := db;
      this.rows := db;
    }

    method Commit()
      modifies this
      ensures db == old(rows) && rows == old(rows)
    {
      db := rows;
    }

    method Rollback()
      modifies this`rows
      ensures rows == db
    {
      rows := db;
    }

    // ---- Repositories ---------------------------------------------------------

    /** The row read under the lock is the current row; None when there is no such wallet. */
    method LockForUpdate(id: WalletId) returns (row: Option<Wallet>)
      ensures row == if id in rows.wallets then Some(rows.wallets[id]) else None
    {
      row := if id in rows.wallets then Some(rows.wallets[id]) else None;
    }

    method UpdateBalance(id: WalletId, balance: int)
      requires id in rows.wallets
      modifies this`rows
      ensures rows == old(rows).(wallets := WithBalance(old(rows).wallets, id, balance))
    {
      rows := rows.(wallets := rows.wallets[id := rows.wallets[id].(balance := balance)]);
    }

    /** False when the insert violates a UNIQUE column. */
    method CreateTxn(t: Txn) returns (ok: bool)
      modifies this`rows
      ensures ok <==> Fresh(old(rows).txns, t.reference, t.key)
      ensures rows == if ok then old(rows).(txns := old(rows).txns + [t]) else old(rows)
    {
      ok := Fresh(rows.txns, t.reference, t.key);
      if ok {
        rows := rows.(txns := rows.txns + [t]);
      }
    }

    /** False when the state machine forbids the transition. */
    method UpdateStatus(id: TxnId, status: Status) returns (ok: bool)
      requires id < |rows.txns|
      modifies this`rows
      ensures ok <==> status in ValidTransitions(old(rows).txns[id].status)
      ensures rows == if ok then old(rows).(txns := WithStatus(old(rows).txns, id, status)) else old(rows)
    {
      ok := status in ValidTransitions(rows.txns[id].status);
      if ok {
        rows := rows.(txns := rows.txns[id := rows.txns[id].(status := status)]);
      }
    }

    method CreateEntry(e: Entry)
      modifies this`rows
      ensures rows == old(rows).(ledger := old(rows).ledger + [e])
    {
      rows := rows.(ledger := rows.ledger + [e]);
    }

    method PostDoubleEntry(txn: TxnId, debited: WalletId, credited: WalletId, amount: int, debitedAfter: int, creditedAfter: int)
      modifies this`rows
      ensures rows == old(rows).(ledger := old(rows).ledger +
        [Entry(txn, debited, Debit, amount, debitedAfter), Entry(txn, credited, Credit, amount, creditedAfter)])
    {
      CreateEntry(Entry(txn, debited, Debit, amount, debitedAfter));
      CreateEntry(Entry(txn, credited, Credit, amount, creditedAfter));
      assert rows.ledger == old(rows).ledger +
        [Entry(txn, debited, Debit, amount, debitedAfter), Entry(txn, credited, Credit, amount, creditedAfter)];
    }
  }
}
