/** Bank accounts, their default flag, and the guard against deleting the account
    an active withdrawal pays to. */
module BankAccounts {
  import opened Options
  import opened Records
  import opened Fraud
  import opened Decisions
  import opened Guards
  import opened Sessions

  function LiveOf(owner: UserId): Account -> bool { (a: Account) => a.owner == owner && !a.deleted }

  function Added(accounts: seq<Account>, owner: UserId): seq<Account> {
    accounts + [Account(owner, First(accounts, LiveOf(owner)).None?, false, "")]
  }

  /** The bulk UPDATE that clears the flag on a user's live accounts. */
  function Cleared(accounts: seq<Account>, owner: UserId): (cleared: seq<Account>)
    ensures |cleared| == |accounts|
    ensures forall i :: 0 <= i < |accounts| ==>
      cleared[i] == accounts[i].(isDefault := accounts[i].isDefault && !LiveOf(owner)(accounts[i]))
  {
    seq(|accounts|, i requires 0 <= i < |accounts| =>
      if LiveOf(owner)(accounts[i]) then accounts[i].(isDefault := false) else accounts[i])
  }

  function MadeDefault(accounts: seq<Account>, id: AccountId): seq<Account>
    requires id < |accounts|
  {
    Cleared(accounts, accounts[id].owner)[id := accounts[id].(isDefault := true)]
  }

  function Deleted(accounts: seq<Account>, id: AccountId): seq<Account>
    requires id < |accounts|
  {
    var gone := accounts[id := accounts[id].(deleted := true, isDefault := false)];
    if !accounts[id].isDefault then gone
    else
      var oldest := First(gone, LiveOf(accounts[id].owner));
      if oldest.None? then gone else gone[oldest.value := gone[oldest.value].(isDefault := true)]
  }

  /** None: the account may go. */
  function RemoveError(db: Db, user: UserId, id: AccountId): Option<Error> {
    var row := LiveAccount(db, id);
    if row.None? || row.value.owner != user then Some(NotFound)
    else
      var active := ActiveWithdrawal(db, user);
      if active.ManyRows? then Some(MultipleRows)
      else if active.OneRow? && db.txns[active.id].account == Some(id) then Some(Forbidden)
      else None
  }

  function AccountRemoved(db: Db, user: UserId, id: AccountId): Db {
    if RemoveError(db, user, id).Some? then db else db.(accounts := Deleted(db.accounts, id))
  }

  // ---- The invariant ------------------------------------------------------------

  predicate LiveDefault(a: Account, owner: UserId) { a.owner == owner && !a.deleted && a.isDefault }

  ghost predicate HasDefault(accounts: seq<Account>, owner: UserId) {
    exists i :: 0 <= i < |accounts| && LiveDefault(accounts[i], owner)
  }

  /** No deleted default; at most one default per user; one whenever the user has an account. */
  ghost predicate DefaultsOk(accounts: seq<Account>) {
    && (forall a :: a in accounts && a.deleted ==> !a.isDefault)
    && (forall i, j :: 0 <= i < j < |accounts| && accounts[i].isDefault && accounts[j].isDefault ==>
          accounts[i].owner != accounts[j].owner)
    && (forall i :: 0 <= i < |accounts| && !accounts[i].deleted ==> HasDefault(accounts, accounts[i].owner))
  }

  lemma AddKeepsDefaults(accounts: seq<Account>, owner: UserId)
    requires DefaultsOk(accounts)
    ensures DefaultsOk(Added(accounts, owner))
  {
    var next := Added(accounts, owner);
    forall i | 0 <= i < |accounts| && accounts[i].isDefault && next[|accounts|].isDefault
      ensures accounts[i].owner != owner
    {
      assert accounts[i] in accounts;
      assert !LiveOf(owner)(accounts[i]);
    }
    forall i | 0 <= i < |next| && !next[i].deleted ensures HasDefault(next, next[i].owner) {
      if i < |accounts| {
        DefaultStays(accounts, next, next[i].owner);
      } else if !next[i].isDefault {
        DefaultStays(accounts, next, owner);
      }
    }
  }

  lemma DefaultStays(accounts: seq<Account>, next: seq<Account>, owner: UserId)
    requires accounts <= next && HasDefault(accounts, owner)
    ensures HasDefault(next, owner)
  {
    var i :| 0 <= i < |accounts| && LiveDefault(accounts[i], owner);
    assert LiveDefault(next[i], owner);
  }

  lemma SetDefaultKeepsDefaults(accounts: seq<Account>, id: AccountId)
    requires DefaultsOk(accounts) && id < |accounts| && !accounts[id].deleted
    ensures DefaultsOk(MadeDefault(accounts, id))
    ensures LiveDefault(MadeDefault(accounts, id)[id], accounts[id].owner)
  {
    var next := MadeDefault(accounts, id);
    forall a | a in next && a.deleted ensures !a.isDefault {
      var i :| 0 <= i < |next| && next[i] == a;
      assert accounts[i] in accounts;
    }
    forall i | 0 <= i < |next| && next[i].isDefault && i != id ensures next[i].owner != accounts[id].owner {
      assert accounts[i] in accounts;
    }
    forall i | 0 <= i < |next| && !next[i].deleted ensures HasDefault(next, next[i].owner) {
      if next[i].owner == accounts[id].owner {
        assert LiveDefault(next[id], next[i].owner);
      } else {
        var j :| 0 <= j < |accounts| && LiveDefault(accounts[j], next[i].owner);
        assert LiveDefault(next[j], next[i].owner);
      }
    }
  }

  /** Row i is the oldest live account of the same user other than `id`. */
  ghost predicate OldestOther(accounts: seq<Account>, id: AccountId, i: nat)
    requires id < |accounts|
  {
    && i < |accounts| && i != id && LiveOf(accounts[id].owner)(accounts[i])
    && forall k :: 0 <= k < i && k != id ==> !LiveOf(accounts[id].owner)(accounts[k])
  }

  /** Deleting keeps the invariant; deleting the default promotes the oldest account left. */
  lemma DeleteKeepsDefaults(accounts: seq<Account>, id: AccountId)
    requires DefaultsOk(accounts) && id < |accounts| && !accounts[id].deleted
    ensures DefaultsOk(Deleted(accounts, id))
    ensures accounts[id].isDefault ==>
      (forall i: nat :: OldestOther(accounts, id, i) ==> LiveDefault(Deleted(accounts, id)[i], accounts[id].owner))
  {
    var next, owner := Deleted(accounts, id), accounts[id].owner;
    var gone := accounts[id := accounts[id].(deleted := true, isDefault := false)];
    var oldest := First(gone, LiveOf(owner));
    assert |next| == |accounts|;
    forall a | a in next && a.deleted ensures !a.isDefault {
      var i :| 0 <= i < |next| && next[i] == a;
      assert accounts[i] in accounts;
    }
    forall i | 0 <= i < |next| && !next[i].deleted ensures HasDefault(next, next[i].owner) {
      if next[i].owner == owner && accounts[id].isDefault {
        assert LiveOf(owner)(gone[i]);
        assert LiveDefault(next[oldest.value], owner);
      } else {
        var j :| 0 <= j < |accounts| && LiveDefault(accounts[j], next[i].owner);
        assert LiveDefault(next[j], next[i].owner);
      }
    }
    if accounts[id].isDefault {
      forall i: nat | OldestOther(accounts, id, i) ensures LiveDefault(next[i], owner) {
        assert LiveOf(owner)(gone[i]);
        assert oldest.value == i;
      }
    }
  }

  /** The account an active withdrawal pays to is never deleted under it. */
  lemma RemoveKeepsPayoutAccounts(db: Db, user: UserId, id: AccountId)
    requires Guarded(db)
    ensures PayoutAccounts(AccountRemoved(db, user, id))
  {
    var next := AccountRemoved(db, user, id);
    if RemoveError(db, user, id).None? {
      forall t | t in next.txns && Active(t) ensures PaysTo(next, t) {
        assert PaysTo(db, t);
        if t.account == Some(id) {
          var i :| 0 <= i < |db.txns| && db.txns[i] == t;
          OnlyMatch(db.txns, ActiveOf(user), i);
          assert false;
        }
      }
    }
  }

  // ---- The service ---------------------------------------------------------------

  class BankAccountService {
    const session: Session

    constructor (session: Session)
      ensures this.session == session
    {
      this.session := session;
    }

    method AddBankAccount(user: UserId)
      requires session.rows == session.db
      modifies session
      ensures session.rows == session.db
      ensures session.db == old(session.db).(accounts := Added(old(session.db).accounts, user))
    {
      var isDefault := First(session.rows.accounts, LiveOf(user)).None?;
      session.rows := session.rows.(accounts := session.rows.accounts + [Account(user, isDefault, false, "")]);
      session.Commit();
    }

    method SetFlag(id: AccountId, isDefault: bool)
      requires id < |session.rows.accounts|
      modifies session`rows
      ensures session.rows == old(session.rows).(
        accounts := old(session.rows).accounts[id := old(session.rows).accounts[id].(isDefault := isDefault)])
    {
      session.rows := session.rows.(
        accounts := session.rows.accounts[id := session.rows.accounts[id].(isDefault := isDefault)]);
    }

    method SetDefault(id: AccountId)
      requires session.rows == session.db && LiveAccount(session.db, id).Some?
      modifies session
      ensures session.rows == session.db
      ensures session.db == old(session.db).(accounts := MadeDefault(old(session.db).accounts, id))
    {
      session.rows := session.rows.(accounts := Cleared(session.rows.accounts, session.rows.accounts[id].owner));
      SetFlag(id, true);
      session.Commit();
    }

    method SoftDelete(id: AccountId)
      requires LiveAccount(session.rows, id).Some?
      modifies session`rows
      ensures session.rows == old(session.rows).(accounts := Deleted(old(session.rows).accounts, id))
    {
      var account := session.rows.accounts[id];
      session.rows := session.rows.(accounts := session.rows.accounts[id := account.(deleted := true)]);
      if account.isDefault {
        SetFlag(id, false);
        var remaining := First(session.rows.accounts, LiveOf(account.owner));
        assert session.rows.accounts == old(session.rows).accounts[id := account.(deleted := true, isDefault := false)];
        if remaining.Some? {
          SetFlag(remaining.value, true);
        }
      } else {
        assert account.(deleted := true) == account.(deleted := true, isDefault := false);
      }
    }

    method RemoveBankAccount(user: UserId, id: AccountId) returns (error: Option<Error>)
      requires session.rows == session.db
      modifies session
      ensures session.rows == session.db
      ensures session.db == AccountRemoved(old(session.db), user, id) && error == RemoveError(old(session.db), user, id)
    {
      var row := LiveAccount(session.rows, id);
      if row.None? || row.value.owner != user {
        return Some(NotFound);
      }
      var active := ScalarOneOrNone(session.rows.txns, ActiveOf(user));
      if active.ManyRows? {
        return Some(MultipleRows);
      }
      if active.OneRow? && session.rows.txns[active.id].account == Some(id) {
        return Some(Forbidden);
      }
      SoftDelete(id);
      session.Commit();
      return None;
    }
  }
}
