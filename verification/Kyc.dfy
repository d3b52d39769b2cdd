/** KYC submissions and the tier they grant. */
module Kyc {
  import opened Options
  import opened Records
  import opened Sessions

  datatype KycError = TierSkip | SubmissionPending | AlreadyApproved | AlreadyRejected | NotReviewable | OwnSubmission | NotStored | Missing

  /** The submission that blocks another one for the same tier. */
  function ActiveFor(user: UserId, tier: int): Submission -> bool {
    (s: Submission) => s.user == user && s.tier == tier && s.status != Rejected
  }

  function SubmitError(db: Db, user: UserId, tier: int): Option<KycError> {
    if user !in db.users then Some(Missing)
    else if db.users[user].tier != tier - 1 then Some(TierSkip)
    else
      var existing := First(db.submissions, ActiveFor(user, tier));
      if existing.None? then None
      else if db.submissions[existing.value].status == UnderReview then Some(SubmissionPending)
      else Some(AlreadyApproved)
  }

  function Submitted(db: Db, user: UserId, tier: int): Db {
    if SubmitError(db, user, tier).Some? then db
    else db.(submissions := db.submissions + [Submission(user, tier, UnderReview)])
  }

  function ApproveError(db: Db, id: nat, reviewer: UserId): Option<KycError> {
    if id >= |db.submissions| then Some(Missing)
    else
      var s := db.submissions[id];
      if s.status == Approved then Some(AlreadyApproved)
      else if s.status == Rejected then Some(AlreadyRejected)
      else if reviewer == s.user then Some(OwnSubmission)
      else if s.user !in db.users then Some(Missing)
      else None
  }

  function WithSubmission(db: Db, id: nat, status: KycStatus): Db
    requires id < |db.submissions|
  {
    db.(submissions := db.submissions[id := db.submissions[id].(status := status)])
  }

  function WithTier(db: Db, user: UserId, tier: nat): Db
    requires user in db.users
  {
    db.(users := db.users[user := db.users[user].(tier := tier)])
  }

  function ApprovedBy(db: Db, id: nat, reviewer: UserId): Db {
    if ApproveError(db, id, reviewer).Some? then db
    else WithTier(WithSubmission(db, id, Approved), db.submissions[id].user, db.submissions[id].tier)
  }

  function RejectError(db: Db, id: nat, reviewer: UserId): Option<KycError> {
    if id >= |db.submissions| then Some(Missing)
    else if db.submissions[id].status != UnderReview then Some(NotReviewable)
    else if reviewer == db.submissions[id].user then Some(OwnSubmission)
    else None
  }

  function RejectedBy(db: Db, id: nat, reviewer: UserId): Db {
    if RejectError(db, id, reviewer).Some? then db else WithSubmission(db, id, Rejected)
  }

  // ---- The invariant ------------------------------------------------------------

  ghost predicate HasApproved(submissions: seq<Submission>, user: UserId, tier: nat) {
    exists s :: s in submissions && s == Submission(user, tier, Approved)
  }

  ghost predicate OneLivePerTier(submissions: seq<Submission>) {
    forall i, j :: 0 <= i < j < |submissions| && submissions[i].status != Rejected && submissions[j].status != Rejected ==>
      (submissions[i].user, submissions[i].tier) != (submissions[j].user, submissions[j].tier)
  }

  ghost predicate PendingAskNextTier(db: Db) {
    forall s :: s in db.submissions ==>
      s.user in db.users && (s.status == UnderReview ==> s.tier == db.users[s.user].tier + 1)
  }

  ghost predicate ApprovedAreTiers(db: Db) {
    forall user: UserId, tier: nat :: user in db.users ==>
      (HasApproved(db.submissions, user, tier) <==> 1 <= tier <= db.users[user].tier)
  }

  ghost predicate KycOk(db: Db) {
    OneLivePerTier(db.submissions) && PendingAskNextTier(db) && ApprovedAreTiers(db)
  }

  lemma SubmitKeepsKyc(db: Db, user: UserId, tier: int)
    requires KycOk(db)
    ensures KycOk(Submitted(db, user, tier))
  {
    if SubmitError(db, user, tier).None? {
      var next := Submitted(db, user, tier);
      var added := Submission(user, tier, UnderReview);
      forall i | 0 <= i < |db.submissions| && db.submissions[i].status != Rejected
        ensures (db.submissions[i].user, db.submissions[i].tier) != (user, tier)
      {
        assert !ActiveFor(user, tier)(db.submissions[i]);
      }
      forall u: UserId, t: nat | u in db.users
        ensures HasApproved(next.submissions, u, t) <==> HasApproved(db.submissions, u, t)
      {
        assert forall s :: s in next.submissions <==> s in db.submissions || s == added;
      }
    }
  }

  /** Updating one row changes only whether that row's value is present. */
  lemma SameElsewhere(submissions: seq<Submission>, id: nat, row: Submission, s: Submission)
    requires id < |submissions| && submissions[id] != s
    ensures s in submissions[id := row] <==> s in submissions || s == row
  {
    var next := submissions[id := row];
    if s in submissions {
      var i :| 0 <= i < |submissions| && submissions[i] == s;
      assert next[i] == s;
    }
    assert next[id] == row;
  }

  lemma ApprovalKeepsOthers(db: Db, id: nat, reviewer: UserId, user: UserId, tier: nat)
    requires KycOk(db) && ApproveError(db, id, reviewer).None? && user in db.users
    ensures HasApproved(ApprovedBy(db, id, reviewer).submissions, user, tier) <==>
      HasApproved(db.submissions, user, tier) || (user, tier) == (db.submissions[id].user, db.submissions[id].tier)
  {
    var next := ApprovedBy(db, id, reviewer).submissions;
    var s := Submission(user, tier, Approved);
    SameElsewhere(db.submissions, id, next[id], s);
    assert next[id] in next;
  }

  /** Approval raises the user's tier by exactly one. */
  lemma ApprovalRaisesByOne(db: Db, id: nat, reviewer: UserId)
    requires KycOk(db) && ApproveError(db, id, reviewer).None?
    ensures var user := db.submissions[id].user; var next := ApprovedBy(db, id, reviewer);
      && user in db.users && next.users == db.users[user := db.users[user].(tier := db.users[user].tier + 1)]
  {
    assert db.submissions[id] in db.submissions;
  }

  lemma ApproveKeepsKyc(db: Db, id: nat, reviewer: UserId)
    requires KycOk(db)
    ensures KycOk(ApprovedBy(db, id, reviewer))
  {
    if ApproveError(db, id, reviewer).None? {
      var next := ApprovedBy(db, id, reviewer);
      ApprovalRaisesByOne(db, id, reviewer);
      forall s | s in next.submissions
        ensures s.user in next.users && (s.status == UnderReview ==> s.tier == next.users[s.user].tier + 1)
      {
        var i :| 0 <= i < |next.submissions| && next.submissions[i] == s;
        assert db.submissions[i] in db.submissions;
        if i != id && s.status == UnderReview && s.user == db.submissions[id].user {
          assert false;
        }
      }
      forall user: UserId, tier: nat | user in next.users
        ensures HasApproved(next.submissions, user, tier) <==> 1 <= tier <= next.users[user].tier
      {
        ApprovalKeepsOthers(db, id, reviewer, user, tier);
      }
    }
  }

  lemma RejectKeepsKyc(db: Db, id: nat, reviewer: UserId)
    requires KycOk(db)
    ensures KycOk(RejectedBy(db, id, reviewer))
  {
    if RejectError(db, id, reviewer).None? {
      var next := RejectedBy(db, id, reviewer);
      forall i | 0 <= i < |next.submissions| ensures i == id || next.submissions[i] in db.submissions {
      }
      forall s | s in next.submissions
        ensures s.user in next.users && (s.status == UnderReview ==> s.tier == next.users[s.user].tier + 1)
      {
        assert db.submissions[id] in db.submissions;
      }
      forall user: UserId, tier: nat | user in next.users
        ensures HasApproved(next.submissions, user, tier) <==> HasApproved(db.submissions, user, tier)
      {
        SameElsewhere(db.submissions, id, next.submissions[id], Submission(user, tier, Approved));
      }
    }
  }

  // ---- The service -------------------------------------------------------------

  class KycService {
    const session: Session

    constructor (session: Session)
      ensures this.session == session
    {
      this.session := session;
    }

    /** `stored` says whether the upload of the document went through. */
    method SubmitKyc(user: UserId, tier: int, stored: bool) returns (error: Option<KycError>)
      requires session.rows == session.db
      modifies session
      ensures session.rows == session.db
      ensures stored ==> session.db == Submitted(old(session.db), user, tier) && error == SubmitError(old(session.db), user, tier)
      ensures !stored ==> session.db == old(session.db)
      ensures !stored ==> error == var e := SubmitError(old(session.db), user, tier); if e.Some? then e else Some(NotStored)
    {
      if user !in session.rows.users {
        return Some(Missing);
      }
      if session.rows.users[user].tier != tier - 1 {
        return Some(TierSkip);
      }
      var existing := First(session.rows.submissions, ActiveFor(user, tier));
      if existing.Some? {
        if session.rows.submissions[existing.value].status == UnderReview {
          return Some(SubmissionPending);
        }
        return Some(AlreadyApproved);
      }
      if !stored {
        return Some(NotStored);
      }
      session.rows := session.rows.(submissions := session.rows.submissions + [Submission(user, tier, UnderReview)]);
      session.Commit();
      return None;
    }

    method ApproveKyc(id: nat, reviewer: UserId) returns (error: Option<KycError>)
      requires session.rows == session.db
      modifies session
      ensures session.rows == session.db
      ensures session.db == ApprovedBy(old(session.db), id, reviewer) && error == ApproveError(old(session.db), id, reviewer)
    {
      if id >= |session.rows.submissions| {
        return Some(Missing);
      }
      var s := session.rows.submissions[id];
      if s.status == Approved {
        return Some(AlreadyApproved);
      }
      if s.status == Rejected {
        return Some(AlreadyRejected);
      }
      if reviewer == s.user {
        return Some(OwnSubmission);
      }
      session.rows := session.rows.(submissions := session.rows.submissions[id := s.(status := Approved)]);
      if s.user !in session.rows.users {
        session.Rollback();
        return Some(Missing);
      }
      session.rows := session.rows.(users := session.rows.users[s.user := session.rows.users[s.user].(tier := s.tier)]);
      session.Commit();
      return None;
    }

    method RejectKyc(id: nat, reviewer: UserId) returns (error: Option<KycError>)
      requires session.rows == session.db
      modifies session
      ensures session.rows == session.db
      ensures session.db == RejectedBy(old(session.db), id, reviewer) && error == RejectError(old(session.db), id, reviewer)
    {
      if id >= |session.rows.submissions| {
        return Some(Missing);
      }
      var s := session.rows.submissions[id];
      if s.status != UnderReview {
        return Some(NotReviewable);
      }
      if reviewer == s.user {
        return Some(OwnSubmission);
      }
      session.rows := session.rows.(submissions := session.rows.submissions[id := s.(status := Rejected)]);
      session.Commit();
      return None;
    }
  }
}
