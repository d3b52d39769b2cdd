/** Outgoing merchant webhooks: the retry state machine of a delivery row. */
module WebhookRetries {
  import opened Options

  const RETRY_DELAYS_MINUTES := [0, 2, 4, 8, 16, 32]
  const MAX_ATTEMPTS := |RETRY_DELAYS_MINUTES|
  const SWEEP_LIMIT := 100

  datatype DeliveryStatus = Waiting | Delivered | GivenUp
  datatype Row = Row(status: DeliveryStatus, attempts: nat, nextRetryAt: Option<nat>)

  const NEW_ROW := Row(Waiting, 0, None)

  /** One task run: when it happens, whether the merchant has a URL, whether the POST succeeds. */
  datatype TaskRun = TaskRun(now: nat, hasUrl: bool, succeeds: bool)

  function Power2(n: nat): nat { if n == 0 then 1 else 2 * Power2(n - 1) }

  function After(d: Row, run: TaskRun): Row {
    if d.status == Delivered then d
    else if !run.hasUrl then d.(status := GivenUp)
    else if run.succeeds then Row(Delivered, d.attempts + 1, None)
    else if d.attempts + 1 >= MAX_ATTEMPTS then Row(GivenUp, d.attempts + 1, None)
    else d.(attempts := d.attempts + 1, nextRetryAt := Some(run.now + 60 * RETRY_DELAYS_MINUTES[d.attempts + 1]))
  }

  function AfterAll(d: Row, runs: seq<TaskRun>): Row {
    if runs == [] then d else After(AfterAll(d, runs[..|runs| - 1]), runs[|runs| - 1])
  }

  /** A waiting row has attempts left; once it has failed it carries the time of its next try. */
  predicate RowOk(d: Row) {
    d.status == Waiting ==> d.attempts < MAX_ATTEMPTS && (d.nextRetryAt.None? <==> d.attempts == 0)
  }

  lemma DelaysDouble(n: nat)
    requires 1 <= n < MAX_ATTEMPTS
    ensures RETRY_DELAYS_MINUTES[n] == Power2(n)
  {
    assert Power2(1) == 2 && Power2(2) == 4 && Power2(3) == 8;
    assert Power2(4) == 16 && Power2(5) == 2 * Power2(4);
  }

  /** Over any task runs: the row stays well formed, attempts never decrease, DELIVERED
      stays, and a row left waiting by its n-th failure is due 2^n minutes after it. */
  lemma {:induction false} RetryHistory(d: Row, runs: seq<TaskRun>)
    requires RowOk(d)
    ensures var e := AfterAll(d, runs);
      && RowOk(e) && d.attempts <= e.attempts
      && (d.status == Delivered ==> e == d)
      && (runs != [] && e.status == Waiting ==>
            e.attempts == d.attempts + |runs| && e.nextRetryAt == Some(runs[|runs| - 1].now + 60 * Power2(e.attempts)))
    decreases |runs|
  {
    if runs != [] {
      RetryHistory(d, runs[..|runs| - 1]);
      var e := AfterAll(d, runs);
      if e.status == Waiting {
        DelaysDouble(e.attempts);
      }
    }
  }

  /** Exactly when a waiting row still waits: every run found a URL and failed, and fewer
      than six attempts have been made. */
  lemma {:induction false} WaitsIff(d: Row, runs: seq<TaskRun>)
    requires RowOk(d) && d.status == Waiting
    ensures AfterAll(d, runs).status == Waiting <==>
      d.attempts + |runs| < 6 && forall i :: 0 <= i < |runs| ==> runs[i].hasUrl && !runs[i].succeeds
    decreases |runs|
  {
    if runs != [] {
      var front, last := runs[..|runs| - 1], runs[|runs| - 1];
      WaitsIff(d, front);
      RetryHistory(d, front);
      assert forall i :: 0 <= i < |front| ==> front[i] == runs[i];
      assert AfterAll(d, runs) == After(AfterAll(d, front), last);
      if AfterAll(d, front).status != Waiting {
        assert After(AfterAll(d, front), last).status != Waiting;
      } else if front == [] {
        assert AfterAll(d, front) == d;
      }
    }
  }

  /** Every POST is counted, the one that succeeds included. */
  lemma {:induction false} AttemptsAreCounted(d: Row, runs: seq<TaskRun>)
    requires d.status != Delivered
    requires forall i :: 0 <= i < |runs| ==> runs[i].hasUrl && (i < |runs| - 1 ==> !runs[i].succeeds)
    ensures AfterAll(d, runs).attempts == d.attempts + |runs|
    decreases |runs|
  {
    if runs != [] {
      var front := runs[..|runs| - 1];
      AttemptsAreCounted(d, front);
      GivenUpCanDeliver(d, front);
      assert forall i :: 0 <= i < |front| ==> front[i] == runs[i];
    }
  }

  /** A row leaves the waiting state within as many task runs as it has attempts left. */
  lemma RetriesRunOut(d: Row, runs: seq<TaskRun>)
    requires RowOk(d) && MAX_ATTEMPTS - d.attempts <= |runs| && runs != []
    ensures AfterAll(d, runs).status != Waiting
  {
    RetryHistory(d, runs);
  }

  /** Given up is not final: whatever its status and its attempts, a row that is not yet
      delivered ends DELIVERED exactly when one of its later runs finds a URL and succeeds. */
  lemma {:induction false} GivenUpCanDeliver(d: Row, runs: seq<TaskRun>)
    requires d.status != Delivered
    ensures AfterAll(d, runs).status == Delivered <==> exists i :: 0 <= i < |runs| && runs[i].hasUrl && runs[i].succeeds
    decreases |runs|
  {
    if runs != [] {
      var front := runs[..|runs| - 1];
      GivenUpCanDeliver(d, front);
      if AfterAll(d, front).status == Delivered {
        var i :| 0 <= i < |front| && front[i].hasUrl && front[i].succeeds;
        assert runs[i] == front[i];
      }
    }
  }

  predicate Due(d: Row, now: nat) {
    d.status == Waiting && d.nextRetryAt.Some? && d.nextRetryAt.value <= now
  }

  /** The sweep picks up a row left waiting by its n-th failure from 2^n minutes after that
      failure on, and not before. */
  lemma DueAfterDelay(d: Row, runs: seq<TaskRun>, now: nat)
    requires RowOk(d) && runs != [] && AfterAll(d, runs).status == Waiting
    ensures Due(AfterAll(d, runs), now) <==> runs[|runs| - 1].now + 60 * Power2(AfterAll(d, runs).attempts) <= now
  {
    RetryHistory(d, runs);
  }

  /** The sweep can ever pick up a waiting row exactly when some run of it has failed: a
      row whose first task was never enqueued is passed over at every time. */
  lemma SweptIffTried(d: Row)
    requires RowOk(d) && d.status == Waiting
    ensures (exists now: nat :: Due(d, now)) <==> 0 < d.attempts
  {
    if d.nextRetryAt.Some? {
      assert Due(d, d.nextRetryAt.value);
    }
  }

  /** So the promise that the sweep finds deliveries that failed to enqueue does not hold. */
  lemma UnenqueuedIsNeverSwept(now: nat)
    ensures NEW_ROW.status == Waiting && !Due(NEW_ROW, now)
  {
  }

  class DeliveryTask {
    var status: DeliveryStatus
    var attempts: nat
    var nextRetryAt: Option<nat>

    function AsRow(): Row
      reads this
    {
      Row(status, attempts, nextRetryAt)
    }

    constructor ()
      ensures AsRow() == NEW_ROW
    {
      status, attempts, nextRetryAt := Waiting, 0, None;
    }

    method Deliver(now: nat, hasUrl: bool, succeeds: bool)
      modifies this
      ensures AsRow() == After(old(AsRow()), TaskRun(now, hasUrl, succeeds))
    {
      if status == Delivered {
        return;
      }
      if !hasUrl {
        status := GivenUp;
        return;
      }
      var attempt := attempts + 1;
      if succeeds {
        status := Delivered;
        attempts := attempt;
        nextRetryAt := None;
        return;
      }
      if attempt >= MAX_ATTEMPTS {
        status := GivenUp;
        attempts := attempt;
        nextRetryAt := None;
      } else {
        attempts := attempt;
        nextRetryAt := Some(now + 60 * RETRY_DELAYS_MINUTES[attempt]);
      }
    }
  }

  /** The sweep: at most the limit of due rows, each once and each really due; all of
      them when they are fewer than the limit. */
  method RetryPending(rows: seq<Row>, now: nat) returns (enqueued: seq<nat>)
    ensures |enqueued| <= SWEEP_LIMIT
    ensures forall i :: 0 <= i < |enqueued| ==> enqueued[i] < |rows| && Due(rows[enqueued[i]], now)
    ensures forall i, j :: 0 <= i < j < |enqueued| ==> enqueued[i] < enqueued[j]
    ensures |enqueued| < SWEEP_LIMIT ==> forall k :: 0 <= k < |rows| && Due(rows[k], now) ==> k in enqueued
  {
    enqueued := [];
    var n := 0;
    while n < |rows| && |enqueued| < SWEEP_LIMIT
      invariant n <= |rows| && |enqueued| <= SWEEP_LIMIT
      invariant forall i :: 0 <= i < |enqueued| ==> enqueued[i] < n && Due(rows[enqueued[i]], now)
      invariant forall i, j :: 0 <= i < j < |enqueued| ==> enqueued[i] < enqueued[j]
      invariant forall k :: 0 <= k < n && Due(rows[k], now) ==> k in enqueued
    {
      if Due(rows[n], now) {
        enqueued := enqueued + [n];
      }
      n := n + 1;
    }
  }
}
