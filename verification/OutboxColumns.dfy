/**
 What every column of a row says, over every run. The invariants of the outbox constrain status, attempts and leases;
 here each column is read off the row's history: when it was last touched, when it is due, which error it shows, when
 and why it was given up. The results are stated in columns, times and error codes alone.
 */
module OutboxColumns {

  import opened Wrappers
  import opened OutboxTable
  import opened OutboxMachine
  import opened OutboxHistory
  import opened OutboxInvariants
  import opened OutboxStream
  import opened OutboxTheorems
  import opened RetryPolicy
  import Event

  // ---------- Invariant ----------

  /** The latest failure in a history. */
  function LatestFailure(log: Log): (f: Option<Fact>)
    ensures f.Some? ==> f.value.Failed?
  {
    if log == [] then None
    else if log[|log| - 1].Failed? then Some(log[|log| - 1])
    else LatestFailure(log[..|log| - 1])
  }

  predicate Completes(log: Log) {
    log != [] && log[|log| - 1].Completed?
  }

  /** The columns that OutboxInvariants.Matches leaves open. */
  predicate Follows(row: Row, log: Log) {
    var failure := LatestFailure(log);
    && row.nextAttemptAt == (if failure.None? then row.createdAt else failure.value.next)
    && row.updatedAt == (if log == [] then row.createdAt else log[|log| - 1].at)
    && row.lastErrorCode ==
         (if failure.None? || Completes(log) then None else Some(ErrorCode(failure.value.kind)))
    && (row.publishedAt.Some? ==> log != [] && row.publishedAt.value == log[|log| - 1].at)
    && (row.deadLetteredAt.Some? ==> log != [] && row.deadLetteredAt.value == log[|log| - 1].at)
  }

  /** Every failure was reported for a claim that was made. */
  predicate ForClaims(log: Log) {
    forall i :: 0 <= i < |log| && log[i].Failed? ==> log[i].claimed >= 1
  }

  predicate ColumnsOk(s: State) {
    forall id :: id in s.rows && id in s.logs ==> Follows(s.rows[id], s.logs[id]) && ForClaims(s.logs[id])
  }

  // ---------- Steps ----------

  lemma FollowsClaim(c: Setup, now: Time, row: Row, log: Log, l: Loop, lease: int, f: Fact)
    requires RowOk(c, now, row, log) && Follows(row, log) && Eligible(row, now)
    requires f.Leased? && f.at == now
    ensures Follows(ClaimRow(row, c.own(l), now, lease), log + [f])
  {
    assert (log + [f])[..|log|] == log;
  }

  lemma FollowsCompletion(c: Setup, now: Time, row: Row, log: Log, f: Fact)
    requires RowOk(c, now, row, log) && Follows(row, log) && row.status.Publishing?
    requires f.Completed? && f.at == now
    ensures Follows(CompleteRow(row, now), log + [f])
  {
    assert (log + [f])[..|log|] == log;
  }

  lemma FollowsFailure(c: Setup, now: Time, row: Row, log: Log, f: Fact)
    requires RowOk(c, now, row, log) && row.status.Publishing?
    requires f.Failed? && f.at == now
    ensures Follows(FailRow(row, f.kind, c.policy.maxAttempts, f.next, ErrorCode(f.kind), now), log + [f])
  {
  }

  lemma ForClaimsAppend(log: Log, f: Fact)
    requires ForClaims(log) && (f.Failed? ==> f.claimed >= 1)
    ensures ForClaims(log + [f])
  {
  }

  lemma ClaimedColumns(c: Setup, s: State, l: Loop, chosen: set<Id>, id: Id)
    requires id in s.rows && id in s.logs && RowOk(c, s.now, s.rows[id], s.logs[id])
    requires id in chosen ==> Eligible(s.rows[id], s.now)
    requires Follows(s.rows[id], s.logs[id]) && ForClaims(s.logs[id])
    ensures var lease := LeaseLength(c.policy);
      var row, log := ClaimRows(s.rows, chosen, c.own(l), s.now, lease)[id], ClaimLogs(s, chosen, l, lease)[id];
      Follows(row, log) && ForClaims(log)
  {
    if id in chosen {
      var lease := LeaseLength(c.policy);
      var f := Leased(s.now, l, s.rows[id].attempts + 1, s.now + lease, s.rows[id].status.Publishing?);
      FollowsClaim(c, s.now, s.rows[id], s.logs[id], l, lease, f);
      ForClaimsAppend(s.logs[id], f);
    }
  }

  lemma ClaimColumns(c: Setup, s: State, l: Loop, answer: seq<Id>, delivered: bool)
    requires TableOk(c, s) && ColumnsOk(s) && Members(answer) <= s.rows.Keys
    requires forall id :: id in Members(answer) ==> Eligible(s.rows[id], s.now)
    ensures ColumnsOk(ApplyClaim(c, s, l, answer, delivered))
  {
    forall id | id in s.rows && id in s.logs
      ensures var t := ApplyClaim(c, s, l, answer, delivered);
        Follows(t.rows[id], t.logs[id]) && ForClaims(t.logs[id])
    {
      ClaimedColumns(c, s, l, Members(answer), id);
    }
  }

  /** A loop settles only claims that it made. */
  lemma RecordClaimed(c: Setup, s: State, l: Loop)
    requires Inv(c, s) && WorkerOf(s, l).batch != []
    ensures var r := WorkerOf(s, l).batch[0];
      && r.attempt >= 1 && r.id in s.rows && r.id in s.logs && RowOk(c, s.now, s.rows[r.id], s.logs[r.id])
  {
    var w := WorkerOf(s, l);
    var r := w.batch[0];
    assert WorkerOk(c, s, l, w) && RecordOk(s.rows, s.logs, l, r, w.claimedAt);
    RecordMade(s.rows, s.logs, l, r, w.claimedAt);
    MadeBound(c, s.rows[r.id].createdAt, s.logs[r.id], l, r.attempt);
  }

  lemma CompletionColumns(c: Setup, s: State, l: Loop, reaches: bool, reported: bool)
    requires Inv(c, s) && ColumnsOk(s) && WorkerOf(s, l).batch != []
    ensures ColumnsOk(ApplyMarkPublished(c, s, l, reaches, reported))
  {
    var r := WorkerOf(s, l).batch[0];
    RecordClaimed(c, s, l);
    if reaches && Fence(s.rows, r.id, c.own(l)) {
      var f := Completed(s.now, l, s.rows[r.id].attempts, r.attempt);
      FollowsCompletion(c, s.now, s.rows[r.id], s.logs[r.id], f);
      ForClaimsAppend(s.logs[r.id], f);
    }
  }

  lemma FailureColumns(c: Setup, s: State, l: Loop, reaches: bool, reported: bool)
    requires Inv(c, s) && ColumnsOk(s) && WorkerOf(s, l).batch != [] && WorkerOf(s, l).phase.Failing?
    ensures ColumnsOk(ApplyMarkFailed(c, s, l, reaches, reported))
  {
    var r, p := WorkerOf(s, l).batch[0], WorkerOf(s, l).phase;
    RecordClaimed(c, s, l);
    if reaches && Fence(s.rows, r.id, c.own(l)) {
      var f := Failed(s.now, l, s.rows[r.id].attempts, r.attempt, p.observed, p.kind, p.next);
      FollowsFailure(c, s.now, s.rows[r.id], s.logs[r.id], f);
      ForClaimsAppend(s.logs[r.id], f);
    }
  }

  lemma InsertColumns(c: Setup, s: State, e: Event.Envelope, began: Time)
    requires ColumnsOk(s) && Enabled(c, s, Insert(e, began))
    ensures ColumnsOk(Apply(c, s, Insert(e, began)))
  {
  }

  lemma StepColumns(c: Setup, s: State, step: Step)
    requires Inv(c, s) && ColumnsOk(s) && Enabled(c, s, step)
    ensures ColumnsOk(Apply(c, s, step))
  {
    match step
    case Claim(l, locked, answer, delivered) =>
      assert Members(answer) <= Candidates(s.rows, s.now, locked);
      ClaimColumns(c, s, l, answer, delivered);
    case MarkPublished(l, reaches, reported) => CompletionColumns(c, s, l, reaches, reported);
    case MarkFailed(l, reaches, reported) => FailureColumns(c, s, l, reaches, reported);
    case Insert(e, began) => InsertColumns(c, s, e, began);
    case _ =>
  }

  lemma {:induction false} RunColumns(c: Setup, ss: seq<State>, steps: seq<Step>)
    requires ValidPolicy(c.policy) && IsRun(c, ss, steps) && Inv(c, ss[0]) && ColumnsOk(ss[0])
    ensures Inv(c, ss[|steps|]) && ColumnsOk(ss[|steps|])
  {
    if steps != [] {
      var n := |steps| - 1;
      RunColumns(c, ss[..n + 1], steps[..n]);
      StepColumns(c, ss[n], steps[n]);
      StepInv(c, ss[n], steps[n]);
    }
  }

  lemma ReachableColumns(c: Setup, s: State, id: Id)
    requires ValidPolicy(c.policy) && Reachable(c, s) && (id in s.rows || id in s.logs)
    ensures id in s.rows && id in s.logs && RowOk(c, s.now, s.rows[id], s.logs[id])
    ensures Follows(s.rows[id], s.logs[id]) && ForClaims(s.logs[id])
  {
    var s0: State :| Init(s0) && Leads(c, s0, s);
    var ss: seq<State>, steps: seq<Step> :| IsRun(c, ss, steps) && ss[0] == s0 && ss[|steps|] == s;
    RunColumns(c, ss, steps);
    ReachableRow(c, s, id);
  }

  // ---------- What the columns say ----------

  /** A row that nothing has happened to is as it was inserted. */
  lemma UntouchedRow(c: Setup, s: State, id: Id)
    requires ValidPolicy(c.policy) && Reachable(c, s) && id in s.rows && id in s.logs && s.logs[id] == []
    ensures var row := s.rows[id];
      row == Row(row.event, Pending, 0, row.createdAt, None, None, None, None, None, row.createdAt, row.createdAt)
  {
    ReachableColumns(c, s, id);
  }

  /** A row is leased if and only if the last thing that happened to it is a claim; that claim determines the lease. */
  lemma LeasedIff(c: Setup, s: State, id: Id)
    requires ValidPolicy(c.policy) && Reachable(c, s) && id in s.rows
    ensures id in s.logs
    ensures var row, log := s.rows[id], s.logs[id];
      && (row.status == Publishing <==> log != [] && log[|log| - 1].Leased?)
      && (row.status == Publishing ==>
            var f := log[|log| - 1];
            && row.leaseOwner == Some(c.own(f.loop)) && row.attempts == f.count && row.updatedAt == f.at
            && row.leaseExpiresAt == Some(f.at + c.policy.lease - c.policy.lease % 1000)
            && row.publishedAt == None && row.deadLetteredAt == None)
  {
    ReachableColumns(c, s, id);
    var log := s.logs[id];
    assert log != [] ==> LegalAt(c, s.rows[id].createdAt, log, |log| - 1);
  }

  /**
   A row is published if and only if the last thing that happened to it is a completion; the row then shows the time of
   that completion, and no error.
   */
  lemma PublishedIff(c: Setup, s: State, id: Id)
    requires ValidPolicy(c.policy) && Reachable(c, s) && id in s.rows
    ensures id in s.logs
    ensures var row, log := s.rows[id], s.logs[id];
      && (row.status == Published <==> log != [] && log[|log| - 1].Completed?)
      && (row.status == Published ==>
            var f := log[|log| - 1];
            && row.publishedAt == Some(f.at) && row.updatedAt == f.at && row.lastErrorCode == None
            && row.attempts == f.count && row.deadLetteredAt == None
            && row.leaseOwner == None && row.leaseExpiresAt == None)
  {
    ReachableColumns(c, s, id);
  }

  /**
   A row is given up if and only if the last thing that happened to it is a failure that was permanent or came when it
   had had its attempts: no row dies early. It then shows the time and the code of that failure.
   */
  lemma DeadLetteredIff(c: Setup, s: State, id: Id)
    requires ValidPolicy(c.policy) && Reachable(c, s) && id in s.rows
    ensures id in s.logs
    ensures var row, log := s.rows[id], s.logs[id];
      && (row.status == DeadLetter <==>
            && log != [] && log[|log| - 1].Failed?
            && (log[|log| - 1].kind == Permanent || row.attempts >= c.policy.maxAttempts))
      && (row.status == DeadLetter ==>
            var f := log[|log| - 1];
            && row.deadLetteredAt == Some(f.at) && row.updatedAt == f.at && row.attempts == f.count
            && row.lastErrorCode ==
                 Some(if f.kind == Permanent then "event_encoding_failed" else "nats_publish_failed")
            && row.publishedAt == None && row.leaseOwner == None && row.leaseExpiresAt == None)
  {
    ReachableColumns(c, s, id);
  }

  /**
   Every attempt is granted: a row that transient failures alone brought down has failed or been reclaimed maxAttempts
   times at least, and without reclaims it has failed exactly maxAttempts times.
   */
  lemma AttemptsGranted(c: Setup, s: State, id: Id)
    requires ValidPolicy(c.policy) && Reachable(c, s) && id in s.rows && id in s.logs && s.logs[id] != []
    requires s.rows[id].status == DeadLetter
    requires var f := s.logs[id][|s.logs[id]| - 1]; f.Failed? && f.kind == Transient
    ensures Failures(s.logs[id]) + Reclaims(s.logs[id]) == s.rows[id].attempts >= c.policy.maxAttempts
    ensures Reclaims(s.logs[id]) == 0 ==> Failures(s.logs[id]) == c.policy.maxAttempts
  {
    DeadLetteredIff(c, s, id);
    AttemptsConserved(c, s, id);
    FailuresBounded(c, s, id);
    ReachableRow(c, s, id);
    FinishedOnce(c, s.rows[id].createdAt, s.logs[id]);
  }

  /** A completion is the end of a history. */
  lemma {:induction false} FinishedOnce(c: Setup, created: Time, log: Log)
    requires Legal(c, created, log) && log != [] && !log[|log| - 1].Completed?
    ensures Completions(log) == 0
  {
    var n := |log| - 1;
    if n > 0 {
      assert LegalAt(c, created, log, n);
      LegalPrefix(c, created, log, n);
      FinishedOnce(c, created, log[..n]);
    } else {
      assert log[..0] == [];
    }
  }

  /**
   The retry schedule, for every failure of every run: a transient failure of attempt a is rescheduled
   min(base * 2^(a-1), max) after it was observed, a permanent one is stamped with the moment itself.
   */
  lemma RetrySchedule(c: Setup, s: State, id: Id, i: nat)
    requires ValidPolicy(c.policy) && Reachable(c, s) && id in s.logs && i < |s.logs[id]| && s.logs[id][i].Failed?
    ensures var f := s.logs[id][i];
      && f.claimed >= 1 && f.observed <= f.at
      && (f.kind == Permanent ==> f.next == f.observed)
      && (f.kind == Transient ==> f.next == f.observed + Min(c.policy.base * Pow2(f.claimed - 1), c.policy.max))
  {
    ReachableColumns(c, s, id);
    var log := s.logs[id];
    assert LegalAt(c, s.rows[id].createdAt, log, i);
    CappedClosedForm(c.policy.base, c.policy.max, log[i].claimed);
  }

  /** Before its first failure a row is due from its creation and shows no error. */
  lemma DueAtOnce(c: Setup, s: State, id: Id)
    requires ValidPolicy(c.policy) && Reachable(c, s) && id in s.rows && id in s.logs
    requires forall j :: 0 <= j < |s.logs[id]| ==> !s.logs[id][j].Failed?
    ensures s.rows[id].nextAttemptAt == s.rows[id].createdAt && s.rows[id].lastErrorCode == None
  {
    ReachableColumns(c, s, id);
    NoFailure(s.logs[id]);
  }

  /** From then on it is due when its latest failure says, and shows that failure's code until it is published. */
  lemma DueAfterFailure(c: Setup, s: State, id: Id, i: nat)
    requires ValidPolicy(c.policy) && Reachable(c, s) && id in s.rows && id in s.logs && i < |s.logs[id]|
    requires s.logs[id][i].Failed? && forall j :: i < j < |s.logs[id]| ==> !s.logs[id][j].Failed?
    ensures s.rows[id].nextAttemptAt == s.logs[id][i].next
    ensures s.rows[id].status != Published ==>
      s.rows[id].lastErrorCode ==
        Some(if s.logs[id][i].kind == Permanent then "event_encoding_failed" else "nats_publish_failed")
  {
    ReachableColumns(c, s, id);
    LastFailure(s.logs[id], i);
  }

  lemma {:induction false} NoFailure(log: Log)
    requires forall j :: 0 <= j < |log| ==> !log[j].Failed?
    ensures LatestFailure(log) == None
  {
    if log != [] {
      NoFailure(log[..|log| - 1]);
    }
  }

  lemma {:induction false} LastFailure(log: Log, i: nat)
    requires i < |log| && log[i].Failed? && forall j :: i < j < |log| ==> !log[j].Failed?
    ensures LatestFailure(log) == Some(log[i])
  {
    if i < |log| - 1 {
      LastFailure(log[..|log| - 1], i);
    }
  }
}
