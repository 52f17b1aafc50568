/**
 The relay worker as it is written: a loop over a claimed batch that publishes each record and then settles it.
 Each call is tied to a step of the outbox machine, and between any two calls other loops, other publishers and the
 clock may do whatever the machine allows.
 */
module Relay {

  import opened Wrappers
  import opened OutboxTable
  import opened OutboxMachine
  import opened OutboxHistory
  import opened OutboxInvariants
  import opened OutboxFence
  import opened OutboxStream
  import opened OutboxTheorems
  import opened OutboxSettlement
  import OutboxColumns
  import opened RetryPolicy
  import R = Repository
  import D = Database
  import Uuid

  /**
   NewRelay: refuses missing dependencies and bad policies, then allocates the worker id. `dependencies` says whether
   repository, publisher and logger are all there; the clock and the random source decide the id.
   */
  method NewRelay(dependencies: bool, pollInterval: int, lease: int, batchSize: int, maxAttempts: int, base: int,
                  max: int, unixMilli: int, randomness: Option<seq<Uuid.byte>>)
    returns (r: Result<(Policy, WorkerId), string>)
    requires lease <= MAX_DURATION && max <= MAX_DURATION
    requires -0x8000_0000_0000_0000 <= unixMilli < 0x8000_0000_0000_0000
    requires randomness.Some? ==> |randomness.value| == 16
    ensures r.Ok? <==>
      && dependencies && pollInterval > 0 && lease > 0 && 1 <= batchSize <= 1000 && maxAttempts >= 1
      && 0 < base <= max && randomness.Some?
    ensures r.Ok? ==>
      && ValidPolicy(r.value.0)
      && r.value.0.lease == lease && r.value.0.batchSize == batchSize && r.value.0.maxAttempts == maxAttempts
      && r.value.0.base == base && r.value.0.max == max
    ensures r.Ok? ==> Uuid.IsV7(r.value.1) && r.value.1 == Uuid.Generate(unixMilli, randomness.value)
    ensures r.Err? ==>
      r.error ==
      if !dependencies then "dependencies"
      else if pollInterval <= 0 || lease <= 0 then "intervals"
      else if batchSize < 1 || batchSize > 1000 then "batch size"
      else if maxAttempts < 1 then "maximum attempts"
      else if base <= 0 || max < base then "backoff policy"
      else "worker id"
  {
    if !dependencies {
      return Err("dependencies");
    }
    if pollInterval <= 0 || lease <= 0 {
      return Err("intervals");
    }
    if batchSize < 1 || batchSize > 1000 {
      return Err("batch size");
    }
    if maxAttempts < 1 {
      return Err("maximum attempts");
    }
    if base <= 0 || max < base {
      return Err("backoff policy");
    }
    var id := Uuid.NewUuidV7(unixMilli, randomness);
    if id.Err? {
      return Err("worker id");
    }
    Uuid.AcceptedIffGenerated(id.value);
    return Ok((Policy(lease, batchSize, maxAttempts, base, max), id.value));
  }

  /**
   How the claim of a batch ended: it returned what it leased; or it failed, by cancellation or otherwise, whatever had
   become of its commit.
   */
  datatype ClaimOutcome = Returned | Cancelled(commit: D.Commit) | Broken(commit: D.Commit)

  /** A publish that this process asked for, and whether it was acknowledged. */
  datatype Sent = Sent(message: Message, acked: bool)

  /** The clock, the broker's stream, and what this process has sent to the broker. */
  class World {
    var now: Time
    var stream: seq<Entry>
    var sent: seq<Sent>

    constructor ()
      ensures stream == [] && sent == []
    {
      now, stream, sent := 0, [], [];
    }

    /** A publish may or may not append, and may or may not be acknowledged; once acknowledged, its id is taken. */
    method Publish(m: Message, origin: Origin) returns (acked: bool)
      modifies this`stream, this`sent
      ensures stream == old(stream) || stream == old(stream) + [Entry(m, origin)]
      ensures acked ==> Taken(stream, m.msgId)
      ensures sent == old(sent) + [Sent(m, acked)]
    {
      acked := *;
      sent := sent + [Sent(m, acked)];
      var append: bool := *;
      if append || (acked && !Taken(stream, m.msgId)) {
        stream := stream + [Entry(m, origin)];
        assert stream[|stream| - 1].message.msgId == m.msgId;
      }
    }
  }

  class Relay {
    const policy: Policy
    const workerId: WorkerId
    const loop: Loop
    const repository: R.Repository
    const world: World
    var lastError: Option<string>
    /** The deployment this relay is part of, and the machine state that the shared stores stand for. */
    ghost const setup: Setup
    ghost var m: State

    ghost predicate Coupled()
      reads this, repository.db, world
    {
      && setup.policy == policy && setup.own(loop) == workerId
      && ValidPolicy(policy) && DistinctOwners(setup) && Uuid.IsV7(workerId)
      && !repository.db.open
      && repository.db.committed == m.rows && world.stream == m.stream && world.now == m.now
      && Reachable(setup, m)
    }

    /** A relay starts into whatever reachable state the stores are in, as a loop with nothing in flight. */
    constructor (policy: Policy, workerId: WorkerId, loop: Loop, db: D.Database<Table>, world: World,
                 ghost setup: Setup, ghost start: State)
      requires ValidPolicy(policy) && Uuid.IsV7(workerId)
      requires setup.policy == policy && setup.own(loop) == workerId && DistinctOwners(setup)
      requires Reachable(setup, start) && WorkerOf(start, loop).batch == []
      requires !db.open && db.committed == start.rows && world.stream == start.stream && world.now == start.now
      ensures this.policy == policy && this.workerId == workerId && this.loop == loop && this.setup == setup
      ensures repository.db == db && this.world == world
      ensures Coupled() && m == start && lastError.None?
    {
      this.policy, this.workerId, this.loop, this.world, this.setup := policy, workerId, loop, world, setup;
      repository := new R.Repository(db);
      lastError := None;
      m := start;
    }

    /** What other loops, other publishers, inserting transactions and the clock do between two calls of this loop. */
    method Interfere()
      requires Coupled()
      modifies this`m, repository.db, world
      ensures Coupled() && Leads(setup, old(m), m) && WorkerOf(m, loop) == WorkerOf(old(m), loop)
      ensures world.sent == old(world.sent)
    {
      LeadsNowhere(setup, m);
    }

    /** Moves the ghost state along one step of the machine. */
    lemma Advance(s: State, step: Step)
      requires Reachable(setup, s) && Enabled(setup, s, step)
      ensures Leads(setup, s, Apply(setup, s, step)) && Reachable(setup, Apply(setup, s, step))
    {
      LeadsBy(setup, s, step);
      var s0: State :| Init(s0) && Leads(setup, s0, s);
      LeadsThrough(setup, s0, s, Apply(setup, s, step));
    }

    lemma TableMeetsConstraints(s: State)
      requires ValidPolicy(setup.policy) && Reachable(setup, s)
      ensures R.TableIdentity(s.rows)
    {
      ReachableSound(setup, s);
    }

    lemma RecordsCarryOwnIds(s: State, answer: seq<Id>)
      requires ValidPolicy(setup.policy) && Reachable(setup, s) && Members(answer) <= s.rows.Keys
      ensures var rows := ClaimRows(s.rows, Members(answer), workerId, s.now, LeaseLength(policy));
        forall i :: 0 <= i < |answer| ==> answer[i] in rows && R.Decoded(rows[answer[i]]) == RecordsOf(rows, answer)[i]
    {
      TableMeetsConstraints(s);
      var rows := ClaimRows(s.rows, Members(answer), workerId, s.now, LeaseLength(policy));
      R.IdentityDecodes(rows, answer);
    }

    lemma ClaimIsStep(s: State, locked: set<Id>, answer: seq<Id>, delivered: bool)
      requires WorkerOf(s, loop).batch == [] && Returning(s.rows, s.now, locked, setup.policy.batchSize, answer)
      ensures Enabled(setup, s, Claim(loop, locked, answer, delivered))
      ensures Members(answer) <= s.rows.Keys
      ensures var t, lease := Apply(setup, s, Claim(loop, locked, answer, delivered)), LeaseLength(setup.policy);
        && t == ApplyClaim(setup, s, loop, answer, delivered)
        && t.rows == ClaimRows(s.rows, Members(answer), setup.own(loop), s.now, lease)
        && t.now == s.now && t.stream == s.stream
        && WorkerOf(t, loop).phase.Ready?
        && WorkerOf(t, loop).batch == if delivered then RecordsOf(t.rows, answer) else []
    {
    }

    /** The repository call alone, in whatever environment. */
    method CallClaim()
      returns (r: Result<seq<Record>, R.ClaimError>, answer: seq<Id>, locked: set<Id>, commit: D.Commit)
      requires Coupled()
      modifies repository.db
      ensures !repository.db.open
      ensures r.Ok? || repository.db.committed != m.rows ==>
        && Returning(m.rows, m.now, locked, policy.batchSize, answer)
        && repository.db.committed == ClaimRows(m.rows, Members(answer), workerId, m.now, LeaseLength(policy))
      ensures r.Ok? ==>
        Members(answer) <= repository.db.committed.Keys && r.value == RecordsOf(repository.db.committed, answer)
      ensures r.Err? && repository.db.committed != m.rows ==> commit.Unreported?
    {
      var env: R.ClaimEnvironment := *;
      r, answer := repository.Claim(workerId, policy.batchSize, policy.lease, world.now, env);
      locked, commit := env.locked, env.commit;
      if r.Ok? {
        R.ReturnedRows(m.rows, m.now, locked, policy.batchSize, answer);
        RecordsCarryOwnIds(m, answer);
      }
    }

    /** A row that was just claimed has not been settled under its new attempt number. */
    lemma FreshLeases(s: State, answer: seq<Id>, delivered: bool)
      requires ValidPolicy(setup.policy) && DistinctOwners(setup) && Reachable(setup, s)
      requires Members(answer) <= s.rows.Keys
      ensures NoneSettled(ApplyClaim(setup, s, loop, answer, delivered), answer)
    {
      var t := ApplyClaim(setup, s, loop, answer, true);
      ReachableGood(setup, s);
      ClaimedUnsettled(setup, s, loop, answer, true);
      forall i | 0 <= i < |answer|
        ensures answer[i] in t.rows && answer[i] in t.logs
        ensures !SettledBy(t.logs[answer[i]], loop, t.rows[answer[i]].attempts)
      {
        assert answer[i] in Members(answer);
        assert UnsettledRecord(t.logs, loop, WorkerOf(t, loop).batch[i]);
      }
    }

    /** None of these rows has been settled by this loop under its present attempt number. */
    ghost predicate NoneSettled(s: State, ids: seq<Id>)
      reads this
    {
      forall i :: 0 <= i < |ids| ==>
        ids[i] in s.rows && ids[i] in s.logs && !SettledBy(s.logs[ids[i]], loop, s.rows[ids[i]].attempts)
    }

    /** The call as a step: `leased` are the rows that it leased, whatever it returned. */
    method ClaimBatch()
      returns (r: Result<seq<Record>, R.ClaimError>, ghost leased: seq<Id>, ghost commit: D.Commit)
      requires Coupled() && WorkerOf(m, loop).batch == []
      modifies this`m, repository.db
      ensures Coupled() && Leads(setup, old(m), m)
      ensures m.logs == ClaimLogs(old(m), Members(leased), loop, LeaseLength(policy))
      ensures r.Ok? ==> WorkerOf(m, loop).batch == r.value && WorkerOf(m, loop).phase.Ready?
      ensures r.Ok? ==> |r.value| == |leased| && forall i :: 0 <= i < |leased| ==>
        leased[i] in m.rows && r.value[i].id == leased[i] && r.value[i].attempt == m.rows[leased[i]].attempts
      ensures r.Err? ==> WorkerOf(m, loop).batch == []
      ensures r.Err? && leased != [] ==> commit.Unreported?
      ensures NoneSettled(m, leased)
    {
      leased := [];
      LeadsNowhere(setup, m);
      var answer, locked, outcome;
      r, answer, locked, outcome := CallClaim();
      commit := outcome;
      if r.Ok? || repository.db.committed != m.rows {
        ClaimIsStep(m, locked, answer, r.Ok?);
        FreshLeases(m, answer, r.Ok?);
        ghost var step := Claim(loop, locked, answer, r.Ok?);
        Advance(m, step);
        m := Apply(setup, m, step);
        leased := answer;
        MembersOf(answer, m.rows.Keys);
      }
    }

    lemma MembersOf(ids: seq<Id>, keys: set<Id>)
      requires Members(ids) <= keys
      ensures forall i :: 0 <= i < |ids| ==> ids[i] in keys
    {
      assert forall i :: 0 <= i < |ids| ==> ids[i] in Members(ids);
    }

    /** Publishes the first record of the batch. */
    method PublishRecord(record: Record) returns (acked: bool)
      requires Coupled() && WorkerOf(m, loop).batch != [] && WorkerOf(m, loop).batch[0] == record
      requires WorkerOf(m, loop).phase.Ready? && record.attempt >= 1
      modifies this`m, world`stream, world`sent
      ensures Coupled() && Leads(setup, old(m), m)
      ensures var e := record.event.envelope;
        world.sent == old(world.sent) + [Sent(Message(record.event.subject, e.id, Encoded(e)), acked)]
      ensures WorkerOf(m, loop) == WorkerOf(old(m), loop).(phase :=
        if acked then Acked
        else Failing(Transient, world.now, world.now + Min(policy.base * Pow2(record.attempt - 1), policy.max)))
      ensures m.logs == old(m).logs
    {
      var message := MessageOf(record.event);
      acked := world.Publish(message, Relayed(record.id, record.attempt, loop));
      ghost var appended := world.stream != m.stream;
      PublishIsStep(m, record, appended, acked);
      Advance(m, Publish(loop, appended, acked));
      m := Apply(setup, m, Publish(loop, appended, acked));
    }

    lemma PublishIsStep(s: State, record: Record, appended: bool, acked: bool)
      requires WorkerOf(s, loop).batch != [] && WorkerOf(s, loop).batch[0] == record && record.attempt >= 1
      requires WorkerOf(s, loop).phase.Ready?
      requires acked ==> appended || Taken(s.stream, record.event.envelope.id)
      ensures Enabled(setup, s, Publish(loop, appended, acked))
      ensures var t, p, e := Apply(setup, s, Publish(loop, appended, acked)), setup.policy, record.event.envelope;
        && t.rows == s.rows && t.logs == s.logs && t.now == s.now
        && t.stream == s.stream + (if appended then
             [Entry(Message(record.event.subject, e.id, Encoded(e)), Relayed(record.id, record.attempt, loop))] else [])
        && WorkerOf(t, loop) == WorkerOf(s, loop).(phase :=
             if acked then Acked
             else Failing(Transient, s.now, s.now + Min(p.base * Pow2(record.attempt - 1), p.max)))
    {
      CappedClosedForm(setup.policy.base, setup.policy.max, record.attempt);
    }

    /** The id a settling call passes on is the record's own. */
    lemma OwnId(s: State, record: Record)
      requires ValidPolicy(setup.policy) && Reachable(setup, s)
      requires WorkerOf(s, loop).batch != [] && WorkerOf(s, loop).batch[0] == record
      ensures Uuid.Key(record.event.envelope.id) == record.id && record.id in s.rows && record.id in s.logs
    {
      ReachableSound(setup, s);
      assert WorkerOk(setup, s, loop, WorkerOf(s, loop));
      assert RecordOk(s.rows, s.logs, loop, record, WorkerOf(s, loop).claimedAt);
      assert Identity(record.id, s.rows[record.id].event);
    }

    /** While this loop's lease is on the row, the row's attempt is the record's. */
    lemma OwnAttempt(s: State, record: Record)
      requires ValidPolicy(setup.policy) && DistinctOwners(setup) && Reachable(setup, s)
      requires WorkerOf(s, loop).batch != [] && WorkerOf(s, loop).batch[0] == record
      ensures record.attempt >= 1
      ensures Fence(s.rows, record.id, setup.own(loop)) ==> s.rows[record.id].attempts == record.attempt
    {
      ReachableGood(setup, s);
      OutboxColumns.RecordClaimed(setup, s, loop);
      assert FenceWorker(setup, s.rows, loop, WorkerOf(s, loop));
      assert FenceRecord(setup, s.rows, loop, record);
    }

    method SettlePublished(record: Record) returns (ok: bool)
      requires Coupled() && WorkerOf(m, loop).batch != [] && WorkerOf(m, loop).batch[0] == record
      requires WorkerOf(m, loop).phase.Acked?
      modifies this`m, repository.db`committed
      ensures Coupled() && Settled(old(m), m, record, ok)
      ensures ok ==> record.id in repository.db.committed
      ensures ok ==>
        var row := repository.db.committed[record.id];
        && row.status == Published && row.publishedAt == Some(world.now) && row.lastErrorCode == None
        && row.attempts == record.attempt
    {
      var reach: R.Reach := *;
      OwnId(m, record);
      OwnAttempt(m, record);
      ok := repository.MarkPublished(record.event.envelope.id, workerId, world.now, reach);
      ghost var step := MarkPublished(loop, repository.db.started && reach.Executed?, ok);
      Advance(m, step);
      ghost var before := m;
      m := Apply(setup, m, step);
      CompletionSettles(before, m, record, step);
    }

    method SettleFailed(record: Record, kind: FailureClass, next: Time) returns (ok: bool)
      requires Coupled() && WorkerOf(m, loop).batch != [] && WorkerOf(m, loop).batch[0] == record
      requires WorkerOf(m, loop).phase.Failing? && WorkerOf(m, loop).phase.kind == kind
      requires WorkerOf(m, loop).phase.next == next
      modifies this`m, repository.db`committed
      ensures Coupled() && Settled(old(m), m, record, ok)
      ensures ok ==> record.id in repository.db.committed
      ensures ok ==>
        var row := repository.db.committed[record.id];
        && row.status ==
             (if kind == Permanent || record.attempt >= policy.maxAttempts then DeadLetter else Pending)
        && row.nextAttemptAt == next && row.attempts == record.attempt
        && row.lastErrorCode == Some(if kind == Permanent then "event_encoding_failed" else "nats_publish_failed")
    {
      var reach: R.Reach := *;
      OwnId(m, record);
      OwnAttempt(m, record);
      var text := if kind.Permanent? then "permanent" else "transient";
      ok := repository.MarkFailed(
        record.event.envelope.id, workerId, text, policy.maxAttempts, next, ErrorCode(kind), world.now, reach);
      ghost var step := MarkFailed(loop, repository.db.started && reach.Executed?, ok);
      Advance(m, step);
      ghost var before := m;
      m := Apply(setup, m, step);
      FailureSettles(before, m, record, step);
    }

    /**
     One settling call on the first record: reported success settles that record and moves on, anything else ends the
     batch; the history of no other row changes.
     */
    ghost predicate Settled(s: State, t: State, record: Record, ok: bool)
      reads this
    {
      && Leads(setup, s, t)
      && WorkerOf(s, loop).batch != []
      && WorkerOf(t, loop) == AfterSettling(WorkerOf(s, loop), ok)
      && s.logs.Keys == t.logs.Keys && record.id in t.logs
      && (ok ==> SettledBy(t.logs[record.id], loop, record.attempt))
      && (forall id :: id in s.logs && id != record.id ==> t.logs[id] == s.logs[id])
    }

    lemma CompletionSettles(s: State, t: State, record: Record, step: Step)
      requires step.MarkPublished? && step.loop == loop && Enabled(setup, s, step) && t == Apply(setup, s, step)
      requires Leads(setup, s, t) && WorkerOf(s, loop).batch[0] == record && record.id in s.logs
      ensures Settled(s, t, record, step.reported)
    {
      if step.reported {
        var f := Completed(s.now, loop, s.rows[record.id].attempts, record.attempt);
        SettledByAppend(s.logs[record.id], f, loop, record.attempt);
      }
    }

    lemma FailureSettles(s: State, t: State, record: Record, step: Step)
      requires step.MarkFailed? && step.loop == loop && Enabled(setup, s, step) && t == Apply(setup, s, step)
      requires Leads(setup, s, t) && WorkerOf(s, loop).batch[0] == record && record.id in s.logs
      ensures Settled(s, t, record, step.reported)
    {
      if step.reported {
        var p := WorkerOf(s, loop).phase;
        var f := Failed(s.now, loop, s.rows[record.id].attempts, record.attempt, p.observed, p.kind, p.next);
        SettledByAppend(s.logs[record.id], f, loop, record.attempt);
      }
    }

    /**
     One pass of the batch loop: encode, publish, settle. Returns whether the loop goes on, which it does exactly when
     the record is settled. What does not encode is never sent, and given up. Anything else is sent once, as it is; if
     that is not acknowledged, the row is due again min(base * 2^(attempt-1), max) later, or given up when it has had
     its attempts; if it is, the row is published now.
     */
    method ProcessRecord(record: Record, encodes: bool) returns (ok: bool, acked: bool)
      requires Coupled() && WorkerOf(m, loop).batch != [] && WorkerOf(m, loop).batch[0] == record
      requires WorkerOf(m, loop).phase.Ready?
      modifies this`m, repository.db, world
      ensures Coupled() && Passed(old(m), m, record, ok)
      ensures var e := record.event.envelope;
        world.sent ==
          old(world.sent) + if encodes then [Sent(Message(record.event.subject, e.id, Encoded(e)), acked)] else []
      ensures acked ==> encodes
      ensures record.attempt >= 1
      ensures ok ==> record.id in repository.db.committed
      ensures ok ==>
        var row := repository.db.committed[record.id];
        && row.attempts == record.attempt
        && (acked ==> row.status == Published && row.publishedAt == Some(world.now) && row.lastErrorCode == None)
        && (!encodes ==>
              && row.status == DeadLetter && row.nextAttemptAt == old(world.now)
              && row.lastErrorCode == Some("event_encoding_failed"))
        && (encodes && !acked ==>
              && row.status == (if record.attempt >= policy.maxAttempts then DeadLetter else Pending)
              && row.nextAttemptAt == old(world.now) + Min(policy.base * Pow2(record.attempt - 1), policy.max)
              && row.lastErrorCode == Some("nats_publish_failed"))
    {
      OwnAttempt(m, record);
      if encodes {
        ok, acked := SendRecord(record);
      } else {
        acked := false;
        ok := RefuseRecord(record);
      }
    }

    /** The record does not encode. */
    method RefuseRecord(record: Record) returns (ok: bool)
      requires Coupled() && WorkerOf(m, loop).batch != [] && WorkerOf(m, loop).batch[0] == record
      requires WorkerOf(m, loop).phase.Ready?
      modifies this`m, repository.db, world
      ensures Coupled() && Passed(old(m), m, record, ok) && world.sent == old(world.sent)
      ensures ok ==> record.id in repository.db.committed
      ensures ok ==>
        var row := repository.db.committed[record.id];
        && row.status == DeadLetter && row.nextAttemptAt == old(world.now) && row.attempts == record.attempt
        && row.lastErrorCode == Some("event_encoding_failed")
    {
      ghost var start := m;
      NoteEncodingFailure();
      ghost var s := m;
      ok := FailRecord(record, Permanent, world.now);
      PassedThrough(start, s, m, record, ok);
    }

    /** The record encodes, and is sent. */
    method SendRecord(record: Record) returns (ok: bool, acked: bool)
      requires Coupled() && WorkerOf(m, loop).batch != [] && WorkerOf(m, loop).batch[0] == record
      requires WorkerOf(m, loop).phase.Ready? && record.attempt >= 1
      modifies this`m, repository.db, world
      ensures Coupled() && Passed(old(m), m, record, ok)
      ensures var e := record.event.envelope;
        world.sent == old(world.sent) + [Sent(Message(record.event.subject, e.id, Encoded(e)), acked)]
      ensures ok ==> record.id in repository.db.committed
      ensures ok ==>
        var row := repository.db.committed[record.id];
        && row.attempts == record.attempt
        && (acked ==> row.status == Published && row.publishedAt == Some(world.now) && row.lastErrorCode == None)
        && (!acked ==>
              && row.status == (if record.attempt >= policy.maxAttempts then DeadLetter else Pending)
              && row.nextAttemptAt == old(world.now) + Min(policy.base * Pow2(record.attempt - 1), policy.max)
              && row.lastErrorCode == Some("nats_publish_failed"))
    {
      ghost var start := m;
      acked := PublishRecord(record);
      ghost var s := m;
      if !acked {
        var backoff := Backoff(record.attempt);
        ok := FailRecord(record, Transient, world.now + backoff);
      } else {
        ok := CompleteRecord(record);
      }
      PassedThrough(start, s, m, record, ok);
    }

    /** backoff: the wait that this relay's policy prescribes after an attempt. */
    method Backoff(attempt: nat) returns (backoff: int)
      requires Coupled() && attempt >= 1
      ensures backoff == Min(policy.base * Pow2(attempt - 1), policy.max)
    {
      var delay := RelayBackoff(policy.base as int64, policy.max as int64, attempt);
      CappedClosedForm(policy.base, policy.max, attempt);
      return delay as int;
    }

    /** The first record does not encode: a permanent failure, observed now. */
    ghost method NoteEncodingFailure()
      requires Coupled() && WorkerOf(m, loop).batch != [] && WorkerOf(m, loop).phase.Ready?
      modifies this`m
      ensures Coupled() && Leads(setup, old(m), m) && m.logs == old(m).logs
      ensures WorkerOf(m, loop) == WorkerOf(old(m), loop).(phase := Failing(Permanent, world.now, world.now))
    {
      Advance(m, EncodeFails(loop));
      m := Apply(setup, m, EncodeFails(loop));
    }

    lemma PassedThrough(start: State, s: State, t: State, record: Record, ok: bool)
      requires Leads(setup, start, s) && Passed(s, t, record, ok) && start.logs == s.logs
      requires WorkerOf(start, loop) == WorkerOf(s, loop).(phase := WorkerOf(start, loop).phase)
      ensures Passed(start, t, record, ok)
    {
      LeadsThrough(setup, start, s, t);
    }

    /** Records the failure of the first record, whatever happens before the statement is executed. */
    method FailRecord(record: Record, kind: FailureClass, next: Time) returns (ok: bool)
      requires Coupled() && WorkerOf(m, loop).batch != [] && WorkerOf(m, loop).batch[0] == record
      requires WorkerOf(m, loop).phase.Failing? && WorkerOf(m, loop).phase.kind == kind
      requires WorkerOf(m, loop).phase.next == next
      modifies this`m, repository.db, world
      ensures Coupled() && Passed(old(m), m, record, ok) && world.sent == old(world.sent)
      ensures ok ==> record.id in repository.db.committed
      ensures ok ==>
        var row := repository.db.committed[record.id];
        && row.status ==
             (if kind == Permanent || record.attempt >= policy.maxAttempts then DeadLetter else Pending)
        && row.nextAttemptAt == next && row.attempts == record.attempt
        && row.lastErrorCode == Some(if kind == Permanent then "event_encoding_failed" else "nats_publish_failed")
    {
      ghost var start := m;
      Interfere();
      ghost var s := m;
      ok := SettleFailed(record, kind, next);
      SettlementPasses(start, s, m, record, ok);
    }

    /** Records the completion of the first record, whatever happens before the statement is executed. */
    method CompleteRecord(record: Record) returns (ok: bool)
      requires Coupled() && WorkerOf(m, loop).batch != [] && WorkerOf(m, loop).batch[0] == record
      requires WorkerOf(m, loop).phase.Acked?
      modifies this`m, repository.db, world
      ensures Coupled() && Passed(old(m), m, record, ok) && world.sent == old(world.sent)
      ensures ok ==> record.id in repository.db.committed
      ensures ok ==>
        var row := repository.db.committed[record.id];
        && row.status == Published && row.publishedAt == Some(world.now) && row.lastErrorCode == None
        && row.attempts == record.attempt
    {
      ghost var start := m;
      Interfere();
      ghost var s := m;
      ok := SettlePublished(record);
      SettlementPasses(start, s, m, record, ok);
    }

    /** The loop is past its first record, whatever others did meanwhile. */
    ghost predicate Passed(s: State, t: State, record: Record, ok: bool)
      reads this
    {
      && Leads(setup, s, t)
      && WorkerOf(s, loop).batch != []
      && WorkerOf(t, loop) == AfterSettling(WorkerOf(s, loop), ok)
      && s.logs.Keys <= t.logs.Keys && record.id in t.logs
      && (ok ==> SettledBy(t.logs[record.id], loop, record.attempt))
      && RestUnsettled(WorkerOf(s, loop).batch, t.logs)
    }

    lemma SettlementPasses(start: State, s: State, t: State, record: Record, ok: bool)
      requires ValidPolicy(setup.policy) && DistinctOwners(setup) && Reachable(setup, start)
      requires Leads(setup, start, s) && WorkerOf(s, loop) == WorkerOf(start, loop)
      requires Reachable(setup, s) && Settled(s, t, record, ok) && WorkerOf(s, loop).batch[0] == record
      ensures Passed(start, t, record, ok)
    {
      RestStaysUnsettled(s, t, record, ok);
      LeadsThrough(setup, start, s, t);
      KeysKept(start, s);
    }

    /** None of the records after the first has been settled by this loop. */
    ghost predicate RestUnsettled(batch: seq<Record>, logs: map<Id, Log>)
      reads this
    {
      forall i :: 1 <= i < |batch| ==> batch[i].id in logs && !SettledBy(logs[batch[i].id], loop, batch[i].attempt)
    }

    lemma RestStaysUnsettled(s: State, t: State, record: Record, ok: bool)
      requires ValidPolicy(setup.policy) && DistinctOwners(setup) && Reachable(setup, s)
      requires Settled(s, t, record, ok) && WorkerOf(s, loop).batch[0] == record
      ensures RestUnsettled(WorkerOf(s, loop).batch, t.logs)
    {
      ReachableGood(setup, s);
      var w := WorkerOf(s, loop);
      assert WorkerOk(setup, s, loop, w) && Unsettled(s.logs, loop, w);
      forall i | 1 <= i < |w.batch|
        ensures w.batch[i].id in t.logs && !SettledBy(t.logs[w.batch[i].id], loop, w.batch[i].attempt)
      {
        assert RecordOk(s.rows, s.logs, loop, w.batch[i], w.claimedAt);
        assert UnsettledRecord(s.logs, loop, w.batch[i]);
      }
    }

    lemma KeysKept(s: State, t: State)
      requires ValidPolicy(setup.policy) && Reachable(setup, s) && Leads(setup, s, t)
      ensures s.logs.Keys <= t.logs.Keys && Extends(s, t)
    {
      ReachableFurther(setup, s, t);
    }

    lemma SettledStays(s: State, t: State, id: Id, attempt: nat)
      requires ValidPolicy(setup.policy) && Reachable(setup, s) && Leads(setup, s, t)
      requires id in s.logs && SettledBy(s.logs[id], loop, attempt)
      ensures id in t.logs && SettledBy(t.logs[id], loop, attempt)
    {
      ReachableFurther(setup, s, t);
      assert RowExtends(s.rows[id], s.logs[id], t.rows[id], t.logs[id]);
      SettledByExtends(s.logs[id], t.logs[id], loop, attempt);
    }

    /** The first `n` records have been settled by this loop. */
    ghost predicate PrefixSettled(records: seq<Record>, n: nat, logs: map<Id, Log>)
      reads this
      requires n <= |records|
    {
      forall i :: 0 <= i < n ==> records[i].id in logs && SettledBy(logs[records[i].id], loop, records[i].attempt)
    }

    lemma PrefixStays(s: State, t: State, records: seq<Record>, n: nat)
      requires ValidPolicy(setup.policy) && Reachable(setup, s) && Leads(setup, s, t)
      requires n <= |records| && PrefixSettled(records, n, s.logs)
      ensures PrefixSettled(records, n, t.logs)
    {
      forall i | 0 <= i < n
        ensures records[i].id in t.logs && SettledBy(t.logs[records[i].id], loop, records[i].attempt)
      {
        SettledStays(s, t, records[i].id, records[i].attempt);
      }
    }

    /** Every leased row has been settled by this loop under the attempt number of the lease. */
    ghost predicate LeasesSettled(afterClaim: State, leased: seq<Id>, logs: map<Id, Log>)
      reads this
    {
      forall i :: 0 <= i < |leased| ==>
        && leased[i] in afterClaim.rows && leased[i] in logs
        && SettledBy(logs[leased[i]], loop, afterClaim.rows[leased[i]].attempts)
    }

    lemma ReturnedSettled(afterClaim: State, leased: seq<Id>, records: seq<Record>, logs: map<Id, Log>)
      requires |records| == |leased| && PrefixSettled(records, |records|, logs)
      requires forall i :: 0 <= i < |leased| ==>
        && leased[i] in afterClaim.rows
        && records[i].id == leased[i] && records[i].attempt == afterClaim.rows[leased[i]].attempts
      ensures LeasesSettled(afterClaim, leased, logs)
    {
    }

    lemma NotReturnedUnsettled(afterClaim: State, leased: seq<Id>)
      requires NoneSettled(afterClaim, leased)
      ensures LeasesSettled(afterClaim, leased, afterClaim.logs) <==> leased == []
    {
      if leased != [] {
        assert !SettledBy(afterClaim.logs[leased[0]], loop, afterClaim.rows[leased[0]].attempts);
      }
    }

    /**
     processBatch, under any interference: its execution is a run of the machine. The claim leases the rows `leased`; it
     returns all of them, or it fails, and then it has leased any only if its commit took effect unreported. A nil
     result means that the claim was cancelled or that every returned record was settled. So a nil result has settled
     every leased row if and only if the claim was returned or had leased nothing. An error settles a prefix of the
     records, leaves the record it stopped at open, and touches none after that.
     */
    method ProcessBatch()
      returns (error: Option<string>, ghost claim: ClaimOutcome, ghost records: seq<Record>, ghost settled: nat,
               ghost leased: seq<Id>, ghost afterClaim: State)
      requires Coupled() && WorkerOf(m, loop).batch == []
      modifies this`m, repository.db, world
      ensures Coupled() && Leads(setup, old(m), m) && WorkerOf(m, loop).batch == []
      ensures Leads(setup, old(m), afterClaim) && Leads(setup, afterClaim, m)
      ensures afterClaim.logs == ClaimLogs(old(m), Members(leased), loop, LeaseLength(policy))
      ensures records == WorkerOf(afterClaim, loop).batch && |records| == (if claim.Returned? then |leased| else 0)
      ensures forall i :: 0 <= i < |records| ==> i < |leased| && records[i].id == leased[i]
      ensures !claim.Returned? && leased != [] ==> claim.commit.Unreported?
      ensures settled <= |records| && PrefixSettled(records, settled, m.logs)
      ensures error.None? <==> claim.Cancelled? || (claim.Returned? && settled == |records|)
      ensures error.None? ==> (LeasesSettled(afterClaim, leased, m.logs) <==> leased == [] || claim.Returned?)
      ensures error.Some? ==> RestUnsettled(records[settled..], m.logs)
    {
      settled, records := 0, [];
      var claimed;
      ghost var commit;
      claimed, leased, commit := ClaimBatch();
      afterClaim := m;
      LeadsNowhere(setup, m);
      if claimed.Err? {
        if claimed.error.Interrupted? && claimed.error.cancelled {
          error, claim := None, Cancelled(commit);
        } else {
          error, claim := Some("claim"), Broken(commit);
        }
        NotReturnedUnsettled(afterClaim, leased);
        return;
      }
      claim, records := Returned, claimed.value;
      error, settled := ProcessRecords(claimed.value);
      LeadsThrough(setup, old(m), afterClaim, m);
      if error.None? {
        ReturnedSettled(afterClaim, leased, records, m.logs);
      }
    }

    /** The loop over the claimed records. */
    method ProcessRecords(records: seq<Record>) returns (error: Option<string>, ghost settled: nat)
      requires Coupled() && WorkerOf(m, loop).batch == records && WorkerOf(m, loop).phase.Ready?
      modifies this`m, repository.db, world
      ensures Coupled() && Leads(setup, old(m), m) && WorkerOf(m, loop).batch == []
      ensures settled <= |records| && PrefixSettled(records, settled, m.logs)
      ensures error.None? <==> settled == |records|
      ensures error.Some? ==> RestUnsettled(records[settled..], m.logs)
    {
      settled := 0;
      LeadsNowhere(setup, m);
      for i := 0 to |records|
        invariant settled == i
        invariant Coupled() && Leads(setup, old(m), m)
        invariant WorkerOf(m, loop).batch == records[i..] && WorkerOf(m, loop).phase.Ready?
        invariant PrefixSettled(records, i, m.logs)
      {
        ghost var s1 := m;
        Interfere();
        LeadsThrough(setup, old(m), s1, m);
        PrefixStays(s1, m, records, i);
        ghost var s2 := m;
        var encodes: bool := *;
        var ok, _ := ProcessRecord(records[i], encodes);
        LeadsThrough(setup, old(m), s2, m);
        PrefixStays(s2, m, records, i);
        if !ok {
          return Some("settle"), settled;
        }
        settled := settled + 1;
      }
      return None, settled;
    }

    /**
     run: a first batch, then one per tick until it is cancelled, `ticks` ticks later. It is a run of the machine that
     keeps the latest outcome.
     */
    method Run(ticks: nat) returns (outcomes: seq<Option<string>>)
      requires Coupled() && WorkerOf(m, loop).batch == []
      modifies this, repository.db, world
      ensures Coupled() && Leads(setup, old(m), m) && WorkerOf(m, loop).batch == []
      ensures |outcomes| == ticks + 1 && lastError == outcomes[ticks]
    {
      LeadsNowhere(setup, m);
      outcomes := Poll([]);
      for n := 0 to ticks
        invariant Coupled() && Leads(setup, old(m), m) && WorkerOf(m, loop).batch == []
        invariant |outcomes| == n + 1 && lastError == outcomes[n]
      {
        ghost var s1 := m;
        Interfere();
        LeadsThrough(setup, old(m), s1, m);
        ghost var s2 := m;
        outcomes := Poll(outcomes);
        LeadsThrough(setup, old(m), s2, m);
      }
    }

    /** One batch, after which lastError is its outcome. */
    method Poll(before: seq<Option<string>>) returns (outcomes: seq<Option<string>>)
      requires Coupled() && WorkerOf(m, loop).batch == []
      modifies this, repository.db, world
      ensures Coupled() && Leads(setup, old(m), m) && WorkerOf(m, loop).batch == []
      ensures outcomes == before + [lastError]
    {
      ghost var claim, records, settled, leased, afterClaim;
      var error;
      error, claim, records, settled, leased, afterClaim := ProcessBatch();
      lastError := error;
      outcomes := before + [error];
    }
  }
}
