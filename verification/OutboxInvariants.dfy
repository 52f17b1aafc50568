/** The inductive invariants that tie the table, the remembered batches and the stream to the history of each row. */
module OutboxInvariants {

  import opened Wrappers
  import opened OutboxTable
  import opened OutboxMachine
  import opened OutboxHistory
  import Event
  import Uuid

  // ---------- Rows ----------

  /** The mutable columns of a row are what its history says they are. */
  predicate Matches(c: Setup, row: Row, log: Log) {
    && row.attempts == LastCount(log)
    && if log == [] then row.status.Pending? && row.nextAttemptAt == row.createdAt
       else match log[|log| - 1]
         case Leased(_, loop, _, expires, _) =>
           row.status.Publishing? && row.leaseOwner == Some(c.own(loop)) && row.leaseExpiresAt == Some(expires)
         case Failed(_, _, _, _, _, _, next) =>
           && row.nextAttemptAt == next
           && row.status == (if Fatal(c.policy, log[|log| - 1]) then DeadLetter else Pending)
         case Completed(_, _, _, _) => row.status.Published?
  }

  predicate Recent(created: Time, log: Log, now: Time) {
    created <= now && (log != [] ==> log[|log| - 1].at <= now)
  }

  predicate RowOk(c: Setup, now: Time, row: Row, log: Log) {
    Schema(row) && Legal(c, row.createdAt, log) && Matches(c, row, log) && Recent(row.createdAt, log, now)
  }

  predicate TableOk(c: Setup, s: State) {
    && s.logs.Keys == s.rows.Keys
    && forall id :: id in s.rows ==> RowOk(c, s.now, s.rows[id], s.logs[id])
  }

  // ---------- Workers ----------

  /** The fact at `i` is loop `l`'s claim with this attempt number. */
  predicate ClaimBy(log: Log, i: int, l: Loop, attempt: nat) {
    0 <= i < |log| && log[i].Leased? && log[i].loop == l && log[i].count == attempt
  }

  /** The row's history holds loop `l`'s claim with this attempt number. */
  predicate Made(log: Log, l: Loop, attempt: nat) {
    exists i :: 0 <= i < |log| && ClaimBy(log, i, l, attempt)
  }

  /** It holds that claim, made at this time. */
  predicate MadeAt(log: Log, l: Loop, attempt: nat, at: Time) {
    exists i :: 0 <= i < |log| && ClaimBy(log, i, l, attempt) && log[i].at == at
  }

  predicate RecordOk(rows: Table, logs: map<Id, Log>, l: Loop, r: Record, at: Time) {
    && r.id in rows && r.id in logs
    && r.event == rows[r.id].event
    && MadeAt(logs[r.id], l, r.attempt, at)
  }

  predicate DistinctRecords(batch: seq<Record>) {
    forall i, j :: 0 <= i < j < |batch| ==> batch[i].id != batch[j].id
  }

  predicate PhaseOk(c: Setup, s: State, w: Worker) {
    match w.phase
    case Ready => true
    case Acked => w.batch != [] && Taken(s.stream, w.batch[0].event.envelope.id)
    case Failing(kind, observed, next) =>
      w.batch != [] && w.claimedAt <= observed <= s.now && next == observed + Delay(c.policy, kind, w.batch[0].attempt)
  }

  predicate WorkerOk(c: Setup, s: State, l: Loop, w: Worker) {
    && DistinctRecords(w.batch)
    && (w.batch != [] ==> w.claimedAt <= s.now)
    && PhaseOk(c, s, w)
    && forall i :: 0 <= i < |w.batch| ==> RecordOk(s.rows, s.logs, l, w.batch[i], w.claimedAt)
  }

  predicate WorkersOk(c: Setup, s: State) {
    forall l :: l in s.workers ==> WorkerOk(c, s, l, s.workers[l])
  }

  /** The base invariant: it needs nothing of the worker ids. */
  predicate Inv(c: Setup, s: State) {
    TableOk(c, s) && WorkersOk(c, s)
  }

  // ---------- Nothing recorded is ever lost ----------

  predicate RowExtends(row: Row, log: Log, row': Row, log': Log) {
    row'.event == row.event && row'.createdAt == row.createdAt && log <= log'
  }

  predicate Extends(s: State, t: State) {
    && s.now <= t.now
    && s.stream <= t.stream
    && s.logs.Keys == s.rows.Keys && t.logs.Keys == t.rows.Keys
    && forall id :: id in s.rows ==> id in t.rows && RowExtends(s.rows[id], s.logs[id], t.rows[id], t.logs[id])
  }

  lemma MadeAtExtends(log: Log, log': Log, l: Loop, attempt: nat, at: Time)
    requires MadeAt(log, l, attempt, at) && log <= log'
    ensures MadeAt(log', l, attempt, at)
  {
    var i :| 0 <= i < |log| && ClaimBy(log, i, l, attempt) && log[i].at == at;
    assert ClaimBy(log', i, l, attempt);
  }

  lemma TakenExtends(stream: seq<Entry>, stream': seq<Entry>, msgId: string)
    requires Taken(stream, msgId) && stream <= stream'
    ensures Taken(stream', msgId)
  {
    var k :| 0 <= k < |stream| && stream[k].message.msgId == msgId;
    assert stream'[k].message.msgId == msgId;
  }

  lemma WorkerExtends(c: Setup, s: State, t: State, l: Loop, w: Worker)
    requires WorkerOk(c, s, l, w) && Extends(s, t)
    ensures WorkerOk(c, t, l, w)
  {
    forall i | 0 <= i < |w.batch|
      ensures RecordOk(t.rows, t.logs, l, w.batch[i], w.claimedAt)
    {
      var r := w.batch[i];
      assert RecordOk(s.rows, s.logs, l, r, w.claimedAt);
      MadeAtExtends(s.logs[r.id], t.logs[r.id], l, r.attempt, w.claimedAt);
    }
    if w.phase.Acked? {
      TakenExtends(s.stream, t.stream, w.batch[0].event.envelope.id);
    }
  }

  // ---------- Row transitions ----------

  lemma ClaimedRowOk(c: Setup, now: Time, row: Row, log: Log, l: Loop)
    requires ValidPolicy(c.policy) && RowOk(c, now, row, log) && Eligible(row, now)
    ensures var lease := LeaseLength(c.policy);
      RowOk(c, now, ClaimRow(row, c.own(l), now, lease),
            log + [Leased(now, l, row.attempts + 1, now + lease, row.status.Publishing?)])
  {
    var lease := LeaseLength(c.policy);
    LegalAppend(c, row.createdAt, log, Leased(now, l, row.attempts + 1, now + lease, row.status.Publishing?));
  }

  lemma CompletedRowOk(c: Setup, now: Time, row: Row, log: Log, l: Loop, claimed: nat)
    requires RowOk(c, now, row, log) && row.status.Publishing? && row.leaseOwner == Some(c.own(l))
    ensures RowOk(c, now, CompleteRow(row, now), log + [Completed(now, l, row.attempts, claimed)])
  {
    assert log != [] && log[|log| - 1].Leased?;
    LegalAppend(c, row.createdAt, log, Completed(now, l, row.attempts, claimed));
  }

  lemma FailedRowOk(c: Setup, now: Time, row: Row, log: Log, l: Loop, claimed: nat, f: Phase, code: string)
    requires RowOk(c, now, row, log) && row.status.Publishing? && row.leaseOwner == Some(c.own(l))
    requires f.Failing? && f.observed <= now && f.next == f.observed + Delay(c.policy, f.kind, claimed)
    ensures RowOk(c, now, FailRow(row, f.kind, c.policy.maxAttempts, f.next, code, now),
                  log + [Failed(now, l, row.attempts, claimed, f.observed, f.kind, f.next)])
  {
    assert log != [] && log[|log| - 1].Leased?;
    LegalAppend(c, row.createdAt, log, Failed(now, l, row.attempts, claimed, f.observed, f.kind, f.next));
  }

  // ---------- Steps ----------

  /** Only the rows in `ids` gained one fact each, and these rows are all right; nothing else in the table changed. */
  lemma TableStep(c: Setup, s: State, t: State, ids: set<Id>)
    requires TableOk(c, s) && ids <= s.rows.Keys
    requires s.now == t.now && s.stream <= t.stream
    requires t.rows.Keys == s.rows.Keys && t.logs.Keys == s.logs.Keys
    requires forall id :: id in s.rows && id !in ids ==> t.rows[id] == s.rows[id] && t.logs[id] == s.logs[id]
    requires forall id :: id in ids ==>
      RowOk(c, t.now, t.rows[id], t.logs[id]) && RowExtends(s.rows[id], s.logs[id], t.rows[id], t.logs[id])
    ensures TableOk(c, t) && Extends(s, t)
  {
  }

  lemma ClaimedEntry(c: Setup, s: State, l: Loop, chosen: set<Id>, id: Id)
    requires ValidPolicy(c.policy)
    requires id in chosen && id in s.rows && id in s.logs && Eligible(s.rows[id], s.now)
    requires RowOk(c, s.now, s.rows[id], s.logs[id])
    ensures var lease := LeaseLength(c.policy);
      var row, log := ClaimRows(s.rows, chosen, c.own(l), s.now, lease)[id], ClaimLogs(s, chosen, l, lease)[id];
      RowOk(c, s.now, row, log) && RowExtends(s.rows[id], s.logs[id], row, log)
  {
    ClaimedRowOk(c, s.now, s.rows[id], s.logs[id], l);
  }

  lemma ClaimTable(c: Setup, s: State, l: Loop, answer: seq<Id>, delivered: bool)
    requires ValidPolicy(c.policy) && TableOk(c, s)
    requires Members(answer) <= s.rows.Keys && forall id :: id in Members(answer) ==> Eligible(s.rows[id], s.now)
    ensures var t := ApplyClaim(c, s, l, answer, delivered); TableOk(c, t) && Extends(s, t)
  {
    var t, chosen := ApplyClaim(c, s, l, answer, delivered), Members(answer);
    assert t.rows.Keys == s.rows.Keys && t.logs.Keys == s.logs.Keys;
    forall id | id in chosen
      ensures RowOk(c, t.now, t.rows[id], t.logs[id]) && RowExtends(s.rows[id], s.logs[id], t.rows[id], t.logs[id])
    {
      ClaimedEntry(c, s, l, chosen, id);
    }
    TableStep(c, s, t, chosen);
  }

  lemma ClaimStep(c: Setup, s: State, l: Loop, locked: set<Id>, answer: seq<Id>, delivered: bool)
    requires ValidPolicy(c.policy) && Inv(c, s) && Enabled(c, s, Claim(l, locked, answer, delivered))
    ensures var t := ApplyClaim(c, s, l, answer, delivered);
      TableOk(c, t) && Extends(s, t) && WorkerOk(c, t, l, WorkerOf(t, l))
  {
    assert Members(answer) <= Candidates(s.rows, s.now, locked);
    ClaimTable(c, s, l, answer, delivered);
    if delivered {
      ClaimedBatchOk(c, s, l, answer);
    }
  }

  lemma ClaimedBatchOk(c: Setup, s: State, l: Loop, answer: seq<Id>)
    requires TableOk(c, s) && Distinct(answer) && Members(answer) <= s.rows.Keys
    ensures var t := ApplyClaim(c, s, l, answer, true); WorkerOk(c, t, l, WorkerOf(t, l))
  {
    var t := ApplyClaim(c, s, l, answer, true);
    var w := WorkerOf(t, l);
    forall i | 0 <= i < |w.batch|
      ensures RecordOk(t.rows, t.logs, l, w.batch[i], s.now)
    {
      var id := answer[i];
      assert id in Members(answer);
      assert ClaimBy(t.logs[id], |s.logs[id]|, l, w.batch[i].attempt);
    }
  }

  lemma MarkPublishedStep(c: Setup, s: State, l: Loop, reaches: bool, reported: bool)
    requires Inv(c, s) && Enabled(c, s, MarkPublished(l, reaches, reported))
    ensures var t := ApplyMarkPublished(c, s, l, reaches, reported); TableOk(c, t) && Extends(s, t)
  {
    var t := ApplyMarkPublished(c, s, l, reaches, reported);
    var r := WorkerOf(s, l).batch[0];
    if reaches && Fence(s.rows, r.id, c.own(l)) {
      CompletedRowOk(c, s.now, s.rows[r.id], s.logs[r.id], l, r.attempt);
      TableStep(c, s, t, {r.id});
    } else {
      TableStep(c, s, t, {});
    }
  }

  lemma MarkFailedStep(c: Setup, s: State, l: Loop, reaches: bool, reported: bool)
    requires Inv(c, s) && Enabled(c, s, MarkFailed(l, reaches, reported))
    ensures var t := ApplyMarkFailed(c, s, l, reaches, reported); TableOk(c, t) && Extends(s, t)
  {
    var t := ApplyMarkFailed(c, s, l, reaches, reported);
    var w := WorkerOf(s, l);
    var r := w.batch[0];
    assert WorkerOk(c, s, l, w);
    if reaches && Fence(s.rows, r.id, c.own(l)) {
      FailedRowOk(c, s.now, s.rows[r.id], s.logs[r.id], l, r.attempt, w.phase, ErrorCode(w.phase.kind));
      TableStep(c, s, t, {r.id});
    } else {
      TableStep(c, s, t, {});
    }
  }

  /** A loop that moves on to the next record, or drops its batch, remembers nothing it did not remember before. */
  lemma SettledWorkerOk(c: Setup, s: State, t: State, l: Loop, w: Worker, reported: bool)
    requires WorkerOk(c, s, l, w) && Extends(s, t) && w.batch != []
    ensures WorkerOk(c, t, l, AfterSettling(w, reported))
  {
    WorkerExtends(c, s, t, l, w);
    forall i | 0 <= i < |w.batch[1..]|
      ensures RecordOk(t.rows, t.logs, l, w.batch[1..][i], w.claimedAt)
    {
      assert w.batch[1..][i] == w.batch[i + 1];
    }
  }

  lemma PublishStep(c: Setup, s: State, l: Loop, appended: bool, acked: bool)
    requires Inv(c, s) && Enabled(c, s, Publish(l, appended, acked))
    ensures var t := ApplyPublish(c, s, l, appended, acked);
      TableOk(c, t) && Extends(s, t) && WorkerOk(c, t, l, WorkerOf(t, l))
  {
    var t := ApplyPublish(c, s, l, appended, acked);
    var w := WorkerOf(s, l);
    TableStep(c, s, t, {});
    WorkerExtends(c, s, t, l, w);
    if acked && appended {
      assert t.stream[|s.stream|].message.msgId == w.batch[0].event.envelope.id;
    }
  }

  lemma InsertedTable(c: Setup, s: State, id: Id, row: Row)
    requires TableOk(c, s) && id !in s.rows && RowOk(c, s.now, row, [])
    ensures var t := s.(rows := s.rows[id := row], logs := s.logs[id := []]); TableOk(c, t) && Extends(s, t)
  {
  }

  lemma InsertStep(c: Setup, s: State, e: Event.Envelope, began: Time)
    requires TableOk(c, s) && Enabled(c, s, Insert(e, began))
    ensures TableOk(c, Apply(c, s, Insert(e, began))) && Extends(s, Apply(c, s, Insert(e, began)))
  {
    InsertedTable(c, s, Uuid.Key(e.id), NewRow(Stored(e, Event.SubjectOf(e.eventType, e.version)), began));
  }

  /** Every step keeps the table invariant and extends what was recorded. */
  lemma StepExtends(c: Setup, s: State, step: Step)
    requires ValidPolicy(c.policy) && Inv(c, s) && Enabled(c, s, step)
    ensures TableOk(c, Apply(c, s, step)) && Extends(s, Apply(c, s, step))
  {
    match step
    case Claim(l, locked, answer, delivered) => ClaimStep(c, s, l, locked, answer, delivered);
    case Publish(l, appended, acked) => PublishStep(c, s, l, appended, acked);
    case MarkPublished(l, reaches, reported) => MarkPublishedStep(c, s, l, reaches, reported);
    case MarkFailed(l, reaches, reported) => MarkFailedStep(c, s, l, reaches, reported);
    case EncodeFails(l) => TableStep(c, s, Apply(c, s, step), {});
    case Abandon(l) => TableStep(c, s, Apply(c, s, step), {});
    case ExternalPublish(m) => TableStep(c, s, Apply(c, s, step), {});
    case Insert(e, began) => InsertStep(c, s, e, began);
    case Tick(to) =>
  }

  /** The loop that a step belongs to, if any. */
  function Actor(step: Step): Option<Loop> {
    match step
    case Claim(l, _, _, _) => Some(l)
    case EncodeFails(l) => Some(l)
    case Publish(l, _, _) => Some(l)
    case MarkPublished(l, _, _) => Some(l)
    case MarkFailed(l, _, _) => Some(l)
    case Abandon(l) => Some(l)
    case _ => None
  }

  lemma OthersKeep(c: Setup, s: State, step: Step, l: Loop)
    requires Enabled(c, s, step) && Actor(step) != Some(l)
    ensures WorkerOf(Apply(c, s, step), l) == WorkerOf(s, l)
  {
  }

  lemma ActorOk(c: Setup, s: State, step: Step, l: Loop)
    requires ValidPolicy(c.policy) && Inv(c, s) && Enabled(c, s, step) && Actor(step) == Some(l)
    ensures WorkerOk(c, Apply(c, s, step), l, WorkerOf(Apply(c, s, step), l))
  {
    var t, w := Apply(c, s, step), WorkerOf(s, l);
    StepExtends(c, s, step);
    match step
    case Claim(_, locked, answer, delivered) => ClaimStep(c, s, l, locked, answer, delivered);
    case Publish(_, appended, acked) => PublishStep(c, s, l, appended, acked);
    case MarkPublished(_, _, reported) => SettledWorkerOk(c, s, t, l, w, reported);
    case MarkFailed(_, _, reported) => SettledWorkerOk(c, s, t, l, w, reported);
    case EncodeFails(_) => WorkerExtends(c, s, t, l, w);
    case Abandon(_) =>
  }

  /** The invariant is inductive. */
  lemma StepInv(c: Setup, s: State, step: Step)
    requires ValidPolicy(c.policy) && Inv(c, s) && Enabled(c, s, step)
    ensures Inv(c, Apply(c, s, step)) && Extends(s, Apply(c, s, step))
  {
    var t := Apply(c, s, step);
    StepExtends(c, s, step);
    forall l | l in t.workers
      ensures WorkerOk(c, t, l, t.workers[l])
    {
      if Actor(step) == Some(l) {
        ActorOk(c, s, step, l);
      } else {
        OthersKeep(c, s, step, l);
        WorkerExtends(c, s, t, l, WorkerOf(s, l));
      }
    }
  }
}
