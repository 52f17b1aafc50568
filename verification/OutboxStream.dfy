/**
 The stream against the table: every published row's id is taken in the stream, everything a relay appended comes from a
 committed row, and a row is never copied more often than it was attempted.
 */
module OutboxStream {

  import opened Wrappers
  import opened OutboxTable
  import opened OutboxMachine
  import opened OutboxHistory
  import opened OutboxInvariants
  import Event

  /** A relayed entry is the message of a committed row, sent under a claim that the row's history records. */
  predicate EntryOk(rows: Table, logs: map<Id, Log>, entry: Entry) {
    entry.origin.Relayed? ==>
      && entry.origin.id in rows && entry.origin.id in logs
      && entry.message == MessageOf(rows[entry.origin.id].event)
      && Made(logs[entry.origin.id], entry.origin.loop, entry.origin.attempt)
  }

  predicate IsCopy(entry: Entry, id: Id, attempt: nat) {
    entry.origin.Relayed? && entry.origin.id == id && entry.origin.attempt == attempt
  }

  /** No attempt of a row has put two copies into the stream. */
  predicate DistinctCopies(stream: seq<Entry>) {
    forall i, j :: 0 <= i < j < |stream| && stream[i].origin.Relayed? && stream[j].origin.Relayed? ==>
      stream[i].origin.id == stream[j].origin.id ==> stream[i].origin.attempt != stream[j].origin.attempt
  }

  predicate NotCopied(stream: seq<Entry>, id: Id, attempt: nat) {
    forall k :: 0 <= k < |stream| ==> !IsCopy(stream[k], id, attempt)
  }

  /** What a loop has not published yet is not in the stream. */
  predicate Unsent(stream: seq<Entry>, w: Worker) {
    forall i :: 0 <= i < |w.batch| && (i > 0 || w.phase.Ready?) ==>
      NotCopied(stream, w.batch[i].id, w.batch[i].attempt)
  }

  predicate EntriesOk(s: State) {
    && (forall k :: 0 <= k < |s.stream| ==> EntryOk(s.rows, s.logs, s.stream[k]))
    && DistinctCopies(s.stream)
  }

  predicate UnsentOk(s: State) {
    forall l :: l in s.workers ==> Unsent(s.stream, s.workers[l])
  }

  predicate PublishedOk(s: State) {
    forall id :: id in s.rows && s.rows[id].status.Published? ==> Taken(s.stream, s.rows[id].event.envelope.id)
  }

  predicate IdentityOk(s: State) {
    forall id :: id in s.rows ==> Identity(id, s.rows[id].event)
  }

  predicate StreamInv(s: State) {
    EntriesOk(s) && UnsentOk(s) && PublishedOk(s)
  }

  // ---------- Claims and copies ----------

  lemma MadeExtends(log: Log, log': Log, l: Loop, attempt: nat)
    requires Made(log, l, attempt) && log <= log'
    ensures Made(log', l, attempt)
  {
    var i :| 0 <= i < |log| && ClaimBy(log, i, l, attempt);
    assert ClaimBy(log', i, l, attempt);
  }

  lemma EntryExtends(s: State, t: State, entry: Entry)
    requires Extends(s, t) && EntryOk(s.rows, s.logs, entry)
    ensures EntryOk(t.rows, t.logs, entry)
  {
    if entry.origin.Relayed? {
      var id := entry.origin.id;
      assert RowExtends(s.rows[id], s.logs[id], t.rows[id], t.logs[id]);
      MadeExtends(s.logs[id], t.logs[id], entry.origin.loop, entry.origin.attempt);
    }
  }

  /** One attempt number, one loop. */
  lemma MadeOnce(c: Setup, created: Time, log: Log, k: Loop, l: Loop, attempt: nat)
    requires Legal(c, created, log) && Made(log, k, attempt) && Made(log, l, attempt)
    ensures k == l
  {
    var i :| 0 <= i < |log| && ClaimBy(log, i, k, attempt);
    var j :| 0 <= j < |log| && ClaimBy(log, j, l, attempt);
    ClaimsDiffer(c, created, log, i, j);
  }

  lemma MadeBound(c: Setup, created: Time, log: Log, l: Loop, attempt: nat)
    requires Legal(c, created, log) && Made(log, l, attempt)
    ensures 1 <= attempt <= LastCount(log)
  {
    var i :| 0 <= i < |log| && ClaimBy(log, i, l, attempt);
    if i > 0 {
      Growth(c, created, log, 0, i);
    }
    assert LegalAt(c, created, log, 0);
    if i < |log| - 1 {
      Growth(c, created, log, i, |log| - 1);
    }
  }

  lemma RecordMade(rows: Table, logs: map<Id, Log>, l: Loop, r: Record, at: Time)
    requires RecordOk(rows, logs, l, r, at)
    ensures Made(logs[r.id], l, r.attempt)
  {
    var log := logs[r.id];
    var i :| 0 <= i < |log| && ClaimBy(log, i, l, r.attempt) && log[i].at == at;
  }

  /** An attempt number above the row's count cannot be in the stream yet. */
  lemma FreshAttempt(c: Setup, s: State, id: Id, attempt: nat)
    requires TableOk(c, s) && EntriesOk(s) && id in s.rows && attempt > s.rows[id].attempts
    ensures NotCopied(s.stream, id, attempt)
  {
    forall k | 0 <= k < |s.stream|
      ensures !IsCopy(s.stream[k], id, attempt)
    {
      var o := s.stream[k].origin;
      assert EntryOk(s.rows, s.logs, s.stream[k]);
      if o.Relayed? && o.id == id {
        assert RowOk(c, s.now, s.rows[id], s.logs[id]);
        MadeBound(c, s.rows[id].createdAt, s.logs[id], o.loop, o.attempt);
      }
    }
  }

  // ---------- Entries ----------

  /** A loop about to publish: its copy is the first of its attempt, and not one that another loop still owes. */
  lemma PublishedEntry(c: Setup, s: State, l: Loop)
    requires Inv(c, s) && StreamInv(s) && WorkerOf(s, l).batch != [] && WorkerOf(s, l).phase.Ready?
    ensures var r := WorkerOf(s, l).batch[0];
      var entry := Entry(MessageOf(r.event), Relayed(r.id, r.attempt, l));
      EntryOk(s.rows, s.logs, entry) && DistinctCopies(s.stream + [entry])
  {
    var w := WorkerOf(s, l);
    var r := w.batch[0];
    assert WorkerOk(c, s, l, w) && Unsent(s.stream, w);
    assert RecordOk(s.rows, s.logs, l, r, w.claimedAt);
    RecordMade(s.rows, s.logs, l, r, w.claimedAt);
    assert NotCopied(s.stream, r.id, r.attempt);
    assert forall k :: 0 <= k < |s.stream| ==> !IsCopy(s.stream[k], r.id, r.attempt);
  }

  lemma SameEntries(s: State, t: State)
    requires EntriesOk(s) && Extends(s, t) && t.stream == s.stream
    ensures EntriesOk(t)
  {
    forall k | 0 <= k < |t.stream|
      ensures EntryOk(t.rows, t.logs, t.stream[k])
    {
      EntryExtends(s, t, s.stream[k]);
    }
  }

  lemma NewEntry(s: State, t: State, entry: Entry)
    requires EntriesOk(s) && Extends(s, t) && t.stream == s.stream + [entry]
    requires EntryOk(s.rows, s.logs, entry) && DistinctCopies(t.stream)
    ensures EntriesOk(t)
  {
    forall k | 0 <= k < |t.stream|
      ensures EntryOk(t.rows, t.logs, t.stream[k])
    {
      EntryExtends(s, t, if k < |s.stream| then s.stream[k] else entry);
    }
  }

  lemma StepEntries(c: Setup, s: State, step: Step)
    requires ValidPolicy(c.policy) && Inv(c, s) && StreamInv(s) && Enabled(c, s, step)
    ensures EntriesOk(Apply(c, s, step))
  {
    var t := Apply(c, s, step);
    StepExtends(c, s, step);
    if step.Publish? && step.appended {
      PublishedEntry(c, s, step.loop);
      NewEntry(s, t, t.stream[|s.stream|]);
    } else if step.ExternalPublish? {
      NewEntry(s, t, Entry(step.message, External));
    } else {
      SameEntries(s, t);
    }
  }

  // ---------- Unsent records ----------

  lemma OneMoreEntry(stream: seq<Entry>, entry: Entry, w: Worker)
    requires Unsent(stream, w)
    requires forall i :: 0 <= i < |w.batch| && (i > 0 || w.phase.Ready?) ==>
      !IsCopy(entry, w.batch[i].id, w.batch[i].attempt)
    ensures Unsent(stream + [entry], w)
  {
    forall i | 0 <= i < |w.batch| && (i > 0 || w.phase.Ready?)
      ensures NotCopied(stream + [entry], w.batch[i].id, w.batch[i].attempt)
    {
      assert NotCopied(stream, w.batch[i].id, w.batch[i].attempt);
    }
  }

  lemma OtherLoopUnsent(c: Setup, s: State, l: Loop, k: Loop)
    requires Inv(c, s) && StreamInv(s) && k != l && WorkerOf(s, l).batch != []
    ensures var r := WorkerOf(s, l).batch[0];
      Unsent(s.stream + [Entry(MessageOf(r.event), Relayed(r.id, r.attempt, l))], WorkerOf(s, k))
  {
    var w, v := WorkerOf(s, l), WorkerOf(s, k);
    var r := w.batch[0];
    assert WorkerOk(c, s, l, w) && WorkerOk(c, s, k, v);
    assert RecordOk(s.rows, s.logs, l, r, w.claimedAt);
    RecordMade(s.rows, s.logs, l, r, w.claimedAt);
    var entry := Entry(MessageOf(r.event), Relayed(r.id, r.attempt, l));
    forall i | 0 <= i < |v.batch|
      ensures !IsCopy(entry, v.batch[i].id, v.batch[i].attempt)
    {
      var q := v.batch[i];
      if q.id == r.id && q.attempt == r.attempt {
        assert RecordOk(s.rows, s.logs, k, q, v.claimedAt);
        RecordMade(s.rows, s.logs, k, q, v.claimedAt);
        assert RowOk(c, s.now, s.rows[r.id], s.logs[r.id]);
        MadeOnce(c, s.rows[r.id].createdAt, s.logs[r.id], k, l, r.attempt);
        assert false;
      }
    }
    OneMoreEntry(s.stream, entry, v);
  }

  lemma OwnUnsent(c: Setup, s: State, l: Loop, appended: bool, acked: bool)
    requires Inv(c, s) && StreamInv(s) && Enabled(c, s, Publish(l, appended, acked))
    ensures var t := ApplyPublish(c, s, l, appended, acked); Unsent(t.stream, WorkerOf(t, l))
  {
    var t := ApplyPublish(c, s, l, appended, acked);
    var w := WorkerOf(s, l);
    assert WorkerOk(c, s, l, w) && Unsent(s.stream, w);
    if appended {
      OneMoreEntry(s.stream, t.stream[|s.stream|], WorkerOf(t, l));
    }
  }

  lemma ClaimedUnsent(c: Setup, s: State, l: Loop, answer: seq<Id>, delivered: bool)
    requires Inv(c, s) && StreamInv(s) && Members(answer) <= s.rows.Keys
    ensures var t := ApplyClaim(c, s, l, answer, delivered); Unsent(t.stream, WorkerOf(t, l))
  {
    var t := ApplyClaim(c, s, l, answer, delivered);
    var w := WorkerOf(t, l);
    forall i | 0 <= i < |w.batch|
      ensures NotCopied(s.stream, w.batch[i].id, w.batch[i].attempt)
    {
      assert answer[i] in Members(answer);
      FreshAttempt(c, s, answer[i], w.batch[i].attempt);
    }
  }

  lemma SettledUnsent(stream: seq<Entry>, w: Worker, reported: bool)
    requires Unsent(stream, w) && w.batch != []
    ensures Unsent(stream, AfterSettling(w, reported))
  {
    forall i | 0 <= i < |w.batch[1..]|
      ensures NotCopied(stream, w.batch[1..][i].id, w.batch[1..][i].attempt)
    {
      assert w.batch[1..][i] == w.batch[i + 1];
    }
  }

  lemma ExternalUnsent(stream: seq<Entry>, m: Message, w: Worker)
    requires Unsent(stream, w)
    ensures Unsent(stream + [Entry(m, External)], w)
  {
    OneMoreEntry(stream, Entry(m, External), w);
  }

  lemma ActorUnsent(c: Setup, s: State, step: Step, l: Loop)
    requires Inv(c, s) && StreamInv(s) && Enabled(c, s, step) && Actor(step) == Some(l)
    ensures Unsent(Apply(c, s, step).stream, WorkerOf(Apply(c, s, step), l))
  {
    var w := WorkerOf(s, l);
    assert Unsent(s.stream, w);
    match step
    case Claim(_, locked, answer, delivered) => ClaimedUnsent(c, s, l, answer, delivered);
    case Publish(_, appended, acked) => OwnUnsent(c, s, l, appended, acked);
    case MarkPublished(_, _, reported) => SettledUnsent(s.stream, w, reported);
    case MarkFailed(_, _, reported) => SettledUnsent(s.stream, w, reported);
    case EncodeFails(_) =>
    case Abandon(_) =>
  }

  lemma StepUnsent(c: Setup, s: State, step: Step)
    requires Inv(c, s) && StreamInv(s) && Enabled(c, s, step)
    ensures UnsentOk(Apply(c, s, step))
  {
    var t := Apply(c, s, step);
    forall k | k in t.workers
      ensures Unsent(t.stream, t.workers[k])
    {
      if Actor(step) == Some(k) {
        ActorUnsent(c, s, step, k);
      } else {
        OthersKeep(c, s, step, k);
        assert Unsent(s.stream, WorkerOf(s, k));
        if step.Publish? && step.appended {
          OtherLoopUnsent(c, s, step.loop, k);
        } else if step.ExternalPublish? {
          ExternalUnsent(s.stream, step.message, WorkerOf(s, k));
        }
      }
    }
  }

  // ---------- Published rows ----------

  /** Only MarkPublished makes a row published, and only a row whose message the broker acknowledged. */
  lemma NewlyPublished(c: Setup, s: State, step: Step, id: Id)
    requires Inv(c, s) && Enabled(c, s, step)
    requires id in Apply(c, s, step).rows && Apply(c, s, step).rows[id].status.Published?
    ensures id in s.rows
    ensures s.rows[id].status.Published? || Taken(s.stream, s.rows[id].event.envelope.id)
  {
    if step.MarkPublished? {
      var w := WorkerOf(s, step.loop);
      assert WorkerOk(c, s, step.loop, w);
      assert RecordOk(s.rows, s.logs, step.loop, w.batch[0], w.claimedAt);
    }
  }

  lemma StepPublished(c: Setup, s: State, step: Step)
    requires ValidPolicy(c.policy) && Inv(c, s) && StreamInv(s) && Enabled(c, s, step)
    ensures PublishedOk(Apply(c, s, step))
  {
    var t := Apply(c, s, step);
    StepExtends(c, s, step);
    forall id | id in t.rows && t.rows[id].status.Published?
      ensures Taken(t.stream, t.rows[id].event.envelope.id)
    {
      NewlyPublished(c, s, step, id);
      assert RowExtends(s.rows[id], s.logs[id], t.rows[id], t.logs[id]);
      TakenExtends(s.stream, t.stream, s.rows[id].event.envelope.id);
    }
  }

  lemma InsertedIdentity(rows: Table, e: Event.Envelope, now: Time, id: Id)
    requires InsertRow(rows, e, now).Ok? && id in InsertRow(rows, e, now).value && id !in rows
    ensures Identity(id, InsertRow(rows, e, now).value[id].event)
  {
  }

  /** Only an insert adds a row. */
  lemma NewRowInserted(c: Setup, s: State, step: Step, id: Id)
    requires Enabled(c, s, step) && id in Apply(c, s, step).rows && id !in s.rows
    ensures step.Insert?
  {
  }

  lemma StepIdentity(c: Setup, s: State, step: Step)
    requires ValidPolicy(c.policy) && Inv(c, s) && IdentityOk(s) && Enabled(c, s, step)
    ensures IdentityOk(Apply(c, s, step))
  {
    StepExtends(c, s, step);
    forall id | id in Apply(c, s, step).rows
      ensures Identity(id, Apply(c, s, step).rows[id].event)
    {
      if id in s.rows {
        assert RowExtends(s.rows[id], s.logs[id], Apply(c, s, step).rows[id], Apply(c, s, step).logs[id]);
      } else {
        NewRowInserted(c, s, step, id);
        InsertedIdentity(s.rows, step.envelope, step.began, id);
      }
    }
  }

  lemma StepStream(c: Setup, s: State, step: Step)
    requires ValidPolicy(c.policy) && Inv(c, s) && StreamInv(s) && Enabled(c, s, step)
    ensures StreamInv(Apply(c, s, step))
  {
    StepEntries(c, s, step);
    StepUnsent(c, s, step);
    StepPublished(c, s, step);
  }

  // ---------- Counting copies ----------

  /** The copies of a row that relays put into the stream. */
  function Copies(stream: seq<Entry>, id: Id): nat {
    if stream == [] then 0
    else
      var last := stream[|stream| - 1].origin;
      Copies(stream[..|stream| - 1], id) + (if last.Relayed? && last.id == id then 1 else 0)
  }

  function AttemptsCopied(stream: seq<Entry>, id: Id): set<nat> {
    if stream == [] then {}
    else
      var last := stream[|stream| - 1].origin;
      AttemptsCopied(stream[..|stream| - 1], id) + (if last.Relayed? && last.id == id then {last.attempt} else {})
  }

  lemma {:induction false} CopyOfAttempt(stream: seq<Entry>, id: Id, attempt: nat) returns (k: nat)
    requires attempt in AttemptsCopied(stream, id)
    ensures k < |stream| && IsCopy(stream[k], id, attempt)
  {
    k := |stream| - 1;
    if !IsCopy(stream[k], id, attempt) {
      k := CopyOfAttempt(stream[..k], id, attempt);
    }
  }

  lemma {:induction false} CopiesAreAttempts(stream: seq<Entry>, id: Id)
    requires DistinctCopies(stream)
    ensures Copies(stream, id) == |AttemptsCopied(stream, id)|
  {
    if stream != [] {
      var n := |stream| - 1;
      var last := stream[n].origin;
      CopiesAreAttempts(stream[..n], id);
      if last.Relayed? && last.id == id && last.attempt in AttemptsCopied(stream[..n], id) {
        var k := CopyOfAttempt(stream[..n], id, last.attempt);
        assert false;
      }
    }
  }

  lemma {:induction false} RangeSize(a: set<nat>, n: nat)
    requires forall x :: x in a ==> 1 <= x <= n
    ensures |a| <= n
  {
    if n == 0 {
      assert a == {};
    } else {
      RangeSize(a - {n}, n - 1);
    }
  }

  /** Relays never put more copies of an event into the stream than its row was attempted. */
  lemma CopiesBounded(c: Setup, s: State, id: Id)
    requires TableOk(c, s) && EntriesOk(s) && id in s.rows
    ensures Copies(s.stream, id) <= s.rows[id].attempts
  {
    CopiesAreAttempts(s.stream, id);
    assert RowOk(c, s.now, s.rows[id], s.logs[id]);
    forall a | a in AttemptsCopied(s.stream, id)
      ensures 1 <= a <= s.rows[id].attempts
    {
      var k := CopyOfAttempt(s.stream, id, a);
      assert EntryOk(s.rows, s.logs, s.stream[k]);
      MadeBound(c, s.rows[id].createdAt, s.logs[id], s.stream[k].origin.loop, a);
    }
    RangeSize(AttemptsCopied(s.stream, id), s.rows[id].attempts);
  }
}
