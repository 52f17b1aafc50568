/**
 The leased outbox as a state machine: any number of relay loops share one table and one stream. Each step is one
 atomic action of the source - a committed statement, a broker call, a reading of the clock - together with what the
 environment decided about it: whether it took effect and whether the caller was told.
 */
module OutboxMachine {

  import opened Wrappers
  import opened OutboxTable
  import opened RetryPolicy
  import Event
  import Uuid

  /** A running relay loop. */
  type Loop = nat

  /** RelayConfig, as far as it shapes behaviour; durations in nanoseconds. */
  datatype Policy = Policy(lease: int, batchSize: nat, maxAttempts: nat, base: int, max: int)

  /** What NewRelay demands of a configuration; durations are 64-bit integers. */
  predicate ValidPolicy(p: Policy) {
    && 0 < p.lease <= MAX_DURATION && 1 <= p.batchSize <= 1000 && p.maxAttempts >= 1
    && 0 < p.base <= p.max <= MAX_DURATION
  }

  /** The lease interval that a claim under this policy stores. */
  function LeaseLength(p: Policy): int {
    Microseconds(p.lease)
  }

  /** A deployment: one policy for all relays, and the worker id each loop writes into its leases. */
  datatype Setup = Setup(policy: Policy, own: Loop -> WorkerId)

  /** No two loops share a worker id. */
  ghost predicate DistinctOwners(c: Setup) {
    forall k, l :: c.own(k) == c.own(l) ==> k == l
  }

  // ---------- Stream ----------

  /**
   Message content: an encoded envelope, or anything else that some other publisher wrote; `id` is what an attempt to
   decode such content leaves in the envelope's id.
   */
  datatype Data = Encoded(envelope: Event.Envelope) | Garbage(text: string, id: string)

  datatype Message = Message(subject: string, msgId: string, data: Data)

  /** Who appended a stream entry; a history label that no step reads. */
  datatype Origin = Relayed(id: Id, attempt: nat, loop: Loop) | External

  datatype Entry = Entry(message: Message, origin: Origin)

  function MessageOf(e: Stored): Message {
    Message(e.subject, e.envelope.id, Encoded(e.envelope))
  }

  /** Some message is stored under this message id - by whomever, and whatever it says. */
  predicate Taken(stream: seq<Entry>, msgId: string) {
    exists k :: 0 <= k < |stream| && stream[k].message.msgId == msgId
  }

  // ---------- History ----------

  /**
   What has happened to a row, oldest first. `count` is the row's attempt count when the fact was recorded;
   `claimed` is the attempt number that the settling loop remembered; `observed` is when it saw the failure.
   */
  datatype Fact =
    | Leased(at: Time, loop: Loop, count: nat, expires: Time, reclaim: bool)
    | Failed(at: Time, loop: Loop, count: nat, claimed: nat, observed: Time, kind: FailureClass, next: Time)
    | Completed(at: Time, loop: Loop, count: nat, claimed: nat)

  type Log = seq<Fact>

  // ---------- Workers ----------

  /** A claimed record: what Claim returned for one row. */
  datatype Record = Record(id: Id, event: Stored, attempt: nat)

  /** Where a loop stands with the first record of its batch. */
  datatype Phase = Ready | Acked | Failing(kind: FailureClass, observed: Time, next: Time)

  /** `claimedAt` is history: when the batch was claimed. */
  datatype Worker = Worker(batch: seq<Record>, phase: Phase, claimedAt: Time)

  const IDLE := Worker([], Ready, 0)

  datatype State = State(
    now: Time,
    rows: Table,
    logs: map<Id, Log>,
    workers: map<Loop, Worker>,
    stream: seq<Entry>)

  predicate Init(s: State) {
    s.rows == map[] && s.logs == map[] && s.workers == map[] && s.stream == []
  }

  function WorkerOf(s: State, l: Loop): Worker {
    if l in s.workers then s.workers[l] else IDLE
  }

  // ---------- Steps ----------

  /**
   A publish is acknowledged if it is appended or if its message id is taken: the broker recognises duplicates by that
   id alone. `Insert` commits a transaction that began at `began`: the new row carries that earlier time, so it may
   sort before rows that were committed first.
   */
  datatype Step =
    | Tick(to: Time)
    | Insert(envelope: Event.Envelope, began: Time)
    | Claim(loop: Loop, locked: set<Id>, answer: seq<Id>, delivered: bool)
    | EncodeFails(loop: Loop)
    | Publish(loop: Loop, appended: bool, acked: bool)
    | MarkPublished(loop: Loop, reaches: bool, reported: bool)
    | MarkFailed(loop: Loop, reaches: bool, reported: bool)
    | Abandon(loop: Loop)
    | ExternalPublish(message: Message)

  /** The wait before a failed attempt may be tried again; a permanent failure is stamped with the present. */
  function Delay(p: Policy, kind: FailureClass, attempt: nat): int {
    if kind.Permanent? then 0 else Capped(p.base, p.max, attempt)
  }

  function ErrorCode(kind: FailureClass): string {
    if kind.Permanent? then "event_encoding_failed" else "nats_publish_failed"
  }

  function RecordsOf(rows: Table, ids: seq<Id>): (rs: seq<Record>)
    requires Members(ids) <= rows.Keys
    ensures |rs| == |ids|
  {
    seq(|ids|, i requires 0 <= i < |ids| =>
      assert ids[i] in Members(ids); Record(ids[i], rows[ids[i]].event, rows[ids[i]].attempts))
  }

  predicate Enabled(c: Setup, s: State, step: Step) {
    match step
    case Tick(to) => s.now <= to
    case Insert(e, began) => began <= s.now && InsertRow(s.rows, e, began).Ok?
    case Claim(l, locked, answer, _) =>
      WorkerOf(s, l).batch == [] && Returning(s.rows, s.now, locked, c.policy.batchSize, answer)
    case EncodeFails(l) => WorkerOf(s, l).batch != [] && WorkerOf(s, l).phase.Ready?
    case Publish(l, appended, acked) =>
      && WorkerOf(s, l).batch != [] && WorkerOf(s, l).phase.Ready?
      && (acked ==> appended || Taken(s.stream, WorkerOf(s, l).batch[0].event.envelope.id))
    case MarkPublished(l, reaches, reported) =>
      && WorkerOf(s, l).batch != [] && WorkerOf(s, l).phase.Acked?
      && (reported ==> reaches && Fence(s.rows, WorkerOf(s, l).batch[0].id, c.own(l)))
    case MarkFailed(l, reaches, reported) =>
      && WorkerOf(s, l).batch != [] && WorkerOf(s, l).phase.Failing?
      && (reported ==> reaches && Fence(s.rows, WorkerOf(s, l).batch[0].id, c.own(l)))
    case Abandon(_) => true
    case ExternalPublish(_) => true
  }

  /** The loop after a settling call: the next record if success was reported, the end of the batch otherwise. */
  function AfterSettling(w: Worker, reported: bool): Worker
    requires w.batch != []
  {
    if reported then w.(batch := w.batch[1..], phase := Ready) else IDLE
  }

  function ClaimLogs(s: State, chosen: set<Id>, l: Loop, lease: int): map<Id, Log> {
    map id | id in s.logs ::
      if id in chosen && id in s.rows then
        s.logs[id] + [Leased(s.now, l, s.rows[id].attempts + 1, s.now + lease, s.rows[id].status.Publishing?)]
      else s.logs[id]
  }

  function Append(logs: map<Id, Log>, id: Id, f: Fact): map<Id, Log> {
    logs[id := (if id in logs then logs[id] else []) + [f]]
  }

  function ApplyClaim(c: Setup, s: State, l: Loop, answer: seq<Id>, delivered: bool): State
    requires Members(answer) <= s.rows.Keys
  {
    var lease := LeaseLength(c.policy);
    var rows := ClaimRows(s.rows, Members(answer), c.own(l), s.now, lease);
    s.(rows := rows, logs := ClaimLogs(s, Members(answer), l, lease),
       workers := s.workers[l := if delivered then Worker(RecordsOf(rows, answer), Ready, s.now) else IDLE])
  }

  function ApplyPublish(c: Setup, s: State, l: Loop, appended: bool, acked: bool): State
    requires WorkerOf(s, l).batch != []
  {
    var w := WorkerOf(s, l);
    var r := w.batch[0];
    var phase := if acked then Acked else Failing(Transient, s.now, s.now + Delay(c.policy, Transient, r.attempt));
    s.(stream := if appended then s.stream + [Entry(MessageOf(r.event), Relayed(r.id, r.attempt, l))] else s.stream,
       workers := s.workers[l := w.(phase := phase)])
  }

  function ApplyMarkPublished(c: Setup, s: State, l: Loop, reaches: bool, reported: bool): State
    requires WorkerOf(s, l).batch != []
  {
    var w := WorkerOf(s, l);
    var r := w.batch[0];
    var t := s.(workers := s.workers[l := AfterSettling(w, reported)]);
    if reaches && Fence(s.rows, r.id, c.own(l)) then
      t.(rows := s.rows[r.id := CompleteRow(s.rows[r.id], s.now)],
         logs := Append(s.logs, r.id, Completed(s.now, l, s.rows[r.id].attempts, r.attempt)))
    else t
  }

  function ApplyMarkFailed(c: Setup, s: State, l: Loop, reaches: bool, reported: bool): State
    requires WorkerOf(s, l).batch != [] && WorkerOf(s, l).phase.Failing?
  {
    var w := WorkerOf(s, l);
    var r, f := w.batch[0], w.phase;
    var t := s.(workers := s.workers[l := AfterSettling(w, reported)]);
    if reaches && Fence(s.rows, r.id, c.own(l)) then
      var row := FailRow(s.rows[r.id], f.kind, c.policy.maxAttempts, f.next, ErrorCode(f.kind), s.now);
      t.(rows := s.rows[r.id := row],
         logs := Append(s.logs, r.id, Failed(s.now, l, row.attempts, r.attempt, f.observed, f.kind, f.next)))
    else t
  }

  function Apply(c: Setup, s: State, step: Step): State
    requires Enabled(c, s, step)
  {
    match step
    case Tick(to) => s.(now := to)
    case Insert(e, began) =>
      var id := Uuid.Key(e.id);
      s.(rows := InsertRow(s.rows, e, began).value, logs := s.logs[id := []])
    case Claim(l, locked, answer, delivered) => ApplyClaim(c, s, l, answer, delivered)
    case EncodeFails(l) =>
      s.(workers := s.workers[l := WorkerOf(s, l).(phase := Failing(Permanent, s.now, s.now))])
    case Publish(l, appended, acked) => ApplyPublish(c, s, l, appended, acked)
    case MarkPublished(l, reaches, reported) => ApplyMarkPublished(c, s, l, reaches, reported)
    case MarkFailed(l, reaches, reported) => ApplyMarkFailed(c, s, l, reaches, reported)
    case Abandon(l) => s.(workers := s.workers[l := IDLE])
    case ExternalPublish(m) => s.(stream := s.stream + [Entry(m, External)])
  }

  // ---------- Runs ----------

  predicate IsRun(c: Setup, ss: seq<State>, steps: seq<Step>) {
    && |ss| == |steps| + 1
    && forall i :: 0 <= i < |steps| ==> Enabled(c, ss[i], steps[i]) && ss[i + 1] == Apply(c, ss[i], steps[i])
  }

  /** The claims among the first `n` steps. */
  function Claims(steps: seq<Step>, n: nat): nat
    requires n <= |steps|
  {
    if n == 0 then 0 else Claims(steps, n - 1) + (if steps[n - 1].Claim? then 1 else 0)
  }

  /** Some run leads from `s` to `t`. */
  ghost predicate Leads(c: Setup, s: State, t: State) {
    exists ss: seq<State>, steps: seq<Step> :: IsRun(c, ss, steps) && ss[0] == s && ss[|steps|] == t
  }

  ghost predicate Reachable(c: Setup, s: State) {
    exists s0: State :: Init(s0) && Leads(c, s0, s)
  }

  lemma LeadsNowhere(c: Setup, s: State)
    ensures Leads(c, s, s)
  {
    assert IsRun(c, [s], []);
  }

  lemma LeadsBy(c: Setup, s: State, step: Step)
    requires Enabled(c, s, step)
    ensures Leads(c, s, Apply(c, s, step))
  {
    assert IsRun(c, [s, Apply(c, s, step)], [step]);
  }

  lemma LeadsThrough(c: Setup, s: State, t: State, u: State)
    requires Leads(c, s, t) && Leads(c, t, u)
    ensures Leads(c, s, u)
  {
    var ss: seq<State>, steps: seq<Step> :| IsRun(c, ss, steps) && ss[0] == s && ss[|steps|] == t;
    var ts: seq<State>, more: seq<Step> :| IsRun(c, ts, more) && ts[0] == t && ts[|more|] == u;
    var all, states := steps + more, ss[..|steps|] + ts;
    forall i | 0 <= i < |all|
      ensures Enabled(c, states[i], all[i]) && states[i + 1] == Apply(c, states[i], all[i])
    {
      if i >= |steps| {
        assert states[i] == ts[i - |steps|];
      }
    }
    assert IsRun(c, states, all);
  }
}
