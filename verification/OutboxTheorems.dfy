/** What holds of every run of the outbox, with any number of loops, crashes, lost leases and ambiguous calls. */
module OutboxTheorems {

  import opened OutboxTable
  import opened OutboxMachine
  import opened OutboxHistory
  import opened OutboxInvariants
  import opened OutboxFence
  import opened OutboxStream
  import opened RetryPolicy
  import Event
  import Uuid

  // ---------- From steps to runs ----------

  /** All that a state owes to its past, whatever the worker ids. */
  predicate Sound(c: Setup, s: State) {
    Inv(c, s) && StreamInv(s) && IdentityOk(s)
  }

  lemma {:induction false} RunSound(c: Setup, ss: seq<State>, steps: seq<Step>)
    requires ValidPolicy(c.policy) && IsRun(c, ss, steps) && Sound(c, ss[0])
    ensures Sound(c, ss[|steps|]) && Extends(ss[0], ss[|steps|])
  {
    if steps != [] {
      var n := |steps| - 1;
      RunSound(c, ss[..n + 1], steps[..n]);
      StepInv(c, ss[n], steps[n]);
      StepStream(c, ss[n], steps[n]);
      StepIdentity(c, ss[n], steps[n]);
      ExtendsTransitive(ss[0], ss[n], ss[n + 1]);
    }
  }

  lemma ExtendsTransitive(s: State, t: State, u: State)
    requires Extends(s, t) && Extends(t, u)
    ensures Extends(s, u)
  {
    forall id | id in s.rows
      ensures id in u.rows && RowExtends(s.rows[id], s.logs[id], u.rows[id], u.logs[id])
    {
      assert RowExtends(s.rows[id], s.logs[id], t.rows[id], t.logs[id]);
      assert RowExtends(t.rows[id], t.logs[id], u.rows[id], u.logs[id]);
    }
  }

  lemma LeadsSound(c: Setup, s: State, t: State)
    requires ValidPolicy(c.policy) && Sound(c, s) && Leads(c, s, t)
    ensures Sound(c, t) && Extends(s, t)
  {
    var ss: seq<State>, steps: seq<Step> :| IsRun(c, ss, steps) && ss[0] == s && ss[|steps|] == t;
    RunSound(c, ss, steps);
  }

  lemma ReachableSound(c: Setup, s: State)
    requires ValidPolicy(c.policy) && Reachable(c, s)
    ensures Sound(c, s)
  {
    var s0: State :| Init(s0) && Leads(c, s0, s);
    LeadsSound(c, s0, s);
  }

  lemma ReachableRow(c: Setup, s: State, id: Id)
    requires ValidPolicy(c.policy) && Reachable(c, s) && (id in s.rows || id in s.logs)
    ensures id in s.rows && id in s.logs && RowOk(c, s.now, s.rows[id], s.logs[id])
  {
    ReachableSound(c, s);
  }

  lemma ReachableFurther(c: Setup, s: State, t: State)
    requires ValidPolicy(c.policy) && Reachable(c, s) && Leads(c, s, t)
    ensures Reachable(c, t) && Extends(s, t)
  {
    var s0: State :| Init(s0) && Leads(c, s0, s);
    LeadsThrough(c, s0, s, t);
    ReachableSound(c, s);
    LeadsSound(c, s, t);
  }

  // ---------- Schema and absorption ----------

  /** No run violates the lease-state or terminal-state constraint, or stores an event under another id or subject. */
  lemma SchemaHolds(c: Setup, s: State, id: Id)
    requires ValidPolicy(c.policy) && Reachable(c, s) && id in s.rows
    ensures Schema(s.rows[id]) && Identity(id, s.rows[id].event)
    ensures var row := s.rows[id];
      && (row.status == Publishing <==> row.leaseOwner.Some?)
      && (row.status == Publishing <==> row.leaseExpiresAt.Some?)
      && (row.status == Published <==> row.publishedAt.Some?)
      && (row.status == DeadLetter <==> row.deadLetteredAt.Some?)
    ensures var e, subject := s.rows[id].event.envelope, s.rows[id].event.subject;
      && Event.Valid(e) && 1 <= e.version <= 0x7fff_ffff && id == Uuid.Key(e.id)
      && subject == "manoreck.events." + e.eventType + ".v" + Event.Decimal(e.version)
  {
    ReachableSound(c, s);
    assert RowOk(c, s.now, s.rows[id], s.logs[id]);
  }

  lemma TerminalStep(c: Setup, s: State, step: Step, id: Id)
    requires Enabled(c, s, step) && id in s.rows && Terminal(s.rows[id])
    ensures id in Apply(c, s, step).rows && Apply(c, s, step).rows[id] == s.rows[id]
  {
    if step.Claim? {
      assert id !in Candidates(s.rows, s.now, step.locked);
    }
  }

  lemma {:induction false} TerminalRun(c: Setup, ss: seq<State>, steps: seq<Step>, id: Id)
    requires IsRun(c, ss, steps) && id in ss[0].rows && Terminal(ss[0].rows[id])
    ensures id in ss[|steps|].rows && ss[|steps|].rows[id] == ss[0].rows[id]
  {
    if steps != [] {
      var n := |steps| - 1;
      TerminalRun(c, ss[..n + 1], steps[..n], id);
      TerminalStep(c, ss[n], steps[n], id);
    }
  }

  /** Published and dead-lettered rows never change again, in any column. */
  lemma Absorbing(c: Setup, s: State, t: State, id: Id)
    requires Leads(c, s, t) && id in s.rows && Terminal(s.rows[id])
    ensures id in t.rows && t.rows[id] == s.rows[id]
  {
    var ss: seq<State>, steps: seq<Step> :| IsRun(c, ss, steps) && ss[0] == s && ss[|steps|] == t;
    TerminalRun(c, ss, steps, id);
  }

  /** Along a run a row keeps its event, its history only grows, and its attempt count never falls. */
  lemma AttemptsGrow(c: Setup, s: State, t: State, id: Id)
    requires ValidPolicy(c.policy) && Reachable(c, s) && Leads(c, s, t) && id in s.rows
    ensures id in t.rows && t.rows[id].event == s.rows[id].event && t.rows[id].createdAt == s.rows[id].createdAt
    ensures id in s.logs && id in t.logs && s.logs[id] <= t.logs[id]
    ensures s.rows[id].attempts <= t.rows[id].attempts
  {
    ReachableFurther(c, s, t);
    ReachableRow(c, s, id);
    ReachableRow(c, t, id);
    assert RowExtends(s.rows[id], s.logs[id], t.rows[id], t.logs[id]);
    LastCountGrows(c, t.rows[id].createdAt, s.logs[id], t.logs[id]);
  }

  lemma LastCountGrows(c: Setup, created: Time, log: Log, log': Log)
    requires Legal(c, created, log') && log <= log'
    ensures LastCount(log) <= LastCount(log')
  {
    if 0 < |log| < |log'| {
      Growth(c, created, log', |log| - 1, |log'| - 1);
    }
  }

  // ---------- Conservation and bounds ----------

  /**
   Conservation, for every row of every reachable state: its attempt count is the number of recorded failures,
   completions and reclaims, plus one while it is being published; and relays have put at most that many copies of its
   event into the stream.
   */
  lemma AttemptsConserved(c: Setup, s: State, id: Id)
    requires ValidPolicy(c.policy) && Reachable(c, s) && id in s.rows
    ensures id in s.logs
    ensures var log := s.logs[id];
      s.rows[id].attempts ==
        Failures(log) + Completions(log) + Reclaims(log) + (if s.rows[id].status.Publishing? then 1 else 0)
    ensures Copies(s.stream, id) <= s.rows[id].attempts
  {
    ReachableSound(c, s);
    assert RowOk(c, s.now, s.rows[id], s.logs[id]);
    Conservation(c, s.rows[id].createdAt, s.logs[id]);
    CopiesBounded(c, s, id);
  }

  /**
   Bounded failure: a pending row still has an attempt left, no row records more than maxAttempts failures over its
   life however often it was reclaimed, and only reclaims let it be claimed more than maxAttempts times.
   */
  lemma FailuresBounded(c: Setup, s: State, id: Id)
    requires ValidPolicy(c.policy) && Reachable(c, s) && id in s.rows
    ensures s.rows[id].status.Pending? ==> s.rows[id].attempts < c.policy.maxAttempts
    ensures id in s.logs && Failures(s.logs[id]) <= c.policy.maxAttempts
    ensures s.rows[id].attempts <= c.policy.maxAttempts + Reclaims(s.logs[id])
  {
    ReachableRow(c, s, id);
    BoundedFailure(c, s.rows[id].createdAt, s.logs[id]);
  }

  // ---------- Leases ----------

  /** Two leases on one row never overlap in time, unless the earlier claim had been settled. */
  lemma LeaseExclusion(c: Setup, s: State, id: Id, i: nat, j: nat)
    requires ValidPolicy(c.policy) && Reachable(c, s) && id in s.logs
    requires i < j < |s.logs[id]| && s.logs[id][i].Leased? && s.logs[id][j].Leased?
    ensures s.logs[id][j].at >= s.logs[id][i].expires || exists k :: i < k < j && Settles(s.logs[id][k])
  {
    ReachableRow(c, s, id);
    LeasesExclude(c, s.rows[id].createdAt, s.logs[id], i, j);
  }

  /**
   Fencing, spelled out: a settlement happens while the row's count is still the settling loop's own attempt number,
   right after that loop's own claim; and no attempt number is settled twice.
   */
  lemma SettlementsFenced(c: Setup, s: State, id: Id, i: nat)
    requires ValidPolicy(c.policy) && DistinctOwners(c) && Reachable(c, s) && id in s.logs
    requires i < |s.logs[id]| && Settles(s.logs[id][i])
    ensures var log := s.logs[id];
      && i > 0 && log[i - 1].Leased? && log[i - 1].loop == log[i].loop
      && log[i].claimed == log[i].count == log[i - 1].count
      && forall j :: 0 <= j < |log| && j != i && Settles(log[j]) ==> log[j].claimed != log[i].claimed
  {
    ReachableRow(c, s, id);
    Fencing(c, s);
    var row, log := s.rows[id], s.logs[id];
    assert Fenced(log);
    assert FencedAt(log, i) && LegalAt(c, row.createdAt, log, i);
    forall j | 0 <= j < |log| && j != i && Settles(log[j])
      ensures log[j].claimed != log[i].claimed
    {
      assert FencedAt(log, j);
      if j < i {
        SettledOnce(c, row.createdAt, log, j, i);
      } else {
        SettledOnce(c, row.createdAt, log, i, j);
      }
    }
  }

  /** Cumulative spacing of retries over every run: see ClaimSpacing. */
  lemma RetriesSpaced(c: Setup, s: State, id: Id, j: nat)
    requires ValidPolicy(c.policy) && DistinctOwners(c) && Reachable(c, s) && id in s.logs
    requires j < |s.logs[id]| && s.logs[id][j].Leased? && Failures(s.logs[id][..j]) > 0
    ensures var before := s.logs[id][..j];
      s.logs[id][j].at >= FirstFailure(before) + TotalDelay(c.policy.base, c.policy.max, Failures(before))
  {
    ReachableRow(c, s, id);
    Fencing(c, s);
    ClaimSpacing(c, s.rows[id].createdAt, s.logs[id], j);
  }

  // ---------- No row is stuck ----------

  function Horizon(p: Policy): int {
    if LeaseLength(p) >= p.max then LeaseLength(p) else p.max
  }

  /** However a row was abandoned, it can be claimed after at most one lease or one maximal backoff. */
  lemma NoStuckRow(c: Setup, s: State, id: Id, later: Time)
    requires ValidPolicy(c.policy) && Reachable(c, s) && id in s.rows && !Terminal(s.rows[id])
    requires later >= s.now + Horizon(c.policy)
    ensures Eligible(s.rows[id], later)
  {
    ReachableRow(c, s, id);
    LiveRowBecomesEligible(c, s.now, s.rows[id], s.logs[id], later);
  }

  lemma LiveRowBecomesEligible(c: Setup, now: Time, row: Row, log: Log, later: Time)
    requires ValidPolicy(c.policy) && RowOk(c, now, row, log) && !Terminal(row)
    requires later >= now + Horizon(c.policy)
    ensures Eligible(row, later)
  {
    if log != [] {
      var n := |log| - 1;
      assert LegalAt(c, row.createdAt, log, n);
      if log[n].Failed? {
        CappedMonotone(c.policy.base, c.policy.max, log[n].claimed, log[n].claimed);
      }
    }
  }

  lemma UntouchedRowBecomesEligible(c: Setup, now: Time, row: Row, later: Time, row': Row, log: Log)
    requires ValidPolicy(c.policy) && RowOk(c, now, row, log) && RowOk(c, later, row', log) && !Terminal(row)
    requires row'.createdAt == row.createdAt && later >= now + Horizon(c.policy)
    ensures Eligible(row', later)
  {
    LiveRowBecomesEligible(c, now, row, log, later);
  }

  /** In any run that outlasts the horizon, a live row has been claimed or settled meanwhile, or can be claimed now. */
  lemma ProgressPossible(c: Setup, s: State, t: State, id: Id)
    requires ValidPolicy(c.policy) && Reachable(c, s) && Leads(c, s, t)
    requires id in s.rows && !Terminal(s.rows[id]) && t.now >= s.now + Horizon(c.policy)
    ensures id in t.rows && id in s.logs && id in t.logs
    ensures s.logs[id] < t.logs[id] || Eligible(t.rows[id], t.now)
  {
    ReachableFurther(c, s, t);
    ReachableRow(c, s, id);
    ReachableRow(c, t, id);
    assert RowExtends(s.rows[id], s.logs[id], t.rows[id], t.logs[id]);
    if s.logs[id] == t.logs[id] {
      UntouchedRowBecomesEligible(c, s.now, s.rows[id], t.now, t.rows[id], s.logs[id]);
    }
  }

  // ---------- Provenance ----------

  /** The message holds this event, under the event's own id - which is the row's key - and the event's own subject. */
  predicate Carries(m: Message, id: Id, e: Stored) {
    && m.msgId == e.envelope.id && Uuid.Key(m.msgId) == id
    && m.subject == Event.SubjectOf(e.envelope.eventType, if e.envelope.version < 0 then 0 else e.envelope.version)
    && m.data == Encoded(e.envelope)
  }

  /** Someone other than a relay has stored a message under this id. */
  predicate Usurped(stream: seq<Entry>, msgId: string) {
    exists k :: 0 <= k < |stream| && stream[k].origin.External? && stream[k].message.msgId == msgId
  }

  /** A published row's event is in the stream under its own id and subject, unless someone else used that id. */
  lemma PublishedIsInStream(c: Setup, s: State, id: Id)
    requires ValidPolicy(c.policy) && Reachable(c, s) && id in s.rows && s.rows[id].status.Published?
    ensures
      || (exists k :: 0 <= k < |s.stream| && Carries(s.stream[k].message, id, s.rows[id].event))
      || Usurped(s.stream, s.rows[id].event.envelope.id)
  {
    ReachableSound(c, s);
    var k := PublishedTaken(c, s, id);
    if s.stream[k].origin.Relayed? {
      TakenByRelay(c, s, id, k);
      OwnMessage(id, s.rows[id].event);
    }
  }

  lemma PublishedTaken(c: Setup, s: State, id: Id) returns (k: nat)
    requires Sound(c, s) && id in s.rows && s.rows[id].status.Published?
    ensures Identity(id, s.rows[id].event)
    ensures k < |s.stream| && s.stream[k].message.msgId == s.rows[id].event.envelope.id
  {
    assert Taken(s.stream, s.rows[id].event.envelope.id);
    k :| 0 <= k < |s.stream| && s.stream[k].message.msgId == s.rows[id].event.envelope.id;
  }

  lemma OwnMessage(id: Id, e: Stored)
    requires Identity(id, e)
    ensures Carries(MessageOf(e), id, e)
  {
  }

  /** What a relay stored under an event's id is that event. */
  lemma TakenByRelay(c: Setup, s: State, id: Id, k: nat)
    requires Sound(c, s) && id in s.rows && k < |s.stream| && s.stream[k].origin.Relayed?
    requires s.stream[k].message.msgId == s.rows[id].event.envelope.id
    ensures s.stream[k].message == MessageOf(s.rows[id].event)
  {
    var other := s.stream[k].origin.id;
    assert EntryOk(s.rows, s.logs, s.stream[k]);
    assert Identity(id, s.rows[id].event) && Identity(other, s.rows[other].event);
  }

  /**
   The exception is real: whatever other message was stored under an event's id first, the event can then be marked
   published without ever being in the stream.
   */
  lemma PublishedButUsurped(c: Setup, e: Event.Envelope, l: Loop, foreign: Message) returns (u: State)
    requires ValidPolicy(c.policy) && InsertRow(map[], e, 0).Ok?
    requires foreign.msgId == e.id && foreign.data != Encoded(e)
    ensures var id := Uuid.Key(e.id);
      && Reachable(c, u) && id in u.rows && u.rows[id].status.Published?
      && forall k :: 0 <= k < |u.stream| ==> !Carries(u.stream[k].message, id, u.rows[id].event)
  {
    var s := ClaimOfNewEvent(c, e, l);
    var s0: State :| Init(s0) && Leads(c, s0, s);
    u := MarkedByMistake(c, s, Uuid.Key(e.id), l, foreign);
    LeadsThrough(c, s0, s, u);
  }

  /** A foreign message takes the id of a claimed event, whose publish is then acknowledged without being appended. */
  lemma MarkedByMistake(c: Setup, s: State, id: Id, l: Loop, foreign: Message) returns (u: State)
    requires id in s.rows && l in s.workers && s.workers[l].phase.Ready? && |s.workers[l].batch| == 1
    requires s.workers[l].batch[0].id == id && s.workers[l].batch[0].event == s.rows[id].event
    requires Fence(s.rows, id, c.own(l)) && s.stream == [] && foreign.msgId == s.rows[id].event.envelope.id
    ensures Leads(c, s, u) && u.stream == [Entry(foreign, External)]
    ensures id in u.rows && u.rows[id].status.Published? && u.rows[id].event == s.rows[id].event
  {
    var usurp, publish, mark := ExternalPublish(foreign), Publish(l, false, true), MarkPublished(l, true, true);
    var s1 := Apply(c, s, usurp);
    LeadsBy(c, s, usurp);
    assert s1.stream[0].message.msgId == foreign.msgId;
    var s2 := Apply(c, s1, publish);
    LeadsBy(c, s1, publish);
    LeadsThrough(c, s, s1, s2);
    u := Apply(c, s2, mark);
    LeadsBy(c, s2, mark);
    LeadsThrough(c, s, s2, u);
  }

  /** Everything a relay put into the stream is the event of a committed row, sent under an attempt of that row. */
  lemma RelayedIsCommitted(c: Setup, s: State, k: nat)
    requires ValidPolicy(c.policy) && Reachable(c, s) && k < |s.stream| && s.stream[k].origin.Relayed?
    ensures var o := s.stream[k].origin;
      && o.id in s.rows && s.stream[k].message == MessageOf(s.rows[o.id].event)
      && Identity(o.id, s.rows[o.id].event) && Carries(s.stream[k].message, o.id, s.rows[o.id].event)
      && 1 <= o.attempt <= s.rows[o.id].attempts
  {
    ReachableSound(c, s);
    var o := s.stream[k].origin;
    assert EntryOk(s.rows, s.logs, s.stream[k]);
    assert RowOk(c, s.now, s.rows[o.id], s.logs[o.id]);
    MadeBound(c, s.rows[o.id].createdAt, s.logs[o.id], o.loop, o.attempt);
    OwnMessage(o.id, s.rows[o.id].event);
  }
}
