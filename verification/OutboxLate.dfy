/**
 Late statements. A settling call can return an error - its context was cancelled, its connection broke - while its
 statement is still under way, and the database may execute it at any later time. This module adds such statements to
 the outbox machine. The guard checks the owner and not the attempt, so a late statement can hit a later claim of the
 very same loop; that is the only way in which fencing breaks when no two loops share a worker id.
 */
module OutboxLate {

  import opened Wrappers
  import opened OutboxTable
  import opened OutboxMachine
  import opened OutboxHistory
  import opened OutboxInvariants
  import opened OutboxFence
  import opened OutboxStream
  import opened OutboxTheorems
  import Event
  import Uuid

  /** A settling statement under way: what the loop knew when it sent it. */
  datatype Statement = Statement(loop: Loop, record: Record, phase: Phase, claimedAt: Time)

  datatype LateState = LateState(base: State, late: seq<Statement>)

  /** A step of the outbox machine, a settling call that fails before its statement is executed, or that execution. */
  datatype LateStep = Prompt(step: Step) | Outlive(loop: Loop) | Land(index: nat)

  function HeldBy(st: Statement): Worker {
    Worker([st.record], st.phase, st.claimedAt)
  }

  /** The machine as if the loop were still waiting for its statement. */
  function Holding(s: State, st: Statement): State {
    s.(workers := s.workers[st.loop := HeldBy(st)])
  }

  function Execution(st: Statement): Step {
    if st.phase.Acked? then MarkPublished(st.loop, true, false) else MarkFailed(st.loop, true, false)
  }

  predicate LateEnabled(c: Setup, s: LateState, step: LateStep) {
    match step
    case Prompt(x) => Enabled(c, s.base, x)
    case Outlive(l) => WorkerOf(s.base, l).batch != [] && !WorkerOf(s.base, l).phase.Ready?
    case Land(k) => k < |s.late| && !s.late[k].phase.Ready?
  }

  /** Executes the statement under its guard; what the loops remember by now plays no part. */
  function Landed(c: Setup, s: State, st: Statement): State
    requires !st.phase.Ready?
  {
    Apply(c, Holding(s, st), Execution(st)).(workers := s.workers)
  }

  function LateApply(c: Setup, s: LateState, step: LateStep): LateState
    requires LateEnabled(c, s, step)
  {
    match step
    case Prompt(x) => s.(base := Apply(c, s.base, x))
    case Outlive(l) =>
      var w := WorkerOf(s.base, l);
      LateState(Apply(c, s.base, Abandon(l)), s.late + [Statement(l, w.batch[0], w.phase, w.claimedAt)])
    case Land(k) => LateState(Landed(c, s.base, s.late[k]), s.late[..k] + s.late[k + 1..])
  }

  predicate LateInit(s: LateState) {
    Init(s.base) && s.late == []
  }

  predicate LateRun(c: Setup, ss: seq<LateState>, steps: seq<LateStep>) {
    && |ss| == |steps| + 1
    && forall i :: 0 <= i < |steps| ==> LateEnabled(c, ss[i], steps[i]) && ss[i + 1] == LateApply(c, ss[i], steps[i])
  }

  // ---------- Invariant ----------

  predicate StatementOk(c: Setup, s: State, st: Statement) {
    !st.phase.Ready? && WorkerOk(c, s, st.loop, HeldBy(st))
  }

  predicate LateInv(c: Setup, s: LateState) {
    && Inv(c, s.base) && FenceInv(c, s.base)
    && forall k :: 0 <= k < |s.late| ==> StatementOk(c, s.base, s.late[k])
  }

  lemma HoldingInv(c: Setup, s: State, st: Statement)
    requires Inv(c, s) && StatementOk(c, s, st)
    ensures Inv(c, Holding(s, st)) && Enabled(c, Holding(s, st), Execution(st))
  {
    var h := Holding(s, st);
    forall l | l in h.workers
      ensures WorkerOk(c, h, l, h.workers[l])
    {
      if l != st.loop {
        assert WorkerOk(c, s, l, s.workers[l]);
      }
    }
  }

  lemma LandedExtends(c: Setup, s: State, st: Statement)
    requires ValidPolicy(c.policy) && Inv(c, s) && StatementOk(c, s, st)
    ensures Inv(c, Landed(c, s, st)) && Extends(s, Landed(c, s, st))
  {
    var t := Landed(c, s, st);
    HoldingInv(c, s, st);
    StepExtends(c, Holding(s, st), Execution(st));
    forall l | l in t.workers
      ensures WorkerOk(c, t, l, t.workers[l])
    {
      WorkerExtends(c, s, t, l, s.workers[l]);
    }
  }

  lemma LandedFence(c: Setup, s: State, st: Statement)
    requires DistinctOwners(c) && FenceInv(c, s) && !st.phase.Ready?
    ensures FenceInv(c, Landed(c, s, st))
  {
    var t := Landed(c, s, st);
    forall l | l in t.workers
      ensures FenceWorker(c, t.rows, l, t.workers[l])
    {
      OtherLoopFence(c, Holding(s, st), Execution(st), l);
      RowsFence(c, s.rows, t.rows, l, s.workers[l]);
    }
  }

  lemma OutlivedOk(c: Setup, s: State, l: Loop)
    requires Inv(c, s) && WorkerOf(s, l).batch != [] && !WorkerOf(s, l).phase.Ready?
    ensures var w := WorkerOf(s, l); StatementOk(c, s, Statement(l, w.batch[0], w.phase, w.claimedAt))
  {
    assert WorkerOk(c, s, l, WorkerOf(s, l));
  }

  lemma StatementsExtend(c: Setup, s: State, t: State, late: seq<Statement>)
    requires Extends(s, t) && forall k :: 0 <= k < |late| ==> StatementOk(c, s, late[k])
    ensures forall k :: 0 <= k < |late| ==> StatementOk(c, t, late[k])
  {
    forall k | 0 <= k < |late|
      ensures StatementOk(c, t, late[k])
    {
      WorkerExtends(c, s, t, late[k].loop, HeldBy(late[k]));
    }
  }

  /** Every step keeps the invariant and loses nothing recorded. */
  lemma LateStepInv(c: Setup, s: LateState, step: LateStep)
    requires ValidPolicy(c.policy) && DistinctOwners(c) && LateInv(c, s) && LateEnabled(c, s, step)
    ensures LateInv(c, LateApply(c, s, step)) && Extends(s.base, LateApply(c, s, step).base)
  {
    var t := LateApply(c, s, step);
    match step {
      case Prompt(x) =>
        StepInv(c, s.base, x);
        StepFence(c, s.base, x);
        StatementsExtend(c, s.base, t.base, s.late);
      case Outlive(l) =>
        StepInv(c, s.base, Abandon(l));
        StepFence(c, s.base, Abandon(l));
        OutlivedOk(c, s.base, l);
        StatementsExtend(c, s.base, t.base, t.late);
      case Land(k) =>
        LandedExtends(c, s.base, s.late[k]);
        LandedFence(c, s.base, s.late[k]);
        StatementsExtend(c, s.base, t.base, s.late);
    }
  }

  // ---------- Fencing ----------

  /** The last thing that happened to the row is that the statement's own loop has claimed it again. */
  predicate Reclaimed(log: Log, st: Statement) {
    log != [] && var f := log[|log| - 1]; f.Leased? && f.loop == st.loop && f.count > st.record.attempt
  }

  /** The guard lets a statement hit a claim that is not its own exactly if its own loop has reclaimed the row. */
  lemma GuardMisfires(c: Setup, s: State, st: Statement)
    requires DistinctOwners(c) && Inv(c, s) && StatementOk(c, s, st)
    ensures st.record.id in s.rows && st.record.id in s.logs
    ensures Reclaimed(s.logs[st.record.id], st) <==>
      Fence(s.rows, st.record.id, c.own(st.loop)) && s.rows[st.record.id].attempts != st.record.attempt
  {
    var r := st.record;
    assert RecordOk(s.rows, s.logs, st.loop, HeldBy(st).batch[0], st.claimedAt);
    assert RowOk(c, s.now, s.rows[r.id], s.logs[r.id]);
    RecordMade(s.rows, s.logs, st.loop, r, st.claimedAt);
    MadeBound(c, s.rows[r.id].createdAt, s.logs[r.id], st.loop, r.attempt);
  }

  predicate Misfires(s: LateState, step: LateStep) {
    && step.Land? && step.index < |s.late|
    && s.late[step.index].record.id in s.base.logs
    && Reclaimed(s.base.logs[s.late[step.index].record.id], s.late[step.index])
  }

  lemma FencedPrefix(log: Log, log': Log)
    requires log <= log' && Fenced(log')
    ensures Fenced(log)
  {
    forall i | 0 <= i < |log|
      ensures FencedAt(log, i)
    {
      assert FencedAt(log', i);
    }
  }

  lemma FencedBefore(s: State, t: State)
    requires Extends(s, t) && AllFenced(t)
    ensures AllFenced(s)
  {
    forall id | id in s.logs
      ensures Fenced(s.logs[id])
    {
      assert RowExtends(s.rows[id], s.logs[id], t.rows[id], t.logs[id]);
      FencedPrefix(s.logs[id], t.logs[id]);
    }
  }

  lemma MisfireUnfenced(c: Setup, s: State, st: Statement)
    requires DistinctOwners(c) && Inv(c, s) && StatementOk(c, s, st)
    requires st.record.id in s.logs && Reclaimed(s.logs[st.record.id], st)
    ensures !AllFenced(Landed(c, s, st))
  {
    GuardMisfires(c, s, st);
    var log := Landed(c, s, st).logs[st.record.id];
    assert !FencedAt(log, |log| - 1);
  }

  lemma HitFenced(c: Setup, s: State, st: Statement)
    requires DistinctOwners(c) && Inv(c, s) && FenceInv(c, s) && AllFenced(s) && StatementOk(c, s, st)
    requires st.record.id in s.logs && !Reclaimed(s.logs[st.record.id], st)
    ensures AllFenced(Landed(c, s, st))
  {
    var h := Holding(s, st);
    GuardMisfires(c, s, st);
    HoldingInv(c, s, st);
    forall l | l in h.workers
      ensures FenceWorker(c, h.rows, l, h.workers[l])
    {
      if l != st.loop {
        assert FenceWorker(c, s.rows, l, s.workers[l]);
      }
    }
    StepFenced(c, h, Execution(st));
  }

  /** A step keeps the histories fenced exactly if it is not a misfire. */
  lemma LateStepFenced(c: Setup, s: LateState, step: LateStep)
    requires ValidPolicy(c.policy) && DistinctOwners(c) && LateInv(c, s) && LateEnabled(c, s, step)
    ensures AllFenced(LateApply(c, s, step).base) <==> AllFenced(s.base) && !Misfires(s, step)
  {
    var t := LateApply(c, s, step);
    LateStepInv(c, s, step);
    if AllFenced(t.base) {
      FencedBefore(s.base, t.base);
    }
    match step {
      case Prompt(x) =>
        if AllFenced(s.base) {
          StepFenced(c, s.base, x);
        }
      case Outlive(l) =>
      case Land(k) =>
        GuardMisfires(c, s.base, s.late[k]);
        if Misfires(s, step) {
          MisfireUnfenced(c, s.base, s.late[k]);
        } else if AllFenced(s.base) {
          HitFenced(c, s.base, s.late[k]);
        }
    }
  }

  lemma {:induction false} LateRunInv(c: Setup, ss: seq<LateState>, steps: seq<LateStep>, n: nat)
    requires ValidPolicy(c.policy) && DistinctOwners(c) && LateRun(c, ss, steps) && LateInit(ss[0]) && n <= |steps|
    ensures LateInv(c, ss[n])
  {
    if n == 0 {
      InitFenced(c, ss[0].base);
    } else {
      LateRunInv(c, ss, steps, n - 1);
      LateStepInv(c, ss[n - 1], steps[n - 1]);
    }
  }

  /**
   Fencing with late statements, over every run of loops with distinct worker ids: every settlement hit the very claim
   it belonged to if and only if no late statement was executed while its own loop held a newer claim of the row.
   */
  lemma {:induction false} LateFencing(c: Setup, ss: seq<LateState>, steps: seq<LateStep>, n: nat)
    requires ValidPolicy(c.policy) && DistinctOwners(c) && LateRun(c, ss, steps) && LateInit(ss[0]) && n <= |steps|
    ensures AllFenced(ss[n].base) <==> forall i :: 0 <= i < n ==> !Misfires(ss[i], steps[i])
  {
    if n == 0 {
      InitFenced(c, ss[0].base);
    } else {
      LateFencing(c, ss, steps, n - 1);
      LateRunInv(c, ss, steps, n - 1);
      LateStepFenced(c, ss[n - 1], steps[n - 1]);
    }
  }

  /** What late statements cannot break: attempts stay accounted for, failures bounded, leases exclusive, rows live. */
  lemma LateRowsKept(c: Setup, ss: seq<LateState>, steps: seq<LateStep>, id: Id, later: Time)
    requires ValidPolicy(c.policy) && DistinctOwners(c) && LateRun(c, ss, steps) && LateInit(ss[0])
    requires id in ss[|steps|].base.rows
    ensures var s := ss[|steps|].base; id in s.logs && Schema(s.rows[id])
    ensures var s := ss[|steps|].base; var log := s.logs[id];
      && s.rows[id].attempts ==
           Failures(log) + Completions(log) + Reclaims(log) + (if s.rows[id].status.Publishing? then 1 else 0)
      && Failures(log) <= c.policy.maxAttempts
      && (forall i, j :: 0 <= i < j < |log| && log[i].Leased? && log[j].Leased? ==>
            log[j].at >= log[i].expires || SettledBetween(log, i, j))
      && (!Terminal(s.rows[id]) && later >= s.now + Horizon(c.policy) ==> Eligible(s.rows[id], later))
  {
    LateRunInv(c, ss, steps, |steps|);
    var s := ss[|steps|].base;
    var row, log := s.rows[id], s.logs[id];
    assert RowOk(c, s.now, row, log);
    Conservation(c, row.createdAt, log);
    BoundedFailure(c, row.createdAt, log);
    forall i, j | 0 <= i < j < |log| && log[i].Leased? && log[j].Leased?
      ensures log[j].at >= log[i].expires || SettledBetween(log, i, j)
    {
      LeasesExclude(c, row.createdAt, log, i, j);
    }
    if !Terminal(row) && later >= s.now + Horizon(c.policy) {
      LiveRowBecomesEligible(c, s.now, row, log, later);
    }
  }

  predicate SettledBetween(log: Log, i: int, j: int) {
    exists k :: i < k < j && 0 <= k < |log| && Settles(log[k])
  }

  // ---------- Misfires do happen ----------

  ghost predicate LateReachable(c: Setup, s: LateState) {
    exists ss: seq<LateState>, steps: seq<LateStep> :: LateRun(c, ss, steps) && LateInit(ss[0]) && ss[|steps|] == s
  }

  lemma ReachableAtFirst(c: Setup, s: LateState)
    requires LateInit(s)
    ensures LateReachable(c, s)
  {
    assert LateRun(c, [s], []);
  }

  lemma ReachableNext(c: Setup, s: LateState, step: LateStep)
    requires LateReachable(c, s) && LateEnabled(c, s, step)
    ensures LateReachable(c, LateApply(c, s, step))
  {
    var ss: seq<LateState>, steps: seq<LateStep> :| LateRun(c, ss, steps) && LateInit(ss[0]) && ss[|steps|] == s;
    var states, all := ss + [LateApply(c, s, step)], steps + [step];
    forall i | 0 <= i < |all|
      ensures LateEnabled(c, states[i], all[i]) && states[i + 1] == LateApply(c, states[i], all[i])
    {
      if i < |steps| {
        assert states[i] == ss[i] && states[i + 1] == ss[i + 1] && all[i] == steps[i];
      }
    }
    assert LateRun(c, states, all);
  }

  /** One row, leased by the one loop for the given attempt. */
  predicate LeasedBy(c: Setup, s: State, id: Id, l: Loop, attempt: nat) {
    && s.rows.Keys == s.logs.Keys == {id} && s.workers.Keys == {l}
    && s.rows[id].status.Publishing? && s.rows[id].leaseOwner == Some(c.own(l)) && s.rows[id].attempts == attempt
  }

  /** The loop's first attempt to complete the row is under way. */
  predicate UnderWay(s: LateState, id: Id, l: Loop) {
    && |s.late| == 1 && s.late[0].loop == l && s.late[0].phase.Acked?
    && s.late[0].record.id == id && s.late[0].record.attempt == 1
  }

  lemma FirstClaim(c: Setup, e: Event.Envelope, l: Loop) returns (s: LateState)
    requires ValidPolicy(c.policy) && InsertRow(map[], e, 0).Ok?
    ensures var id := Uuid.Key(e.id);
      && LateReachable(c, s) && s.late == [] && s.base.now == 0 && LeasedBy(c, s.base, id, l, 1)
      && s.base.rows[id].leaseExpiresAt == Some(LeaseLength(c.policy))
      && s.base.workers[l].phase.Ready? && |s.base.workers[l].batch| == 1
      && s.base.workers[l].batch[0].id == id && s.base.workers[l].batch[0].attempt == 1
  {
    var id := Uuid.Key(e.id);
    var s0 := LateState(State(0, map[], map[], map[], []), []);
    ReachableAtFirst(c, s0);
    ReachableNext(c, s0, Prompt(Insert(e, 0)));
    var s1 := LateApply(c, s0, Prompt(Insert(e, 0)));
    OnlyRowReturned(s1.base.rows, id, 0, c.policy.batchSize);
    ReachableNext(c, s1, Prompt(Claim(l, {}, [id], true)));
    s := LateApply(c, s1, Prompt(Claim(l, {}, [id], true)));
  }

  /** The loop publishes its record; then its settling call fails with the statement under way. */
  lemma SentAndLost(c: Setup, s: LateState, id: Id, l: Loop) returns (t: LateState)
    requires LateReachable(c, s) && s.late == [] && LeasedBy(c, s.base, id, l, 1)
    requires s.base.workers[l].phase.Ready? && |s.base.workers[l].batch| == 1
    requires s.base.workers[l].batch[0].id == id && s.base.workers[l].batch[0].attempt == 1
    ensures LateReachable(c, t) && UnderWay(t, id, l) && LeasedBy(c, t.base, id, l, 1)
    ensures t.base.rows == s.base.rows && t.base.now == s.base.now && WorkerOf(t.base, l).batch == []
  {
    var publish := Prompt(Publish(l, true, true));
    ReachableNext(c, s, publish);
    var s1 := LateApply(c, s, publish);
    ReachableNext(c, s1, Outlive(l));
    t := LateApply(c, s1, Outlive(l));
  }

  /** The lease runs out and the same loop claims the row again. */
  lemma ClaimedAgain(c: Setup, s: LateState, id: Id, l: Loop) returns (t: LateState)
    requires ValidPolicy(c.policy) && LateReachable(c, s) && UnderWay(s, id, l) && LeasedBy(c, s.base, id, l, 1)
    requires s.base.now == 0 && WorkerOf(s.base, l).batch == []
    requires s.base.rows[id].leaseExpiresAt == Some(LeaseLength(c.policy))
    ensures LateReachable(c, t) && UnderWay(t, id, l) && LeasedBy(c, t.base, id, l, 2)
  {
    var tick, claim := Prompt(Tick(LeaseLength(c.policy))), Prompt(Claim(l, {}, [id], true));
    ReachableNext(c, s, tick);
    var s1 := LateApply(c, s, tick);
    OnlyRowReturned(s1.base.rows, id, s1.base.now, c.policy.batchSize);
    ReachableNext(c, s1, claim);
    t := LateApply(c, s1, claim);
  }

  /** The statement completes the second claim in the name of the first. */
  lemma LandsWrong(c: Setup, s: LateState, id: Id, l: Loop)
    requires UnderWay(s, id, l) && LeasedBy(c, s.base, id, l, 2)
    ensures !AllFenced(LateApply(c, s, Land(0)).base) && LateApply(c, s, Land(0)).base.workers.Keys == {l}
  {
    var log := LateApply(c, s, Land(0)).base.logs[id];
    assert log[|log| - 1] == Completed(s.base.now, l, 2, 1);
    assert !FencedAt(log, |log| - 1);
  }

  /**
   One loop alone, whatever its worker id: its call fails with the statement under way, its lease runs out, it claims
   the row again, and then the old statement completes the new claim.
   */
  lemma LateMisfire(c: Setup, e: Event.Envelope, l: Loop) returns (t: LateState)
    requires ValidPolicy(c.policy) && InsertRow(map[], e, 0).Ok?
    ensures LateReachable(c, t) && t.base.workers.Keys == {l} && !AllFenced(t.base)
  {
    var id := Uuid.Key(e.id);
    var s := FirstClaim(c, e, l);
    s := SentAndLost(c, s, id, l);
    s := ClaimedAgain(c, s, id, l);
    LandsWrong(c, s, id, l);
    ReachableNext(c, s, Land(0));
    t := LateApply(c, s, Land(0));
  }
}
