/**
 Fencing. The settling statements are guarded by the row's id, its status and the lease owner - not by the attempt
 number. This module proves when that guard is enough: a settlement always hits the very claim it belongs to, in every
 run, exactly when no two loops share a worker id.
 */
module OutboxFence {

  import opened Wrappers
  import opened OutboxTable
  import opened OutboxMachine
  import opened OutboxHistory
  import opened OutboxInvariants
  import Event
  import Uuid

  /** If the row is still leased in this loop's name, it is leased by the claim this record came from. */
  predicate FenceRecord(c: Setup, rows: Table, l: Loop, r: Record) {
    Fence(rows, r.id, c.own(l)) ==> rows[r.id].attempts == r.attempt
  }

  predicate FenceWorker(c: Setup, rows: Table, l: Loop, w: Worker) {
    forall i :: 0 <= i < |w.batch| ==> FenceRecord(c, rows, l, w.batch[i])
  }

  predicate FenceInv(c: Setup, s: State) {
    forall l :: l in s.workers ==> FenceWorker(c, s.rows, l, s.workers[l])
  }

  /** Every settlement in the history of every row hit the claim it belonged to. */
  predicate AllFenced(s: State) {
    forall id :: id in s.logs ==> Fenced(s.logs[id])
  }

  /** The claim that a loop remembers is the last fact of the row, whenever the fence would let it settle. */
  lemma LastFactIsOwnClaim(c: Setup, s: State, l: Loop, r: Record, at: Time)
    requires TableOk(c, s) && RecordOk(s.rows, s.logs, l, r, at)
    requires FenceRecord(c, s.rows, l, r) && Fence(s.rows, r.id, c.own(l))
    ensures var log := s.logs[r.id];
      log != [] && ClaimBy(log, |log| - 1, l, r.attempt) && log[|log| - 1].at == at
      && r.attempt == s.rows[r.id].attempts
  {
    var row, log := s.rows[r.id], s.logs[r.id];
    assert RowOk(c, s.now, row, log);
    var i :| 0 <= i < |log| && ClaimBy(log, i, l, r.attempt) && log[i].at == at;
    ClaimsDiffer(c, row.createdAt, log, i, |log| - 1);
  }

  lemma CompletionFenced(c: Setup, s: State, l: Loop)
    requires Inv(c, s) && FenceInv(c, s) && WorkerOf(s, l).batch != []
    requires var r := WorkerOf(s, l).batch[0];
      Fence(s.rows, r.id, c.own(l)) && r.id in s.logs && Fenced(s.logs[r.id])
    ensures var r := WorkerOf(s, l).batch[0];
      Fenced(s.logs[r.id] + [Completed(s.now, l, s.rows[r.id].attempts, r.attempt)])
  {
    var w := WorkerOf(s, l);
    var r := w.batch[0];
    assert WorkerOk(c, s, l, w) && FenceWorker(c, s.rows, l, w);
    LastFactIsOwnClaim(c, s, l, r, w.claimedAt);
    FencedAppend(s.logs[r.id], Completed(s.now, l, s.rows[r.id].attempts, r.attempt));
  }

  lemma FailureFenced(c: Setup, s: State, l: Loop)
    requires Inv(c, s) && FenceInv(c, s) && WorkerOf(s, l).batch != [] && WorkerOf(s, l).phase.Failing?
    requires var r := WorkerOf(s, l).batch[0];
      Fence(s.rows, r.id, c.own(l)) && r.id in s.logs && Fenced(s.logs[r.id])
    ensures var r, f := WorkerOf(s, l).batch[0], WorkerOf(s, l).phase;
      Fenced(s.logs[r.id] + [Failed(s.now, l, s.rows[r.id].attempts, r.attempt, f.observed, f.kind, f.next)])
  {
    var w := WorkerOf(s, l);
    var r, f := w.batch[0], w.phase;
    assert WorkerOk(c, s, l, w) && FenceWorker(c, s.rows, l, w);
    LastFactIsOwnClaim(c, s, l, r, w.claimedAt);
    FencedAppend(s.logs[r.id], Failed(s.now, l, s.rows[r.id].attempts, r.attempt, f.observed, f.kind, f.next));
  }

  lemma ClaimFenced(s: State, chosen: set<Id>, l: Loop, lease: int)
    requires AllFenced(s)
    ensures forall id :: id in ClaimLogs(s, chosen, l, lease) ==> Fenced(ClaimLogs(s, chosen, l, lease)[id])
  {
    forall id | id in s.logs
      ensures Fenced(ClaimLogs(s, chosen, l, lease)[id])
    {
      if id in chosen && id in s.rows {
        FencedAppend(s.logs[id],
          Leased(s.now, l, s.rows[id].attempts + 1, s.now + lease, s.rows[id].status.Publishing?));
      }
    }
  }

  /** Every step records only fenced settlements. */
  lemma StepFenced(c: Setup, s: State, step: Step)
    requires Inv(c, s) && FenceInv(c, s) && AllFenced(s) && Enabled(c, s, step)
    ensures AllFenced(Apply(c, s, step))
  {
    match step
    case Claim(l, _, answer, _) => ClaimFenced(s, Members(answer), l, LeaseLength(c.policy));
    case MarkPublished(l, reaches, _) =>
      if reaches && Fence(s.rows, WorkerOf(s, l).batch[0].id, c.own(l)) {
        CompletionFenced(c, s, l);
      }
    case MarkFailed(l, reaches, _) =>
      if reaches && Fence(s.rows, WorkerOf(s, l).batch[0].id, c.own(l)) {
        FailureFenced(c, s, l);
      }
    case _ =>
  }

  /** How a step may change a row without disturbing what a loop remembers of it. */
  lemma RowsFence(c: Setup, rows: Table, rows': Table, l: Loop, w: Worker)
    requires FenceWorker(c, rows, l, w)
    requires forall id :: Fence(rows', id, c.own(l)) ==> id in rows && rows[id] == rows'[id]
    ensures FenceWorker(c, rows', l, w)
  {
    forall i | 0 <= i < |w.batch|
      ensures FenceRecord(c, rows', l, w.batch[i])
    {
      assert FenceRecord(c, rows, l, w.batch[i]);
    }
  }

  /** A step never puts a row into another loop's name. */
  lemma OtherLoopFence(c: Setup, s: State, step: Step, l: Loop)
    requires DistinctOwners(c) && Enabled(c, s, step)
    requires Actor(step) != Some(l) || !step.Claim?
    ensures var rows := Apply(c, s, step).rows;
      forall id :: Fence(rows, id, c.own(l)) ==> id in s.rows && s.rows[id] == rows[id]
  {
  }

  lemma ClaimedFence(c: Setup, s: State, l: Loop, answer: seq<Id>, delivered: bool)
    requires Members(answer) <= s.rows.Keys
    ensures var t := ApplyClaim(c, s, l, answer, delivered); FenceWorker(c, t.rows, l, WorkerOf(t, l))
  {
  }

  lemma StepFence(c: Setup, s: State, step: Step)
    requires DistinctOwners(c) && FenceInv(c, s) && Enabled(c, s, step)
    ensures FenceInv(c, Apply(c, s, step))
  {
    var t := Apply(c, s, step);
    forall l | l in t.workers
      ensures FenceWorker(c, t.rows, l, t.workers[l])
    {
      if Actor(step) == Some(l) && step.Claim? {
        ClaimedFence(c, s, l, step.answer, step.delivered);
      } else {
        OtherLoopFence(c, s, step, l);
        RowsFence(c, s.rows, t.rows, l, WorkerOf(s, l));
        RemembersLess(c, s, step, l);
      }
    }
  }

  /** Only a claim adds to what a loop remembers. */
  lemma RemembersLess(c: Setup, s: State, step: Step, l: Loop)
    requires Enabled(c, s, step) && (Actor(step) != Some(l) || !step.Claim?)
    ensures forall r :: r in WorkerOf(Apply(c, s, step), l).batch ==> r in WorkerOf(s, l).batch
  {
    if Actor(step) != Some(l) {
      OthersKeep(c, s, step, l);
    }
  }

  /** With distinct owners every run keeps the fence. */
  lemma {:induction false} RunFenced(c: Setup, ss: seq<State>, steps: seq<Step>)
    requires ValidPolicy(c.policy) && DistinctOwners(c)
    requires IsRun(c, ss, steps) && Inv(c, ss[0]) && FenceInv(c, ss[0]) && AllFenced(ss[0])
    ensures Inv(c, ss[|steps|]) && FenceInv(c, ss[|steps|]) && AllFenced(ss[|steps|])
  {
    if steps != [] {
      var n := |steps| - 1;
      RunFenced(c, ss[..n + 1], steps[..n]);
      StepFence(c, ss[n], steps[n]);
      StepFenced(c, ss[n], steps[n]);
      StepInv(c, ss[n], steps[n]);
    }
  }

  lemma InitFenced(c: Setup, s: State)
    requires Init(s)
    ensures Inv(c, s) && FenceInv(c, s) && AllFenced(s)
  {
  }

  /** Fencing over all runs: a settlement only ever succeeds on the claim it belongs to. */
  lemma Fencing(c: Setup, s: State)
    requires ValidPolicy(c.policy) && DistinctOwners(c) && Reachable(c, s)
    ensures AllFenced(s)
  {
    var s0: State :| Init(s0) && Leads(c, s0, s);
    var ss: seq<State>, steps: seq<Step> :| IsRun(c, ss, steps) && ss[0] == s0 && ss[|steps|] == s;
    InitFenced(c, s0);
    RunFenced(c, ss, steps);
  }

  // ---------- The guard is not enough when two loops share a worker id ----------

  /** A row that is the only one in the table is what any claim returns, once it is eligible. */
  lemma OnlyRowReturned(rows: Table, id: Id, now: Time, limit: nat)
    requires rows.Keys == {id} && Eligible(rows[id], now) && limit >= 1
    ensures Returning(rows, now, {}, limit, [id])
  {
    assert Candidates(rows, now, {}) == {id} == Members([id]);
  }

  /** Inserts an event and lets loop `k` claim it. */
  lemma ClaimOfNewEvent(c: Setup, e: Event.Envelope, k: Loop) returns (s: State)
    requires ValidPolicy(c.policy) && InsertRow(map[], e, 0).Ok?
    ensures var id := Uuid.Key(e.id);
      && Reachable(c, s)
      && s.now == 0 && s.rows.Keys == s.logs.Keys == {id} && s.workers.Keys == {k}
      && s.rows[id].status.Publishing? && s.rows[id].attempts == 1
      && s.rows[id].leaseExpiresAt == Some(LeaseLength(c.policy))
      && s.workers[k].phase.Ready? && |s.workers[k].batch| == 1
      && s.workers[k].batch[0].id == id && s.workers[k].batch[0].attempt == 1
      && s.rows[id].leaseOwner == Some(c.own(k)) && s.rows[id].event.envelope == e && s.stream == []
      && s.workers[k].batch[0].event == s.rows[id].event
  {
    var id := Uuid.Key(e.id);
    var s0 := State(0, map[], map[], map[], []);
    var s1 := Apply(c, s0, Insert(e, 0));
    LeadsBy(c, s0, Insert(e, 0));
    OnlyRowReturned(s1.rows, id, 0, c.policy.batchSize);
    var claim := Claim(k, {}, [id], true);
    s := Apply(c, s1, claim);
    LeadsBy(c, s1, claim);
    LeadsThrough(c, s0, s1, s);
    assert Init(s0);
  }

  /** The first loop publishes; its lease runs out; the second loop claims the row again. */
  lemma SecondClaim(c: Setup, s: State, id: Id, k: Loop, l: Loop) returns (t: State)
    requires ValidPolicy(c.policy) && k != l && s.rows.Keys == s.logs.Keys == {id} && s.workers.Keys == {k}
    requires s.now == 0 && s.rows[id].status.Publishing? && s.rows[id].attempts == 1
    requires s.rows[id].leaseExpiresAt == Some(LeaseLength(c.policy))
    requires s.workers[k].phase.Ready? && |s.workers[k].batch| == 1
    requires s.workers[k].batch[0].id == id && s.workers[k].batch[0].attempt == 1
    ensures Leads(c, s, t)
    ensures k in t.workers && t.workers[k].phase.Acked? && t.workers[k].batch == s.workers[k].batch
    ensures id in t.rows && id in t.logs && t.rows[id].attempts == 2
    ensures t.rows[id].status.Publishing? && t.rows[id].leaseOwner == Some(c.own(l))
  {
    var s1 := Apply(c, s, Publish(k, true, true));
    LeadsBy(c, s, Publish(k, true, true));
    var later := Tick(LeaseLength(c.policy));
    var s2 := Apply(c, s1, later);
    LeadsBy(c, s1, later);
    LeadsThrough(c, s, s1, s2);
    OnlyRowReturned(s2.rows, id, s2.now, c.policy.batchSize);
    var claim := Claim(l, {}, [id], true);
    t := Apply(c, s2, claim);
    LeadsBy(c, s2, claim);
    LeadsThrough(c, s, s2, t);
  }

  /** Two loops under one worker id: the first settles the second's claim. */
  lemma SharedOwnerUnfenced(c: Setup, e: Event.Envelope, k: Loop, l: Loop) returns (u: State)
    requires ValidPolicy(c.policy) && InsertRow(map[], e, 0).Ok?
    requires k != l && c.own(k) == c.own(l)
    ensures Reachable(c, u) && !AllFenced(u)
  {
    var id := Uuid.Key(e.id);
    var s := ClaimOfNewEvent(c, e, k);
    var s0: State :| Init(s0) && Leads(c, s0, s);
    var t := SecondClaim(c, s, id, k, l);
    var settle := MarkPublished(k, true, true);
    u := Apply(c, t, settle);
    LeadsBy(c, t, settle);
    LeadsThrough(c, s, t, u);
    LeadsThrough(c, s0, s, u);
    var log := u.logs[id];
    assert log[|log| - 1] == Completed(t.now, k, 2, 1);
    assert !FencedAt(log, |log| - 1);
  }

  /** Fencing holds in every run if and only if no two loops share a worker id. */
  lemma FencingExact(c: Setup, e: Event.Envelope)
    requires ValidPolicy(c.policy) && InsertRow(map[], e, 0).Ok?
    ensures (forall s :: Reachable(c, s) ==> AllFenced(s)) <==> DistinctOwners(c)
  {
    if DistinctOwners(c) {
      forall s | Reachable(c, s)
        ensures AllFenced(s)
      {
        Fencing(c, s);
      }
    } else {
      var k, l :| c.own(k) == c.own(l) && k != l;
      var u := SharedOwnerUnfenced(c, e, k, l);
    }
  }
}
