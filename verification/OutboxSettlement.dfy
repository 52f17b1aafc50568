/** What a loop still remembers, it has not settled: each record of a batch is settled by its loop at most once. */
module OutboxSettlement {

  import opened Wrappers
  import opened OutboxTable
  import opened OutboxMachine
  import opened OutboxHistory
  import opened OutboxInvariants
  import opened OutboxFence
  import opened OutboxStream
  import opened OutboxTheorems
  import Event
  import Uuid

  predicate SettlesFor(f: Fact, l: Loop, attempt: nat) {
    Settles(f) && f.loop == l && f.claimed == attempt
  }

  /** Loop `l` has settled its claim with this attempt number. */
  predicate SettledBy(log: Log, l: Loop, attempt: nat) {
    exists j :: 0 <= j < |log| && SettlesFor(log[j], l, attempt)
  }

  predicate UnsettledRecord(logs: map<Id, Log>, l: Loop, r: Record) {
    r.id in logs ==> !SettledBy(logs[r.id], l, r.attempt)
  }

  predicate Unsettled(logs: map<Id, Log>, l: Loop, w: Worker) {
    forall i :: 0 <= i < |w.batch| ==> UnsettledRecord(logs, l, w.batch[i])
  }

  predicate SettlementInv(s: State) {
    forall l :: l in s.workers ==> Unsettled(s.logs, l, s.workers[l])
  }

  lemma SettledByExtends(log: Log, log': Log, l: Loop, attempt: nat)
    requires SettledBy(log, l, attempt) && log <= log'
    ensures SettledBy(log', l, attempt)
  {
    var j :| 0 <= j < |log| && SettlesFor(log[j], l, attempt);
    assert SettlesFor(log'[j], l, attempt);
  }

  lemma SettledByAppend(log: Log, f: Fact, l: Loop, attempt: nat)
    ensures SettledBy(log + [f], l, attempt) <==> SettledBy(log, l, attempt) || SettlesFor(f, l, attempt)
  {
    if SettledBy(log, l, attempt) {
      SettledByExtends(log, log + [f], l, attempt);
    }
    if SettlesFor(f, l, attempt) {
      assert SettlesFor((log + [f])[|log|], l, attempt);
    }
    if SettledBy(log + [f], l, attempt) && !SettlesFor(f, l, attempt) {
      var j :| 0 <= j < |log| + 1 && SettlesFor((log + [f])[j], l, attempt);
      assert SettlesFor(log[j], l, attempt);
    }
  }

  /** In a fenced history no settlement carries a number above the row's count. */
  lemma FreshUnsettled(c: Setup, now: Time, row: Row, log: Log, l: Loop, attempt: nat)
    requires RowOk(c, now, row, log) && Fenced(log) && attempt > row.attempts
    ensures !SettledBy(log, l, attempt)
  {
    if SettledBy(log, l, attempt) {
      var j :| 0 <= j < |log| && SettlesFor(log[j], l, attempt);
      assert FencedAt(log, j);
      if j < |log| - 1 {
        Growth(c, row.createdAt, log, j, |log| - 1);
      }
    }
  }

  lemma ClaimedUnsettled(c: Setup, s: State, l: Loop, answer: seq<Id>, delivered: bool)
    requires TableOk(c, s) && AllFenced(s) && Members(answer) <= s.rows.Keys
    ensures var t := ApplyClaim(c, s, l, answer, delivered); Unsettled(t.logs, l, WorkerOf(t, l))
  {
    var t := ApplyClaim(c, s, l, answer, delivered);
    var w := WorkerOf(t, l);
    forall i | 0 <= i < |w.batch|
      ensures UnsettledRecord(t.logs, l, w.batch[i])
    {
      var id, r := answer[i], w.batch[i];
      assert id in Members(answer);
      FreshUnsettled(c, s.now, s.rows[id], s.logs[id], l, r.attempt);
      SettledByAppend(s.logs[id], t.logs[id][|s.logs[id]|], l, r.attempt);
    }
  }

  /** How one step may extend a row's history, as far as loop `l` is concerned with a record of it. */
  lemma UnsettledStep(c: Setup, s: State, step: Step, l: Loop, r: Record)
    requires Enabled(c, s, step) && r.id in s.logs && UnsettledRecord(s.logs, l, r)
    requires Actor(step) == Some(l) && (step.MarkPublished? || step.MarkFailed?) ==> WorkerOf(s, l).batch[0].id != r.id
    ensures UnsettledRecord(Apply(c, s, step).logs, l, r)
  {
    var t := Apply(c, s, step);
    if t.logs[r.id] != s.logs[r.id] && !step.Insert? {
      var f := t.logs[r.id][|s.logs[r.id]|];
      assert t.logs[r.id] == s.logs[r.id] + [f];
      SettledByAppend(s.logs[r.id], f, l, r.attempt);
    }
  }

  lemma StepSettlement(c: Setup, s: State, step: Step)
    requires ValidPolicy(c.policy) && Inv(c, s) && AllFenced(s) && SettlementInv(s) && Enabled(c, s, step)
    ensures SettlementInv(Apply(c, s, step))
  {
    var t := Apply(c, s, step);
    forall l | l in t.workers
      ensures Unsettled(t.logs, l, t.workers[l])
    {
      if Actor(step) == Some(l) && step.Claim? {
        ClaimedUnsettled(c, s, l, step.answer, step.delivered);
      } else {
        RememberedUnsettled(c, s, step, l);
      }
    }
  }

  lemma RememberedUnsettled(c: Setup, s: State, step: Step, l: Loop)
    requires Inv(c, s) && SettlementInv(s) && Enabled(c, s, step)
    requires Actor(step) != Some(l) || !step.Claim?
    ensures Unsettled(Apply(c, s, step).logs, l, WorkerOf(Apply(c, s, step), l))
  {
    var w, v := WorkerOf(s, l), WorkerOf(Apply(c, s, step), l);
    RemembersTail(c, s, step, l);
    forall j | |w.batch| - |v.batch| <= j < |w.batch|
      ensures UnsettledRecord(Apply(c, s, step).logs, l, w.batch[j])
    {
      RememberedRecord(c, s, step, l, j);
    }
    TailUnsettled(Apply(c, s, step).logs, l, w, v);
  }

  lemma TailUnsettled(logs: map<Id, Log>, l: Loop, w: Worker, v: Worker)
    requires |v.batch| <= |w.batch| && v.batch == w.batch[|w.batch| - |v.batch|..]
    requires forall j :: |w.batch| - |v.batch| <= j < |w.batch| ==> UnsettledRecord(logs, l, w.batch[j])
    ensures Unsettled(logs, l, v)
  {
    forall i | 0 <= i < |v.batch|
      ensures UnsettledRecord(logs, l, v.batch[i])
    {
      assert v.batch[i] == w.batch[|w.batch| - |v.batch| + i];
    }
  }

  lemma RememberedRecord(c: Setup, s: State, step: Step, l: Loop, j: nat)
    requires Inv(c, s) && SettlementInv(s) && Enabled(c, s, step) && j < |WorkerOf(s, l).batch|
    requires Actor(step) == Some(l) && (step.MarkPublished? || step.MarkFailed?) ==> j > 0
    ensures UnsettledRecord(Apply(c, s, step).logs, l, WorkerOf(s, l).batch[j])
  {
    var w := WorkerOf(s, l);
    assert WorkerOk(c, s, l, w) && Unsettled(s.logs, l, w);
    assert RecordOk(s.rows, s.logs, l, w.batch[j], w.claimedAt);
    UnsettledStep(c, s, step, l, w.batch[j]);
  }

  /** Without a claim, a loop's batch only loses records from the front. */
  lemma RemembersTail(c: Setup, s: State, step: Step, l: Loop)
    requires Enabled(c, s, step) && (Actor(step) != Some(l) || !step.Claim?)
    ensures var w, v := WorkerOf(s, l), WorkerOf(Apply(c, s, step), l);
      && |v.batch| <= |w.batch|
      && v.batch == w.batch[|w.batch| - |v.batch|..]
      && (Actor(step) == Some(l) && (step.MarkPublished? || step.MarkFailed?) ==> |v.batch| < |w.batch|)
  {
    if Actor(step) != Some(l) {
      OthersKeep(c, s, step, l);
    }
  }

  /** Everything known of a reachable state when no two loops share a worker id. */
  predicate Good(c: Setup, s: State) {
    Sound(c, s) && FenceInv(c, s) && AllFenced(s) && SettlementInv(s)
  }

  lemma {:induction false} RunGood(c: Setup, ss: seq<State>, steps: seq<Step>)
    requires ValidPolicy(c.policy) && DistinctOwners(c) && IsRun(c, ss, steps) && Good(c, ss[0])
    ensures Good(c, ss[|steps|])
  {
    if steps != [] {
      var n := |steps| - 1;
      RunGood(c, ss[..n + 1], steps[..n]);
      GoodStep(c, ss[n], steps[n]);
    }
  }

  lemma GoodStep(c: Setup, s: State, step: Step)
    requires ValidPolicy(c.policy) && DistinctOwners(c) && Good(c, s) && Enabled(c, s, step)
    ensures Good(c, Apply(c, s, step))
  {
    StepInv(c, s, step);
    StepStream(c, s, step);
    StepIdentity(c, s, step);
    StepFence(c, s, step);
    StepFenced(c, s, step);
    StepSettlement(c, s, step);
  }

  lemma ReachableGood(c: Setup, s: State)
    requires ValidPolicy(c.policy) && DistinctOwners(c) && Reachable(c, s)
    ensures Good(c, s)
  {
    var s0: State :| Init(s0) && Leads(c, s0, s);
    var ss: seq<State>, steps: seq<Step> :| IsRun(c, ss, steps) && ss[0] == s0 && ss[|steps|] == s;
    InitFenced(c, s0);
    RunGood(c, ss, steps);
  }

  // ---------- A claim whose outcome is lost ----------

  /**
   A claim that takes effect without being returned leaves its row leased, remembered by nobody and settled by nobody:
   any loop can come into this state with any event.
   */
  lemma UnreturnedClaim(c: Setup, e: Event.Envelope, l: Loop) returns (s: State, t: State)
    requires ValidPolicy(c.policy) && InsertRow(map[], e, 0).Ok?
    ensures var id := Uuid.Key(e.id);
      && Reachable(c, s) && Reachable(c, t) && Enabled(c, s, Claim(l, {}, [id], false))
      && t == Apply(c, s, Claim(l, {}, [id], false)) && WorkerOf(t, l).batch == []
      && id in t.rows && t.rows[id].status.Publishing? && t.rows[id].leaseOwner == Some(c.own(l))
      && t.workers.Keys == {l} && id in t.logs && t.logs[id] == [Leased(0, l, 1, LeaseLength(c.policy), false)]
      && !SettledBy(t.logs[id], l, t.rows[id].attempts)
  {
    var id := Uuid.Key(e.id);
    var s0 := State(0, map[], map[], map[], []);
    s := Apply(c, s0, Insert(e, 0));
    LeadsBy(c, s0, Insert(e, 0));
    OnlyRowReturned(s.rows, id, 0, c.policy.batchSize);
    var claim := Claim(l, {}, [id], false);
    t := Apply(c, s, claim);
    LeadsBy(c, s, claim);
    LeadsThrough(c, s0, s, t);
    assert Init(s0);
  }
}
