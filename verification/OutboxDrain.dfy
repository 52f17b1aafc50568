/**
 Draining: one relay, a healthy broker and no inserts. Each batch publishes the next batchSize due rows, so
 ceil(n / batchSize) batches publish all n of them - no sooner and no later - with one attempt each.
 */
module OutboxDrain {

  import opened Wrappers
  import opened OutboxTable
  import opened OutboxMachine
  import opened OutboxInvariants
  import opened OutboxTheorems

  /** A step of loop `l` when every call succeeds, or the passing of time. */
  predicate Healthy(step: Step, l: Loop) {
    match step
    case Tick(_) => true
    case Claim(k, locked, _, delivered) => k == l && locked == {} && delivered
    case Publish(k, _, acked) => k == l && acked
    case MarkPublished(k, reaches, reported) => k == l && reaches && reported
    case _ => false
  }

  function Live(rows: Table): set<Id> {
    set id | id in rows && !Terminal(rows[id])
  }

  /** Nothing is in flight and every unfinished row is due. */
  predicate AllDue(s: State, l: Loop) {
    && WorkerOf(s, l).batch == []
    && forall id :: id in Live(s.rows) ==> s.rows[id].status.Pending? && s.rows[id].nextAttemptAt <= s.now
  }

  predicate InBatch(w: Worker, id: Id) {
    exists i :: 0 <= i < |w.batch| && w.batch[i].id == id
  }

  /** A row that was due at the start is untouched, in the batch, or published with one more attempt. */
  predicate Stage(c: Setup, l: Loop, w: Worker, id: Id, row0: Row, row: Row) {
    if InBatch(w, id) then
      row.status.Publishing? && row.leaseOwner == Some(c.own(l)) && row.attempts == row0.attempts + 1
    else row == row0 || (row.status.Published? && row.attempts == row0.attempts + 1)
  }

  predicate StagesOk(c: Setup, l: Loop, w: Worker, rows0: Table, rows: Table) {
    && rows.Keys == rows0.Keys
    && (forall id :: id in rows0 && id !in Live(rows0) ==> rows[id] == rows0[id])
    && (forall id :: id in Live(rows0) ==> Stage(c, l, w, id, rows0[id], rows[id]))
  }

  predicate BatchLive(w: Worker, rows0: Table) {
    forall i :: 0 <= i < |w.batch| ==> w.batch[i].id in Live(rows0)
  }

  /** The rows still waiting. */
  function Waiting(rows0: Table, rows: Table): set<Id> {
    set id | id in Live(rows0) && id in rows && rows[id] == rows0[id]
  }

  function Less(n: nat, b: nat): nat {
    if n <= b then 0 else n - b
  }

  /** What is left of `n` rows after `k` batches. */
  function Remaining(n: nat, b: nat, k: nat): nat {
    if k == 0 then n else Less(Remaining(n, b, k - 1), b)
  }

  predicate DrainInv(c: Setup, s0: State, s: State, l: Loop, batches: nat) {
    && s0.now <= s.now
    && StagesOk(c, l, WorkerOf(s, l), s0.rows, s.rows)
    && BatchLive(WorkerOf(s, l), s0.rows)
    && |Waiting(s0.rows, s.rows)| == Remaining(|Live(s0.rows)|, c.policy.batchSize, batches)
  }

  lemma DrainStart(c: Setup, s0: State, l: Loop)
    requires AllDue(s0, l)
    ensures DrainInv(c, s0, s0, l, 0)
  {
    assert Waiting(s0.rows, s0.rows) == Live(s0.rows);
  }

  // ---------- Claim ----------

  /** Between batches exactly the waiting rows are eligible. */
  lemma WaitingAreCandidates(c: Setup, s0: State, s: State, l: Loop, k: nat)
    requires AllDue(s0, l) && DrainInv(c, s0, s, l, k) && WorkerOf(s, l).batch == []
    ensures Candidates(s.rows, s.now, {}) == Waiting(s0.rows, s.rows)
  {
    forall id | id in s.rows
      ensures Eligible(s.rows[id], s.now) <==> id in Waiting(s0.rows, s.rows)
    {
      if id in Live(s0.rows) {
        assert Stage(c, l, WorkerOf(s, l), id, s0.rows[id], s.rows[id]);
      }
    }
  }

  lemma ClaimInBatch(rows: Table, answer: seq<Id>, at: Time, id: Id)
    requires Members(answer) <= rows.Keys
    ensures InBatch(Worker(RecordsOf(rows, answer), Ready, at), id) <==> id in Members(answer)
  {
    var w := Worker(RecordsOf(rows, answer), Ready, at);
    if id in Members(answer) {
      var i :| 0 <= i < |answer| && answer[i] == id;
      assert w.batch[i].id == id;
    }
  }

  lemma ClaimWaiting(rows0: Table, rows: Table, chosen: set<Id>, owner: WorkerId, now: Time, lease: int)
    requires rows.Keys == rows0.Keys && chosen <= Waiting(rows0, rows)
    ensures Waiting(rows0, ClaimRows(rows, chosen, owner, now, lease)) == Waiting(rows0, rows) - chosen
  {
  }

  lemma ClaimStages(c: Setup, l: Loop, w: Worker, rows0: Table, rows: Table, answer: seq<Id>, now: Time, lease: int)
    requires StagesOk(c, l, w, rows0, rows) && w.batch == [] && Members(answer) <= Waiting(rows0, rows)
    ensures var rows' := ClaimRows(rows, Members(answer), c.own(l), now, lease);
      var v := Worker(RecordsOf(rows', answer), Ready, now);
      StagesOk(c, l, v, rows0, rows') && BatchLive(v, rows0)
  {
    var rows' := ClaimRows(rows, Members(answer), c.own(l), now, lease);
    var v := Worker(RecordsOf(rows', answer), Ready, now);
    forall id | id in Live(rows0)
      ensures Stage(c, l, v, id, rows0[id], rows'[id])
    {
      ClaimInBatch(rows', answer, now, id);
      assert Stage(c, l, w, id, rows0[id], rows[id]);
    }
    forall i | 0 <= i < |v.batch|
      ensures v.batch[i].id in Live(rows0)
    {
      assert answer[i] in Members(answer);
    }
  }

  lemma DrainClaim(c: Setup, s0: State, s: State, l: Loop, answer: seq<Id>, k: nat)
    requires AllDue(s0, l) && DrainInv(c, s0, s, l, k)
    requires Enabled(c, s, Claim(l, {}, answer, true))
    ensures DrainInv(c, s0, ApplyClaim(c, s, l, answer, true), l, k + 1)
  {
    var lease, chosen := LeaseLength(c.policy), Members(answer);
    WaitingAreCandidates(c, s0, s, l, k);
    ClaimWaiting(s0.rows, s.rows, chosen, c.own(l), s.now, lease);
    assert |Waiting(s0.rows, s.rows) - chosen| == |Waiting(s0.rows, s.rows)| - |chosen|;
    ClaimStages(c, l, WorkerOf(s, l), s0.rows, s.rows, answer, s.now, lease);
  }

  // ---------- Publication and completion ----------

  lemma StagesOfBatch(c: Setup, l: Loop, w: Worker, v: Worker, rows0: Table, rows: Table)
    requires StagesOk(c, l, w, rows0, rows) && v.batch == w.batch
    ensures StagesOk(c, l, v, rows0, rows)
  {
    forall id | id in Live(rows0)
      ensures Stage(c, l, v, id, rows0[id], rows[id])
    {
      assert Stage(c, l, w, id, rows0[id], rows[id]);
      assert InBatch(v, id) <==> InBatch(w, id);
    }
  }

  lemma DrainPublish(c: Setup, s0: State, s: State, l: Loop, appended: bool, k: nat)
    requires DrainInv(c, s0, s, l, k) && Enabled(c, s, Publish(l, appended, true))
    ensures DrainInv(c, s0, ApplyPublish(c, s, l, appended, true), l, k)
  {
    var t := ApplyPublish(c, s, l, appended, true);
    StagesOfBatch(c, l, WorkerOf(s, l), WorkerOf(t, l), s0.rows, s.rows);
  }

  lemma NextInBatch(w: Worker, id: Id)
    requires w.batch != [] && DistinctRecords(w.batch)
    ensures InBatch(AfterSettling(w, true), id) <==> InBatch(w, id) && id != w.batch[0].id
  {
    var v := AfterSettling(w, true);
    if InBatch(w, id) && id != w.batch[0].id {
      var i :| 0 <= i < |w.batch| && w.batch[i].id == id;
      assert v.batch[i - 1].id == id;
    }
    if InBatch(v, id) {
      var i :| 0 <= i < |v.batch| && v.batch[i].id == id;
      assert w.batch[i + 1].id == id;
    }
  }

  lemma CompleteStages(c: Setup, l: Loop, w: Worker, rows0: Table, rows: Table, now: Time)
    requires StagesOk(c, l, w, rows0, rows) && BatchLive(w, rows0) && w.batch != [] && DistinctRecords(w.batch)
    ensures var head := w.batch[0].id;
      var rows', v := rows[head := CompleteRow(rows[head], now)], AfterSettling(w, true);
      StagesOk(c, l, v, rows0, rows') && BatchLive(v, rows0) && Waiting(rows0, rows') == Waiting(rows0, rows)
  {
    var head, v := w.batch[0].id, AfterSettling(w, true);
    var rows' := rows[head := CompleteRow(rows[head], now)];
    assert InBatch(w, head);
    assert Stage(c, l, w, head, rows0[head], rows[head]);
    forall id | id in Live(rows0)
      ensures Stage(c, l, v, id, rows0[id], rows'[id])
    {
      NextInBatch(w, id);
      assert Stage(c, l, w, id, rows0[id], rows[id]);
    }
    forall i | 0 <= i < |v.batch|
      ensures v.batch[i].id in Live(rows0)
    {
      assert v.batch[i] == w.batch[i + 1];
    }
  }

  lemma DrainComplete(c: Setup, s0: State, s: State, l: Loop, k: nat)
    requires Inv(c, s) && DrainInv(c, s0, s, l, k) && Enabled(c, s, MarkPublished(l, true, true))
    ensures DrainInv(c, s0, ApplyMarkPublished(c, s, l, true, true), l, k)
  {
    assert WorkerOk(c, s, l, WorkerOf(s, l));
    CompleteStages(c, l, WorkerOf(s, l), s0.rows, s.rows, s.now);
  }

  // ---------- Runs ----------

  lemma DrainStep(c: Setup, s0: State, s: State, step: Step, l: Loop, k: nat)
    requires AllDue(s0, l) && Inv(c, s) && DrainInv(c, s0, s, l, k)
    requires Enabled(c, s, step) && Healthy(step, l)
    ensures DrainInv(c, s0, Apply(c, s, step), l, if step.Claim? then k + 1 else k)
  {
    match step
    case Claim(_, _, answer, _) => DrainClaim(c, s0, s, l, answer, k);
    case Publish(_, appended, _) => DrainPublish(c, s0, s, l, appended, k);
    case MarkPublished(_, _, _) => DrainComplete(c, s0, s, l, k);
    case Tick(to) => assert WorkerOf(s.(now := to), l) == WorkerOf(s, l);
  }

  lemma {:induction false} DrainRun(c: Setup, ss: seq<State>, steps: seq<Step>, l: Loop, n: nat)
    requires ValidPolicy(c.policy) && IsRun(c, ss, steps) && n <= |steps|
    requires Inv(c, ss[0]) && AllDue(ss[0], l)
    requires forall i :: 0 <= i < |steps| ==> Healthy(steps[i], l)
    ensures Inv(c, ss[n]) && DrainInv(c, ss[0], ss[n], l, Claims(steps, n))
  {
    if n == 0 {
      DrainStart(c, ss[0], l);
    } else {
      DrainRun(c, ss, steps, l, n - 1);
      DrainStep(c, ss[0], ss[n - 1], steps[n - 1], l, Claims(steps, n - 1));
      StepInv(c, ss[n - 1], steps[n - 1]);
    }
  }

  /** ceil(n / b). */
  function Ceiling(n: nat, b: nat): nat
    requires b >= 1
  {
    (n + b - 1) / b
  }

  lemma {:induction false} RemainingAfter(n: nat, b: nat, k: nat)
    ensures Remaining(n, b, k) == Less(n, k * b)
  {
    if k > 0 {
      RemainingAfter(n, b, k - 1);
      assert k * b == (k - 1) * b + b;
    }
  }

  lemma Distributes(x: int, y: int, b: nat)
    ensures (x + y) * b == x * b + y * b
    ensures y >= 0 ==> y * b >= 0
  {
  }

  /** The ceiling as a quotient `q` with remainder `r`. */
  lemma QuotientBound(n: nat, b: nat, k: nat, q: int, r: int)
    requires n + b - 1 == q * b + r && 0 <= r < b
    ensures n <= k * b <==> k >= q
  {
    if k >= q {
      Distributes(q, k - q, b);
    } else {
      Distributes(k + 1, q - 1 - k, b);
      Distributes(k, 1, b);
    }
  }

  lemma CeilingBound(n: nat, b: nat, k: nat)
    requires b >= 1
    ensures n <= k * b <==> k >= Ceiling(n, b)
  {
    QuotientBound(n, b, k, (n + b - 1) / b, (n + b - 1) % b);
  }

  lemma NothingRemains(n: nat, b: nat, k: nat)
    requires b >= 1
    ensures Remaining(n, b, k) == 0 <==> k >= Ceiling(n, b)
  {
    RemainingAfter(n, b, k);
    CeilingBound(n, b, k);
  }

  /**
   Draining: in any healthy run of one loop over n due rows, once the loop is between batches, every one of the n rows
   is published after exactly one more attempt if and only if at least ceil(n / batchSize) batches were claimed.
   */
  lemma Drains(c: Setup, ss: seq<State>, steps: seq<Step>, l: Loop)
    requires ValidPolicy(c.policy) && IsRun(c, ss, steps) && Reachable(c, ss[0]) && AllDue(ss[0], l)
    requires forall i :: 0 <= i < |steps| ==> Healthy(steps[i], l)
    requires WorkerOf(ss[|steps|], l).batch == []
    ensures var s, t, live := ss[0], ss[|steps|], Live(ss[0].rows);
      Claims(steps, |steps|) >= Ceiling(|live|, c.policy.batchSize) <==>
      forall id :: id in live ==>
        id in t.rows && t.rows[id].status.Published? && t.rows[id].attempts == s.rows[id].attempts + 1
  {
    var s, t, live := ss[0], ss[|steps|], Live(ss[0].rows);
    ReachableSound(c, s);
    DrainRun(c, ss, steps, l, |steps|);
    NothingRemains(|live|, c.policy.batchSize, Claims(steps, |steps|));
    forall id | id in live
      ensures id in Waiting(s.rows, t.rows) <==>
        !(t.rows[id].status.Published? && t.rows[id].attempts == s.rows[id].attempts + 1)
    {
      assert Stage(c, l, WorkerOf(t, l), id, s.rows[id], t.rows[id]);
    }
  }
}
