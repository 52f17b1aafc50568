/**
 Bounded waiting: how often a due row can be passed over. The argument is a potential: each older row carries the
 attempts it has left, and a claim that passes a row over spends one attempt of each of batchSize older rows.
 */
module OutboxWaiting {

  import opened OutboxTable
  import opened OutboxMachine
  import opened OutboxHistory
  import opened OutboxInvariants
  import opened OutboxTheorems
  import OutboxStream

  /** Unfinished rows that sort before row `r`. */
  function Older(rows: Table, r: Id): set<Id>
    requires r in rows
  {
    set id | id in rows && !Terminal(rows[id]) && Precedes(rows, id, r)
  }

  lemma OlderInColumns(rows: Table, r: Id)
    requires r in rows
    ensures Older(rows, r) == set id | id in rows && (rows[id].status == Pending || rows[id].status == Publishing)
      && (rows[id].createdAt < rows[r].createdAt || (rows[id].createdAt == rows[r].createdAt && id < r))
  {
  }

  /** The attempts a row has left. */
  function Budget(p: Policy, row: Row): nat {
    if Terminal(row) || row.attempts >= p.maxAttempts then 0 else p.maxAttempts - row.attempts
  }

  function Potential(p: Policy, rows: Table, ids: seq<Id>): nat {
    if ids == [] then 0
    else Potential(p, rows, ids[1..]) + (if ids[0] in rows then Budget(p, rows[ids[0]]) else 0)
  }

  /** How many of `ids` are in `chosen`. */
  function Hits(ids: seq<Id>, chosen: set<Id>): nat {
    if ids == [] then 0 else Hits(ids[1..], chosen) + (if ids[0] in chosen then 1 else 0)
  }

  lemma {:induction false} HitsAll(ids: seq<Id>, chosen: set<Id>)
    requires Distinct(ids) && chosen <= Members(ids)
    ensures Hits(ids, chosen) == |chosen|
  {
    if ids == [] {
      assert chosen == {};
    } else {
      var rest := chosen - {ids[0]};
      assert rest <= Members(ids[1..]);
      HitsAll(ids[1..], rest);
      HitsOutside(ids[1..], chosen, ids[0]);
    }
  }

  lemma {:induction false} HitsOutside(ids: seq<Id>, chosen: set<Id>, x: Id)
    requires x !in ids
    ensures Hits(ids, chosen) == Hits(ids, chosen - {x})
  {
    if ids != [] {
      HitsOutside(ids[1..], chosen, x);
    }
  }

  lemma {:induction false} Enumerate(s: set<Id>) returns (ids: seq<Id>)
    ensures Distinct(ids) && Members(ids) == s && |ids| == |s|
    decreases s
  {
    if s == {} {
      ids := [];
    } else {
      var x :| x in s;
      var rest := Enumerate(s - {x});
      ids := [x] + rest;
      assert x !in Members(rest);
      assert Members(ids) == {x} + Members(rest);
    }
  }

  lemma {:induction false} PotentialBound(p: Policy, rows: Table, ids: seq<Id>)
    ensures Potential(p, rows, ids) <= |ids| * p.maxAttempts
  {
    if ids != [] {
      PotentialBound(p, rows, ids[1..]);
      assert |ids| * p.maxAttempts == |ids[1..]| * p.maxAttempts + p.maxAttempts;
    }
  }

  /** If no row's budget grows and every chosen row's budget shrinks, the potential pays for the chosen rows. */
  lemma {:induction false} PotentialPays(p: Policy, rows: Table, rows': Table, ids: seq<Id>, chosen: set<Id>)
    requires rows.Keys <= rows'.Keys && Members(ids) <= rows.Keys
    requires forall id :: id in rows ==> Budget(p, rows'[id]) + (if id in chosen then 1 else 0) <= Budget(p, rows[id])
    ensures Potential(p, rows', ids) + Hits(ids, chosen) <= Potential(p, rows, ids)
  {
    if ids != [] {
      assert ids[0] in Members(ids);
      assert Members(ids[1..]) <= Members(ids);
      PotentialPays(p, rows, rows', ids[1..], chosen);
    }
  }

  // ---------- One step ----------

  lemma PendingHasBudget(c: Setup, now: Time, row: Row, log: Log)
    requires ValidPolicy(c.policy) && RowOk(c, now, row, log) && row.status.Pending?
    ensures Budget(c.policy, row) >= 1
  {
  }

  /** No step raises a budget; a claim of pending rows lowers theirs. */
  lemma StepBudget(c: Setup, s: State, step: Step, id: Id)
    requires ValidPolicy(c.policy) && Inv(c, s) && Enabled(c, s, step) && id in s.rows
    requires step.Claim? ==> forall x :: x in Members(step.answer) ==> x in s.rows && s.rows[x].status.Pending?
    ensures id in Apply(c, s, step).rows
    ensures var chosen := if step.Claim? then Members(step.answer) else {};
      Budget(c.policy, Apply(c, s, step).rows[id]) + (if id in chosen then 1 else 0) <= Budget(c.policy, s.rows[id])
  {
    assert RowOk(c, s.now, s.rows[id], s.logs[id]);
    if Terminal(s.rows[id]) {
      TerminalStep(c, s, step, id);
    }
    if s.rows[id].status.Pending? {
      PendingHasBudget(c, s.now, s.rows[id], s.logs[id]);
    }
  }

  /** A claim that passes over an available row takes a full batch, all of it older. */
  lemma PassedOver(rows: Table, now: Time, locked: set<Id>, limit: nat, answer: seq<Id>, r: Id)
    requires Returning(rows, now, locked, limit, answer)
    requires r in rows && r !in locked && Eligible(rows[r], now) && r !in Members(answer)
    ensures |Members(answer)| == limit
    ensures Members(answer) <= Older(rows, r)
  {
    var all := Candidates(rows, now, locked);
    assert r in all;
    assert Members(answer) < all;
    SubsetSize(Members(answer), all);
    forall id | id in Members(answer)
      ensures id in Older(rows, r)
    {
      assert id in all && Precedes(rows, id, r);
    }
  }

  // ---------- Runs ----------

  /** The step reclaims nothing, and inserts nothing that sorts before `r`. */
  predicate Orderly(c: Setup, s: State, step: Step, r: Id)
    requires Enabled(c, s, step)
  {
    && r in s.rows
    && (step.Claim? ==> forall x :: x in Members(step.answer) ==> x in s.rows && s.rows[x].status.Pending?)
    && (step.Insert? ==>
          var rows := Apply(c, s, step).rows;
          forall x :: x in rows && x !in s.rows ==>
            && r in rows
            && (rows[r].createdAt < rows[x].createdAt || (rows[r].createdAt == rows[x].createdAt && r < x)))
  }

  /** The step is a claim that could have taken `r` - due, and locked by nobody - and did not. */
  predicate Skips(s: State, step: Step, r: Id) {
    && step.Claim? && r in s.rows
    && r !in step.locked && Eligible(s.rows[r], s.now) && r !in Members(step.answer)
  }

  lemma OlderBefore(c: Setup, s: State, step: Step, r: Id, id: Id)
    requires Enabled(c, s, step) && Orderly(c, s, step, r) && Extends(s, Apply(c, s, step))
    requires id in Older(Apply(c, s, step).rows, r)
    ensures id in Older(s.rows, r)
  {
    var t := Apply(c, s, step);
    assert RowExtends(s.rows[r], s.logs[r], t.rows[r], t.logs[r]);
    if id !in s.rows {
      OutboxStream.NewRowInserted(c, s, step, id);
      assert false;
    }
    assert RowExtends(s.rows[id], s.logs[id], t.rows[id], t.logs[id]);
    if Terminal(s.rows[id]) {
      TerminalStep(c, s, step, id);
    }
  }

  /** Rows older than `r` were already there, unfinished and older, one step before. */
  lemma OlderShrinks(c: Setup, s: State, step: Step, r: Id)
    requires ValidPolicy(c.policy) && Inv(c, s) && Enabled(c, s, step) && Orderly(c, s, step, r)
    ensures r in Apply(c, s, step).rows && Older(Apply(c, s, step).rows, r) <= Older(s.rows, r)
  {
    StepInv(c, s, step);
    forall id | id in Older(Apply(c, s, step).rows, r)
      ensures id in Older(s.rows, r)
    {
      OlderBefore(c, s, step, r, id);
    }
  }

  /** What one step costs the rows before `r`. */
  function Price(p: Policy, s: State, step: Step, r: Id): nat {
    if Skips(s, step, r) then p.batchSize else 0
  }

  /** Every claim that skips `r` spends batchSize of the older rows' attempts; no step gives any back. */
  lemma SkipSpends(c: Setup, s: State, step: Step, r: Id, ids: seq<Id>)
    requires ValidPolicy(c.policy) && Inv(c, s) && Enabled(c, s, step) && Orderly(c, s, step, r)
    requires Distinct(ids) && Older(s.rows, r) <= Members(ids) <= s.rows.Keys
    ensures Potential(c.policy, Apply(c, s, step).rows, ids) + Price(c.policy, s, step, r)
         <= Potential(c.policy, s.rows, ids)
  {
    var t := Apply(c, s, step);
    var chosen := if step.Claim? then Members(step.answer) else {};
    forall id | id in s.rows
      ensures id in t.rows
      ensures Budget(c.policy, t.rows[id]) + (if id in chosen then 1 else 0) <= Budget(c.policy, s.rows[id])
    {
      StepBudget(c, s, step, id);
    }
    PotentialPays(c.policy, s.rows, t.rows, ids, chosen);
    if Skips(s, step, r) {
      PassedOver(s.rows, s.now, step.locked, c.policy.batchSize, step.answer, r);
      HitsAll(ids, chosen);
    }
  }

  /** How many of the first `n` steps skip `r`. */
  function Skipped(ss: seq<State>, steps: seq<Step>, r: Id, n: nat): nat
    requires n <= |steps| < |ss|
  {
    if n == 0 then 0 else Skipped(ss, steps, r, n - 1) + (if Skips(ss[n - 1], steps[n - 1], r) then 1 else 0)
  }

  /** What the first `n` steps cost the rows before `r`. */
  function Cost(p: Policy, ss: seq<State>, steps: seq<Step>, r: Id, n: nat): nat
    requires n <= |steps| < |ss|
  {
    if n == 0 then 0 else Cost(p, ss, steps, r, n - 1) + Price(p, ss[n - 1], steps[n - 1], r)
  }

  /** `spent` attempts have been paid for out of `total`. */
  predicate Paid(c: Setup, s: State, r: Id, ids: seq<Id>, spent: nat, total: nat) {
    && Inv(c, s)
    && r in s.rows && Older(s.rows, r) <= Members(ids) <= s.rows.Keys
    && Potential(c.policy, s.rows, ids) + spent <= total
  }

  lemma PaidStep(c: Setup, s: State, step: Step, r: Id, ids: seq<Id>, spent: nat, total: nat)
    requires ValidPolicy(c.policy) && Enabled(c, s, step) && Distinct(ids)
    requires Paid(c, s, r, ids, spent, total) && Orderly(c, s, step, r)
    ensures Paid(c, Apply(c, s, step), r, ids, spent + Price(c.policy, s, step, r), total)
  {
    StepInv(c, s, step);
    OlderShrinks(c, s, step, r);
    SkipSpends(c, s, step, r, ids);
  }

  lemma {:induction false} RunPaid(c: Setup, ss: seq<State>, steps: seq<Step>, r: Id, ids: seq<Id>, total: nat, n: nat)
    requires ValidPolicy(c.policy) && IsRun(c, ss, steps) && n <= |steps|
    requires forall i :: 0 <= i < |steps| ==> Orderly(c, ss[i], steps[i], r)
    requires Distinct(ids) && Paid(c, ss[0], r, ids, 0, total)
    ensures Paid(c, ss[n], r, ids, Cost(c.policy, ss, steps, r, n), total)
  {
    if n > 0 {
      RunPaid(c, ss, steps, r, ids, total, n - 1);
      PaidStep(c, ss[n - 1], steps[n - 1], r, ids, Cost(c.policy, ss, steps, r, n - 1), total);
    }
  }

  lemma {:induction false} CostOfSkips(p: Policy, ss: seq<State>, steps: seq<Step>, r: Id, n: nat)
    requires n <= |steps| < |ss|
    ensures Cost(p, ss, steps, r, n) == Skipped(ss, steps, r, n) * p.batchSize
  {
    if n > 0 {
      CostOfSkips(p, ss, steps, r, n - 1);
    }
  }

  /**
   Bounded waiting: over any run without reclaims in which nothing is inserted ahead of row `r`, a row with k unfinished
   rows before it is skipped - passed over by a claim while it is due and unlocked - at most
   floor(k * maxAttempts / batchSize) times, whatever claims are made while it is locked, not due or leased itself.
   */
  lemma BoundedWaiting(c: Setup, ss: seq<State>, steps: seq<Step>, r: Id)
    requires ValidPolicy(c.policy) && IsRun(c, ss, steps) && Reachable(c, ss[0]) && r in ss[0].rows
    requires forall i :: 0 <= i < |steps| ==> Orderly(c, ss[i], steps[i], r)
    ensures var rows := ss[0].rows;
      var before := set id | id in rows && (rows[id].status == Pending || rows[id].status == Publishing)
        && (rows[id].createdAt < rows[r].createdAt || (rows[id].createdAt == rows[r].createdAt && id < r));
      Skipped(ss, steps, r, |steps|) <= |before| * c.policy.maxAttempts / c.policy.batchSize
  {
    ReachableSound(c, ss[0]);
    OlderInColumns(ss[0].rows, r);
    var ids := Enumerate(Older(ss[0].rows, r));
    PotentialBound(c.policy, ss[0].rows, ids);
    RunPaid(c, ss, steps, r, ids, Potential(c.policy, ss[0].rows, ids), |steps|);
    CostOfSkips(c.policy, ss, steps, r, |steps|);
    Quotient(Skipped(ss, steps, r, |steps|), c.policy.batchSize, |Older(ss[0].rows, r)| * c.policy.maxAttempts);
  }

  lemma Quotient(n: nat, b: nat, total: nat)
    requires b >= 1 && n * b <= total
    ensures n <= total / b
  {
    var q := total / b;
    assert n >= q + 1 ==> n * b >= (q + 1) * b;
  }
}
