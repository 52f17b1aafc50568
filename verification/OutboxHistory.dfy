/**
 What a row's history can look like, and what follows from its shape alone: how counts grow, that leases exclude each
 other, that attempts are conserved, that failures are bounded, and how far retries are apart.
 */
module OutboxHistory {

  import opened OutboxTable
  import opened OutboxMachine
  import opened RetryPolicy

  predicate Settles(f: Fact) {
    f.Failed? || f.Completed?
  }

  /** A failure that ended the row's life. */
  predicate Fatal(p: Policy, f: Fact)
    requires f.Failed?
  {
    Exhausted(f.count, f.kind, p.maxAttempts)
  }

  /** `f` may be a row's first fact. */
  predicate LegalFirst(p: Policy, created: Time, f: Fact) {
    f.Leased? && !f.reclaim && f.count == 1 && f.at >= created && f.expires == f.at + LeaseLength(p)
  }

  /** `f` may directly follow `e`. */
  predicate LegalNext(c: Setup, e: Fact, f: Fact) {
    && e.at <= f.at
    && match f
       case Leased(at, _, count, expires, reclaim) =>
         && count == e.count + 1 && expires == at + LeaseLength(c.policy)
         && (match e
             case Leased(_, _, _, until, _) => reclaim && at >= until
             case Failed(_, _, _, _, _, _, next) => !reclaim && !Fatal(c.policy, e) && at >= next
             case Completed(_, _, _, _) => false)
       case Failed(at, loop, count, claimed, observed, kind, next) =>
         && e.Leased? && count == e.count && c.own(loop) == c.own(e.loop)
         && observed <= at && next == observed + Delay(c.policy, kind, claimed)
       case Completed(_, loop, count, _) => e.Leased? && count == e.count && c.own(loop) == c.own(e.loop)
  }

  predicate LegalAt(c: Setup, created: Time, log: Log, i: nat)
    requires i < |log|
  {
    if i == 0 then LegalFirst(c.policy, created, log[0]) else LegalNext(c, log[i - 1], log[i])
  }

  predicate Legal(c: Setup, created: Time, log: Log) {
    forall i :: 0 <= i < |log| ==> LegalAt(c, created, log, i)
  }

  /** The fact at `i` settles exactly the claim before it: same attempt, same loop, after the claim was made. */
  predicate FencedAt(log: Log, i: nat)
    requires i < |log|
  {
    Settles(log[i]) ==>
      && i > 0
      && log[i].claimed == log[i].count
      && log[i].loop == log[i - 1].loop
      && (log[i].Failed? ==> log[i].observed >= log[i - 1].at)
  }

  predicate Fenced(log: Log) {
    forall i :: 0 <= i < |log| ==> FencedAt(log, i)
  }

  lemma LegalAppend(c: Setup, created: Time, log: Log, f: Fact)
    requires Legal(c, created, log)
    requires if log == [] then LegalFirst(c.policy, created, f) else LegalNext(c, log[|log| - 1], f)
    ensures Legal(c, created, log + [f])
  {
    forall i | 0 <= i < |log| + 1
      ensures LegalAt(c, created, log + [f], i)
    {
      assert i < |log| ==> LegalAt(c, created, log, i);
    }
  }

  lemma LegalPrefix(c: Setup, created: Time, log: Log, n: nat)
    requires Legal(c, created, log) && n <= |log|
    ensures Legal(c, created, log[..n])
  {
    forall i | 0 <= i < n
      ensures LegalAt(c, created, log[..n], i)
    {
      assert LegalAt(c, created, log, i);
    }
  }

  lemma FencedAppend(log: Log, f: Fact)
    requires Fenced(log)
    requires FencedAt(log + [f], |log|)
    ensures Fenced(log + [f])
  {
    forall i | 0 <= i < |log| + 1
      ensures FencedAt(log + [f], i)
    {
      assert i < |log| ==> FencedAt(log, i);
    }
  }

  /** Times never run backwards and counts never fall; a claim always raises the count. */
  lemma {:induction false} Growth(c: Setup, created: Time, log: Log, i: nat, j: nat)
    requires Legal(c, created, log)
    requires i < j < |log|
    ensures log[i].at <= log[j].at
    ensures log[i].count <= log[j].count
    ensures log[j].Leased? ==> log[i].count < log[j].count
    decreases j
  {
    assert LegalAt(c, created, log, j);
    if i < j - 1 {
      Growth(c, created, log, i, j - 1);
    }
  }

  /** Each attempt number belongs to one claim. */
  lemma ClaimsDiffer(c: Setup, created: Time, log: Log, i: nat, j: nat)
    requires Legal(c, created, log)
    requires i < |log| && j < |log| && log[i].Leased? && log[j].Leased? && log[i].count == log[j].count
    ensures i == j
  {
    if i < j {
      Growth(c, created, log, i, j);
    } else if j < i {
      Growth(c, created, log, j, i);
    }
  }

  /** Each attempt number is settled at most once. */
  lemma SettledOnce(c: Setup, created: Time, log: Log, i: nat, j: nat)
    requires Legal(c, created, log)
    requires i < j < |log| && Settles(log[i]) && Settles(log[j])
    ensures log[i].count < log[j].count
  {
    assert LegalAt(c, created, log, j);
    assert i < j - 1;
    Growth(c, created, log, i, j - 1);
  }

  /**
   Lease exclusion: of two claims of one row, the later comes when the earlier lease has run out,
   unless the earlier claim was settled in between.
   */
  lemma LeasesExclude(c: Setup, created: Time, log: Log, i: nat, j: nat)
    requires Legal(c, created, log)
    requires i < j < |log| && log[i].Leased? && log[j].Leased?
    ensures log[j].at >= log[i].expires || exists k :: i < k < j && Settles(log[k])
  {
    assert LegalAt(c, created, log, i + 1);
    if Settles(log[i + 1]) {
      assert i < i + 1 < j;
    } else if i + 1 < j {
      Growth(c, created, log, i + 1, j);
    }
  }

  // ---------- Counting ----------

  function Failures(log: Log): nat {
    if log == [] then 0 else Failures(log[..|log| - 1]) + (if log[|log| - 1].Failed? then 1 else 0)
  }

  function Completions(log: Log): nat {
    if log == [] then 0 else Completions(log[..|log| - 1]) + (if log[|log| - 1].Completed? then 1 else 0)
  }

  function Reclaims(log: Log): nat {
    if log == [] then 0
    else Reclaims(log[..|log| - 1]) + (if log[|log| - 1].Leased? && log[|log| - 1].reclaim then 1 else 0)
  }

  function Open(log: Log): nat {
    if log != [] && log[|log| - 1].Leased? then 1 else 0
  }

  function LastCount(log: Log): nat {
    if log == [] then 0 else log[|log| - 1].count
  }

  /** Conservation: every attempt is accounted for as failed, completed, reclaimed, or still open. */
  lemma {:induction false} Conservation(c: Setup, created: Time, log: Log)
    requires Legal(c, created, log)
    ensures LastCount(log) == Failures(log) + Completions(log) + Reclaims(log) + Open(log)
  {
    if log != [] {
      var n := |log| - 1;
      LegalPrefix(c, created, log, n);
      Conservation(c, created, log[..n]);
      assert LegalAt(c, created, log, n);
    }
  }

  /** The row lives on: no fatal failure and no completion has been recorded. */
  predicate Alive(p: Policy, log: Log) {
    log == [] || log[|log| - 1].Leased? || (log[|log| - 1].Failed? && !Fatal(p, log[|log| - 1]))
  }

  /** Bounded failure, with the bound that reclaims relax: at most maxAttempts failures, whatever the reclaims. */
  lemma {:induction false} BoundedFailure(c: Setup, created: Time, log: Log)
    requires Legal(c, created, log) && c.policy.maxAttempts >= 1
    ensures Failures(log) <= if Alive(c.policy, log) then c.policy.maxAttempts - 1 else c.policy.maxAttempts
    ensures LastCount(log) <= c.policy.maxAttempts + Reclaims(log)
    ensures Failures(log) <= LastCount(log)
    ensures log != [] && log[|log| - 1].Leased? ==> Failures(log) < LastCount(log)
  {
    if log != [] {
      var n := |log| - 1;
      LegalPrefix(c, created, log, n);
      BoundedFailure(c, created, log[..n]);
      assert LegalAt(c, created, log, n);
    }
  }

  // ---------- Spacing ----------

  /** When the first recorded failure was observed. */
  function FirstFailure(log: Log): Time
    requires Failures(log) > 0
  {
    var n := |log| - 1;
    if Failures(log[..n]) > 0 then FirstFailure(log[..n]) else log[n].observed
  }

  /** The earliest time at which the history so far allows another claim. */
  function NotBefore(log: Log): Time
    requires log != []
  {
    var f := log[|log| - 1];
    match f
    case Leased(at, _, _, _, _) => at
    case Failed(_, _, _, _, _, _, next) => next
    case Completed(at, _, _, _) => at
  }

  /**
   Cumulative retry spacing: after k failures, the row's history stands at least the first k delays of the schedule
   after the first failure was observed - even when reclaims make attempt numbers jump.
   */
  lemma {:induction false} Spacing(c: Setup, created: Time, log: Log)
    requires Legal(c, created, log) && Fenced(log) && ValidPolicy(c.policy)
    requires Failures(log) > 0 && Alive(c.policy, log)
    ensures NotBefore(log) >= FirstFailure(log) + TotalDelay(c.policy.base, c.policy.max, Failures(log))
  {
    var p, n := c.policy, |log| - 1;
    var before, f := log[..n], log[n];
    LegalPrefix(c, created, log, n);
    assert LegalAt(c, created, log, n) && FencedAt(log, n);
    assert Fenced(before) by {
      assert forall i :: 0 <= i < n ==> FencedAt(log, i) && (FencedAt(log, i) <==> FencedAt(before, i));
    }
    if f.Failed? {
      BoundedFailure(c, created, log);
      CappedMonotone(p.base, p.max, Failures(log), f.claimed);
    }
    if Failures(before) > 0 {
      assert before[|before| - 1] == log[n - 1];
      Spacing(c, created, before);
    } else {
      assert TotalDelay(p.base, p.max, 1) == Capped(p.base, p.max, 1);
    }
  }

  /** The claim that follows the k-th failure comes at least the sum of the first k delays after the first failure. */
  lemma ClaimSpacing(c: Setup, created: Time, log: Log, j: nat)
    requires Legal(c, created, log) && Fenced(log) && ValidPolicy(c.policy)
    requires j < |log| && log[j].Leased? && Failures(log[..j]) > 0
    ensures log[j].at >= FirstFailure(log[..j]) + TotalDelay(c.policy.base, c.policy.max, Failures(log[..j]))
  {
    LegalPrefix(c, created, log, j);
    assert LegalAt(c, created, log, j);
    assert forall i :: 0 <= i < j ==> FencedAt(log, i) && (FencedAt(log, i) <==> FencedAt(log[..j], i));
    Spacing(c, created, log[..j]);
  }
}
