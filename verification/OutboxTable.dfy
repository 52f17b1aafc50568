/**
 The outbox table: its rows, its constraints, and the statements the repository runs against it, each as a function
 on tables. Times are nanoseconds on one clock that stands for the database's and the relay's.
 */
module OutboxTable {

  import opened Wrappers
  import Event
  import Uuid

  type Time = int

  /** A uuid column value. */
  type Id = nat

  type WorkerId = string

  datatype Status = Pending | Publishing | Published | DeadLetter

  datatype FailureClass = Transient | Permanent

  /** The immutable part of a row. */
  datatype Stored = Stored(envelope: Event.Envelope, subject: string)

  datatype Row = Row(
    event: Stored,
    status: Status,
    attempts: nat,
    nextAttemptAt: Time,
    leaseOwner: Option<WorkerId>,
    leaseExpiresAt: Option<Time>,
    publishedAt: Option<Time>,
    deadLetteredAt: Option<Time>,
    lastErrorCode: Option<string>,
    createdAt: Time,
    updatedAt: Time)

  type Table = map<Id, Row>

  // ---------- Constraints ----------

  predicate LeaseState(row: Row) {
    if row.status.Publishing? then row.leaseOwner.Some? && row.leaseExpiresAt.Some?
    else row.leaseOwner.None? && row.leaseExpiresAt.None?
  }

  predicate TerminalState(row: Row) {
    match row.status
    case Published => row.publishedAt.Some? && row.deadLetteredAt.None?
    case DeadLetter => row.deadLetteredAt.Some? && row.publishedAt.None?
    case _ => row.publishedAt.None? && row.deadLetteredAt.None?
  }

  predicate Schema(row: Row) {
    LeaseState(row) && TerminalState(row)
  }

  predicate Terminal(row: Row) {
    row.status.Published? || row.status.DeadLetter?
  }

  const MAX_INTEGER := 0x7fff_ffff

  /** The format and payload-identity constraints: a row stores a valid event under that event's own id and subject. */
  predicate Identity(id: Id, event: Stored) {
    && Event.Valid(event.envelope)
    && event.envelope.version <= MAX_INTEGER
    && event.subject == Event.SubjectOf(event.envelope.eventType, event.envelope.version)
    && id == Uuid.Key(event.envelope.id)
  }

  // ---------- Insert ----------

  datatype InsertError = InvalidEvent | ConstraintViolated | DuplicateId

  /** A new row; its default times are the moment at which the inserting transaction began. */
  function NewRow(event: Stored, began: Time): Row {
    Row(event, Pending, 0, began, None, None, None, None, None, began, began)
  }

  function InsertRow(rows: Table, e: Event.Envelope, began: Time): Result<Table, InsertError> {
    if !Event.Valid(e) then Err(InvalidEvent)
    else if e.version > MAX_INTEGER then Err(ConstraintViolated)
    else if Uuid.Key(e.id) in rows then Err(DuplicateId)
    else Ok(rows[Uuid.Key(e.id) := NewRow(Stored(e, Event.SubjectOf(e.eventType, e.version)), began)])
  }

  // ---------- Claim ----------

  predicate Eligible(row: Row, now: Time) {
    || (row.status.Pending? && row.nextAttemptAt <= now)
    || (row.status.Publishing? && row.leaseExpiresAt.Some? && row.leaseExpiresAt.value <= now)
  }

  /** The claim order: creation time, then id. */
  predicate Precedes(rows: Table, a: Id, b: Id)
    requires a in rows && b in rows
  {
    rows[a].createdAt < rows[b].createdAt || (rows[a].createdAt == rows[b].createdAt && a < b)
  }

  /** Rows that a claim may take: eligible and not locked by another transaction. */
  function Candidates(rows: Table, now: Time, locked: set<Id>): set<Id> {
    set id | id in rows && id !in locked && Eligible(rows[id], now)
  }

  /** `chosen` is the first min(limit, |all|) of `all` in claim order. */
  predicate FirstOf(rows: Table, all: set<Id>, limit: nat, chosen: set<Id>)
    requires all <= rows.Keys
  {
    && chosen <= all
    && |chosen| == (if |all| <= limit then |all| else limit)
    && forall c, o | c in chosen && o in all && o !in chosen :: Precedes(rows, c, o)
  }

  function Members(ids: seq<Id>): set<Id> {
    set id | id in ids
  }

  predicate Distinct(ids: seq<Id>) {
    forall i, j :: 0 <= i < j < |ids| ==> ids[i] != ids[j]
  }

  /** What the claiming statement may return: the first rows in claim order, each once, in any order. */
  predicate Returning(rows: Table, now: Time, locked: set<Id>, limit: nat, ids: seq<Id>) {
    && Distinct(ids)
    && FirstOf(rows, Candidates(rows, now, locked), limit, Members(ids))
  }

  /** A duration in nanoseconds, truncated to the microseconds that the table stores. */
  function Microseconds(duration: int): int {
    duration - duration % 1000
  }

  function ClaimRow(row: Row, owner: WorkerId, now: Time, lease: int): Row {
    row.(status := Publishing, attempts := row.attempts + 1, leaseOwner := Some(owner),
         leaseExpiresAt := Some(now + lease), updatedAt := now)
  }

  function ClaimRows(rows: Table, chosen: set<Id>, owner: WorkerId, now: Time, lease: int): Table {
    map id | id in rows :: if id in chosen then ClaimRow(rows[id], owner, now, lease) else rows[id]
  }

  // ---------- Settlement ----------

  /** The condition of both settling updates: still publishing under this worker's lease. */
  predicate Fence(rows: Table, id: Id, owner: WorkerId) {
    id in rows && rows[id].status.Publishing? && rows[id].leaseOwner == Some(owner)
  }

  function CompleteRow(row: Row, now: Time): Row {
    row.(status := Published, publishedAt := Some(now), leaseOwner := None, leaseExpiresAt := None,
         lastErrorCode := None, updatedAt := now)
  }

  predicate Exhausted(attempts: nat, kind: FailureClass, maxAttempts: int) {
    kind.Permanent? || attempts >= maxAttempts
  }

  function FailRow(row: Row, kind: FailureClass, maxAttempts: int, next: Time, code: string, now: Time): Row {
    var dead := Exhausted(row.attempts, kind, maxAttempts);
    row.(status := if dead then DeadLetter else Pending, nextAttemptAt := next, leaseOwner := None,
         leaseExpiresAt := None, deadLetteredAt := if dead then Some(now) else None,
         lastErrorCode := Some(code), updatedAt := now)
  }

  // ---------- The selection is well defined ----------

  lemma PrecedesTransitive(rows: Table, a: Id, b: Id, c: Id)
    requires a in rows && b in rows && c in rows
    requires Precedes(rows, a, b) && Precedes(rows, b, c)
    ensures Precedes(rows, a, c)
  {
  }

  /** Every non-empty set of rows has an earliest row. */
  lemma {:induction false} EarliestExists(rows: Table, all: set<Id>) returns (first: Id)
    requires all <= rows.Keys && all != {}
    ensures first in all && forall o | o in all && o != first :: Precedes(rows, first, o)
    decreases |all|
  {
    first :| first in all;
    var rest := all - {first};
    if rest != {} {
      var other := EarliestExists(rows, rest);
      if Precedes(rows, other, first) {
        first := other;
      } else {
        forall o | o in all && o != first
          ensures Precedes(rows, first, o)
        {
          if o != other {
            PrecedesTransitive(rows, first, other, o);
          }
        }
      }
    }
  }

  /** A claim always has an answer. */
  lemma {:induction false} FirstExists(rows: Table, all: set<Id>, limit: nat) returns (ids: seq<Id>)
    requires all <= rows.Keys
    ensures Distinct(ids) && FirstOf(rows, all, limit, Members(ids))
    decreases limit
  {
    if limit == 0 || all == {} {
      ids := [];
      assert Members(ids) == {};
    } else {
      var first := EarliestExists(rows, all);
      var rest := FirstExists(rows, all - {first}, limit - 1);
      ids := [first] + rest;
      assert Members(ids) == {first} + Members(rest);
      assert first !in Members(rest);
    }
  }

  /** The answer's rows are determined: only their order is open. */
  lemma FirstUnique(rows: Table, all: set<Id>, limit: nat, a: set<Id>, b: set<Id>)
    requires all <= rows.Keys
    requires FirstOf(rows, all, limit, a) && FirstOf(rows, all, limit, b)
    ensures a == b
  {
    if a != b {
      var x := PickDifference(a, b);
      var y := PickDifference(b, a);
      assert false;
    }
  }

  /**
   The selection in columns. What is returned is unlocked and due: pending and at its next attempt, or leased and
   expired. A row that is due and unlocked is left out only when the limit is reached, and then everything returned was
   created earlier - or at the same time, under a smaller id.
   */
  lemma ReturnedOldest(rows: Table, now: Time, locked: set<Id>, limit: nat, ids: seq<Id>)
    requires Returning(rows, now, locked, limit, ids)
    ensures |ids| <= limit && forall i, j :: 0 <= i < j < |ids| ==> ids[i] != ids[j]
    ensures forall a :: a in ids ==>
      && a in rows && a !in locked
      && (|| (rows[a].status == Pending && rows[a].nextAttemptAt <= now)
          || (rows[a].status == Publishing && rows[a].leaseExpiresAt.Some? && rows[a].leaseExpiresAt.value <= now))
    ensures forall b | b in rows && b !in ids && b !in locked ::
      || |ids| == limit
      || !(|| (rows[b].status == Pending && rows[b].nextAttemptAt <= now)
           || (rows[b].status == Publishing && rows[b].leaseExpiresAt.Some? && rows[b].leaseExpiresAt.value <= now))
    ensures forall a, b | a in ids && b in rows && b !in ids && b !in locked && Eligible(rows[b], now) ::
      a in rows && (rows[a].createdAt < rows[b].createdAt || (rows[a].createdAt == rows[b].createdAt && a < b))
  {
    var all, chosen := Candidates(rows, now, locked), Members(ids);
    MembersSize(ids);
    forall a | a in ids
      ensures a in all
    {
      assert a in chosen;
    }
    forall b | b in all && b !in ids
      ensures |ids| == limit && forall a :: a in ids ==> a in rows && Precedes(rows, a, b)
    {
      assert b !in chosen && chosen < all;
      SubsetSize(chosen, all);
      assert forall a :: a in ids ==> a in chosen;
    }
  }

  lemma {:induction false} MembersSize(ids: seq<Id>)
    requires Distinct(ids)
    ensures |Members(ids)| == |ids|
  {
    if ids != [] {
      MembersSize(ids[1..]);
      assert Members(ids) == {ids[0]} + Members(ids[1..]);
    }
  }

  lemma PickDifference(a: set<Id>, b: set<Id>) returns (x: Id)
    requires |a| == |b| && a != b
    ensures x in a && x !in b
  {
    if a <= b {
      SubsetSize(a, b);
      assert false;
    }
    x :| x in a && x !in b;
  }

  lemma {:induction false} SubsetSize<T>(a: set<T>, b: set<T>)
    requires a <= b
    ensures |a| <= |b|
    ensures |a| == |b| ==> a == b
    decreases a
  {
    if a != {} {
      var x :| x in a;
      SubsetSize(a - {x}, b - {x});
    }
  }
}
