/** The outbox repository: the statements of the table run through the database, with the errors callers see. */
module Repository {

  import opened Wrappers
  import opened OutboxTable
  import opened OutboxMachine
  import D = Database
  import Event
  import Uuid

  datatype ClaimError = Refused(reason: string) | Interrupted(cancelled: bool)

  /** What the environment decides about one claim. */
  datatype ClaimEnvironment = ClaimEnvironment(
    begins: bool, locked: set<Id>, scanFailsAt: Option<nat>, commit: D.Commit, cancelled: bool)

  /** What becomes of one settling statement: it is never executed, or it is, and the caller may or may not learn so. */
  datatype Reach = Never | Executed(reported: bool)

  predicate TableIdentity(rows: Table) {
    forall id :: id in rows ==> Identity(id, rows[id].event)
  }

  predicate ClaimAccepted(workerId: WorkerId, limit: int, leaseDuration: int) {
    Uuid.IsV7(workerId) && 1 <= limit <= 1000 && leaseDuration > 0
  }

  lemma ReturnedRows(rows: Table, now: Time, locked: set<Id>, limit: nat, answer: seq<Id>)
    requires Returning(rows, now, locked, limit, answer)
    ensures Members(answer) <= rows.Keys
  {
  }

  /** What the claim returns for a row: the id is read from the stored event, not from the key. */
  function Decoded(row: Row): Record {
    Record(Uuid.Key(row.event.envelope.id), row.event, row.attempts)
  }

  predicate AllValid(rows: Table, answer: seq<Id>) {
    forall i :: 0 <= i < |answer| && answer[i] in rows ==> Event.Valid(rows[answer[i]].event.envelope)
  }

  /** No claimed row fails to be read, and every one holds a valid envelope. */
  predicate Decodes(rows: Table, answer: seq<Id>, scanFailsAt: Option<nat>) {
    AllValid(rows, answer) && (scanFailsAt.None? || scanFailsAt.value >= |answer|)
  }

  /** The loop over the claimed rows: decodes and validates each; one bad row spoils the whole claim. */
  method DecodeAll(rows: Table, answer: seq<Id>, scanFailsAt: Option<nat>) returns (r: Option<seq<Record>>)
    requires Members(answer) <= rows.Keys
    ensures r.Some? <==> Decodes(rows, answer, scanFailsAt)
    ensures r.Some? <==>
      && (scanFailsAt.None? || scanFailsAt.value >= |answer|)
      && forall i :: 0 <= i < |answer| && answer[i] in rows ==> Event.Valid(rows[answer[i]].event.envelope)
    ensures r.Some? ==> |r.value| == |answer| && forall i :: 0 <= i < |answer| ==>
      answer[i] in rows && r.value[i] == Decoded(rows[answer[i]])
  {
    var records: seq<Record> := [];
    for i := 0 to |answer|
      invariant |records| == i
      invariant scanFailsAt.Some? ==> scanFailsAt.value >= i
      invariant forall j :: 0 <= j < i ==> answer[j] in rows && Event.Valid(rows[answer[j]].event.envelope)
      invariant forall j :: 0 <= j < i ==> answer[j] in rows && records[j] == Decoded(rows[answer[j]])
    {
      assert answer[i] in Members(answer);
      var row := rows[answer[i]];
      if scanFailsAt == Some(i) {
        return None;
      }
      var invalid := Event.Validate(row.event.envelope);
      if invalid.Some? {
        return None;
      }
      records := records + [Decoded(row)];
    }
    return Some(records);
  }

  /** In a table that meets its constraints no claim fails to decode, and every record carries its row's own id. */
  lemma IdentityDecodes(rows: Table, answer: seq<Id>)
    requires TableIdentity(rows) && Members(answer) <= rows.Keys
    ensures AllValid(rows, answer)
    ensures forall i :: 0 <= i < |answer| ==>
      answer[i] in rows && Decoded(rows[answer[i]]) == RecordsOf(rows, answer)[i]
  {
    forall i | 0 <= i < |answer|
      ensures answer[i] in rows && Decoded(rows[answer[i]]) == RecordsOf(rows, answer)[i]
      ensures Event.Valid(rows[answer[i]].event.envelope)
    {
      assert answer[i] in Members(answer);
      assert Identity(answer[i], rows[answer[i]].event);
    }
  }

  /** What a claim does to the table: it leases nothing while something older is due and left out. */
  ghost predicate OldestLeased(rows: Table, rows': Table, workerId: WorkerId, leaseDuration: int, now: Time,
                               locked: set<Id>, answer: seq<Id>)
  {
    && (forall a, b | a in answer && b in rows && b !in answer && b !in locked && Eligible(rows[b], now) ::
          && a in rows
          && (rows[a].createdAt < rows[b].createdAt || (rows[a].createdAt == rows[b].createdAt && a < b)))
    && rows'.Keys == rows.Keys
    && forall id :: id in rows ==>
         rows'[id] == if id !in answer then rows[id]
           else rows[id].(status := Publishing, attempts := rows[id].attempts + 1, leaseOwner := Some(workerId),
                          leaseExpiresAt := Some(now + leaseDuration - leaseDuration % 1000), updatedAt := now)
  }

  lemma ReturningLeasesOldest(rows: Table, workerId: WorkerId, limit: nat, leaseDuration: int, now: Time,
                              locked: set<Id>, answer: seq<Id>)
    requires Returning(rows, now, locked, limit, answer)
    ensures Members(answer) <= rows.Keys
    ensures var leased := ClaimRows(rows, Members(answer), workerId, now, Microseconds(leaseDuration));
      && OldestLeased(rows, leased, workerId, leaseDuration, now, locked, answer)
      && forall i :: 0 <= i < |answer| ==>
           && answer[i] in leased
           && var row := rows[answer[i]];
              Decoded(leased[answer[i]]) == Record(Uuid.Key(row.event.envelope.id), row.event, row.attempts + 1)
  {
    ReturnedRows(rows, now, locked, limit, answer);
    ReturnedOldest(rows, now, locked, limit, answer);
    forall i | 0 <= i < |answer|
      ensures answer[i] in Members(answer)
    {
    }
  }

  /** The arguments that a claim refuses, before it touches the database. */
  method CheckClaim(workerId: WorkerId, limit: int, leaseDuration: int) returns (refused: Option<string>)
    ensures refused ==
      if !Uuid.IsV7(workerId) then Some("worker")
      else if !(1 <= limit <= 1000) then Some("limit")
      else if leaseDuration <= 0 then Some("lease")
      else None
  {
    var workerOk := Uuid.IsUuidV7(workerId);
    if !workerOk {
      return Some("worker");
    }
    if limit < 1 || limit > 1000 {
      return Some("limit");
    }
    if leaseDuration <= 0 {
      return Some("lease");
    }
    return None;
  }

  class Repository {
    const db: D.Database<Table>

    constructor (db: D.Database<Table>)
      ensures this.db == db
    {
      this.db := db;
    }

    /** Insert runs in the caller's transaction: only that transaction's data changes, and only without an error. */
    method Insert(e: Event.Envelope, began: Time) returns (error: Option<InsertError>)
      requires db.open
      modifies db`working
      ensures error.None? <==> Event.Valid(e) && e.version <= 0x7fff_ffff && Uuid.Key(e.id) !in old(db.working)
      ensures error == Some(InvalidEvent) <==> !Event.Valid(e)
      ensures error == Some(ConstraintViolated) <==> Event.Valid(e) && e.version > 0x7fff_ffff
      ensures error.None? ==> db.working == old(db.working)[Uuid.Key(e.id) :=
        Row(Stored(e, "manoreck.events." + e.eventType + ".v" + Event.Decimal(e.version)), Pending, 0, began,
            None, None, None, None, None, began, began)]
      ensures error.None? <==> InsertRow(old(db.working), e, began).Ok?
      ensures error.None? ==>
        && Uuid.Key(e.id) !in old(db.working)
        && db.working == InsertRow(old(db.working), e, began).value
        && Identity(Uuid.Key(e.id), db.working[Uuid.Key(e.id)].event)
      ensures error.Some? ==>
        db.working == old(db.working) && InsertRow(old(db.working), e, began) == Err(error.value)
    {
      var invalid := Event.Validate(e);
      if invalid.Some? {
        return Some(InvalidEvent);
      }
      var subject := Event.Subject(e);
      var id := Uuid.Key(e.id);
      if e.version > MAX_INTEGER {
        return Some(ConstraintViolated);
      }
      if id in db.working {
        return Some(DuplicateId);
      }
      db.working := db.working[id := NewRow(Stored(e, subject.value), began)];
      return None;
    }

    /**
     An insert with the caller's own changes in one transaction: `cause` is the error by which the caller's operation
     asks for a rollback. The event is committed or it is not; a rollback never leaves it behind.
     */
    method InsertInTransaction(e: Event.Envelope, began: Time, cause: Option<string>, env: D.Environment)
      returns (error: Option<D.TxError>)
      requires !db.open
      modifies db
      ensures !db.open
      ensures error.None? <==>
        && old(db.started) && env.begins && env.commit == D.Applied && cause.None?
        && Event.Valid(e) && e.version <= 0x7fff_ffff && Uuid.Key(e.id) !in old(db.committed)
      ensures error.None? ==>
        cause.None? && InsertRow(old(db.committed), e, began) == Ok(db.committed)
      ensures cause.Some? || InsertRow(old(db.committed), e, began).Err? ==>
        error.Some? && db.committed == old(db.committed)
      ensures db.committed != old(db.committed) ==> InsertRow(old(db.committed), e, began) == Ok(db.committed)
    {
      var operation := (rows: Table) =>
        match InsertRow(rows, e, began)
        case Err(_) => Err("insert outbox event")
        case Ok(inserted) => if cause.Some? then Err(cause.value) else Ok(inserted);
      error := db.InTransaction(Some(operation), env);
    }

    /** The transaction's body: the claiming statement, then the loop over the rows that it returns. */
    method LeaseOldest(workerId: WorkerId, limit: nat, leaseDuration: int, now: Time, env: ClaimEnvironment)
      returns (records: Option<seq<Record>>, answer: seq<Id>)
      requires db.open
      modifies db`working
      ensures Returning(old(db.working), now, env.locked, limit, answer)
      ensures db.working ==
        ClaimRows(old(db.working), Members(answer), workerId, now, Microseconds(leaseDuration))
      ensures records.Some? <==> Decodes(db.working, answer, env.scanFailsAt)
      ensures records.Some? ==> |records.value| == |answer| && forall i :: 0 <= i < |answer| ==>
        answer[i] in db.working && records.value[i] == Decoded(db.working[answer[i]])
    {
      ghost var some := FirstExists(db.working, Candidates(db.working, now, env.locked), limit);
      assert Returning(db.working, now, env.locked, limit, some);
      answer :| Returning(db.working, now, env.locked, limit, answer);
      ReturnedRows(db.working, now, env.locked, limit, answer);
      db.working := ClaimRows(db.working, Members(answer), workerId, now, Microseconds(leaseDuration));
      records := DecodeAll(db.working, answer, env.scanFailsAt);
    }

    /** The transaction around it: all or nothing, and nothing is returned unless the commit is reported. */
    method ClaimInTransaction(workerId: WorkerId, limit: nat, leaseDuration: int, now: Time, env: ClaimEnvironment)
      returns (records: Option<seq<Record>>, answer: seq<Id>)
      requires !db.open
      modifies db
      ensures !db.open && db.started == old(db.started)
      ensures var rows := old(db.committed);
        var leased := ClaimRows(rows, Members(answer), workerId, now, Microseconds(leaseDuration));
        var decoded := old(db.started) && env.begins && Decodes(leased, answer, env.scanFailsAt);
        && (decoded ==> Returning(rows, now, env.locked, limit, answer))
        && db.committed == (if decoded && !env.commit.Lost? then leased else rows)
        && (records.Some? <==> decoded && env.commit.Applied?)
      ensures records.Some? ==> |records.value| == |answer| && forall i :: 0 <= i < |answer| ==>
        answer[i] in db.committed && records.value[i] == Decoded(db.committed[answer[i]])
    {
      if !db.started || !env.begins {
        return None, [];
      }
      db.Begin();
      records, answer := LeaseOldest(workerId, limit, leaseDuration, now, env);
      if records.None? {
        var _ := db.Rollback();
        return;
      }
      var ok := db.Commit(env.commit);
      var _ := db.Rollback();
      if !ok {
        records := None;
      }
    }

    /**
     Claim leases the first rows in claim order, `answer`, in one transaction. It leases them exactly if all of them
     decode and the commit takes effect; it returns exactly those, and does so exactly if the commit is reported too.
     In columns: no due and unlocked row that was left out is older than a leased one, and a leased row has one more
     attempt and this worker's lease, and keeps everything else.
     */
    method Claim(workerId: WorkerId, limit: int, leaseDuration: int, now: Time, env: ClaimEnvironment)
      returns (r: Result<seq<Record>, ClaimError>, answer: seq<Id>)
      requires !db.open
      modifies db
      ensures !db.open && db.started == old(db.started)
      ensures (r.Err? && r.error.Refused?) <==> !(Uuid.IsV7(workerId) && 1 <= limit <= 1000 && leaseDuration > 0)
      ensures var rows := old(db.committed);
        var leased := ClaimRows(rows, Members(answer), workerId, now, Microseconds(leaseDuration));
        var decoded := ClaimAccepted(workerId, limit, leaseDuration) && old(db.started) && env.begins
                       && Decodes(leased, answer, env.scanFailsAt);
        && (decoded ==> Returning(rows, now, env.locked, limit, answer))
        && db.committed == (if decoded && !env.commit.Lost? then leased else rows)
        && (r.Ok? <==> decoded && env.commit.Applied?)
      ensures r.Err? && db.committed != old(db.committed) ==> env.commit.Unreported?
      ensures r.Ok? ==> |r.value| == |answer| && forall i :: 0 <= i < |answer| ==>
        answer[i] in db.committed && r.value[i] == Decoded(db.committed[answer[i]])
      ensures r.Ok? || db.committed != old(db.committed) ==>
        forall a, b | a in answer && b in old(db.committed) && b !in answer && b !in env.locked
                      && Eligible(old(db.committed)[b], now) ::
          var rows := old(db.committed);
          && a in rows
          && (rows[a].createdAt < rows[b].createdAt || (rows[a].createdAt == rows[b].createdAt && a < b))
      ensures r.Ok? || db.committed != old(db.committed) ==>
        && db.committed.Keys == old(db.committed).Keys
        && forall id :: id in old(db.committed) ==>
             var row := old(db.committed)[id];
             db.committed[id] == if id !in answer then row
               else row.(status := Publishing, attempts := row.attempts + 1, leaseOwner := Some(workerId),
                         leaseExpiresAt := Some(now + leaseDuration - leaseDuration % 1000), updatedAt := now)
      ensures r.Ok? ==> forall i :: 0 <= i < |answer| ==>
        && answer[i] in old(db.committed)
        && var row := old(db.committed)[answer[i]];
           r.value[i] == Record(Uuid.Key(row.event.envelope.id), row.event, row.attempts + 1)
    {
      var refused := CheckClaim(workerId, limit, leaseDuration);
      if refused.Some? {
        return Err(Refused(refused.value)), [];
      }
      var records;
      records, answer := ClaimInTransaction(workerId, limit, leaseDuration, now, env);
      if records.Some? || db.committed != old(db.committed) {
        ReturningLeasesOldest(old(db.committed), workerId, limit, leaseDuration, now, env.locked, answer);
      }
      if records.None? {
        return Err(Interrupted(env.cancelled)), answer;
      }
      return Ok(records.value), answer;
    }

    /**
     MarkPublished: one guarded update. A success means that this worker's lease was still on the row, and that the row
     is now published at this moment, with neither lease nor error; nothing else in the table has changed.
     */
    method MarkPublished(eventId: string, workerId: WorkerId, now: Time, reach: Reach) returns (ok: bool)
      modifies db`committed
      ensures var id, rows := Uuid.Key(eventId), old(db.committed);
        ok ==> id in rows && db.committed == rows[id := rows[id].(
          status := Published, publishedAt := Some(now), leaseOwner := None, leaseExpiresAt := None,
          lastErrorCode := None, updatedAt := now)]
      ensures var id, rows := Uuid.Key(eventId), old(db.committed);
        ok <==>
          && db.started && reach == Executed(true)
          && id in rows && rows[id].status == Publishing && rows[id].leaseOwner == Some(workerId)
      ensures var id, rows := Uuid.Key(eventId), old(db.committed);
        && (db.committed ==
              if db.started && reach.Executed? && Fence(rows, id, workerId)
              then rows[id := CompleteRow(rows[id], now)] else rows)
        && (ok <==> db.started && reach == Executed(true) && Fence(rows, id, workerId))
    {
      if !db.started || reach.Never? {
        return false;
      }
      var id := Uuid.Key(eventId);
      var affected := 0;
      if id in db.committed && db.committed[id].status.Publishing? && db.committed[id].leaseOwner == Some(workerId) {
        db.committed := db.committed[id := CompleteRow(db.committed[id], now)];
        affected := 1;
      }
      return reach.reported && affected == 1;
    }

    /**
     MarkFailed: refuses bad arguments, then one guarded update that reschedules the row or ends its life: it ends
     exactly if the failure is permanent or the row has had its `maxAttempts` attempts.
     */
    method MarkFailed(eventId: string, workerId: WorkerId, kind: string, maxAttempts: int, next: Time, code: string,
                      now: Time, reach: Reach) returns (ok: bool)
      modifies db`committed
      ensures var id, rows := Uuid.Key(eventId), old(db.committed);
        ok ==>
          && id in rows
          && (kind == "permanent" || rows[id].attempts >= maxAttempts ==>
                db.committed == rows[id := rows[id].(
                  status := DeadLetter, deadLetteredAt := Some(now), nextAttemptAt := next, leaseOwner := None,
                  leaseExpiresAt := None, lastErrorCode := Some(code), updatedAt := now)])
          && (kind != "permanent" && rows[id].attempts < maxAttempts ==>
                db.committed == rows[id := rows[id].(
                  status := Pending, deadLetteredAt := None, nextAttemptAt := next, leaseOwner := None,
                  leaseExpiresAt := None, lastErrorCode := Some(code), updatedAt := now)])
      ensures var id, rows := Uuid.Key(eventId), old(db.committed);
        ok <==>
          && (kind == "transient" || kind == "permanent") && maxAttempts >= 1 && code != ""
          && db.started && reach == Executed(true)
          && id in rows && rows[id].status == Publishing && rows[id].leaseOwner == Some(workerId)
      ensures var accepted := (kind == "transient" || kind == "permanent") && maxAttempts >= 1 && code != "";
        var id, rows := Uuid.Key(eventId), old(db.committed);
        var class' := if kind == "permanent" then Permanent else Transient;
        && (db.committed ==
              if accepted && db.started && reach.Executed? && Fence(rows, id, workerId)
              then rows[id := FailRow(rows[id], class', maxAttempts, next, code, now)] else rows)
        && (ok <==> accepted && db.started && reach == Executed(true) && Fence(rows, id, workerId))
    {
      if kind != "transient" && kind != "permanent" {
        return false;
      }
      if maxAttempts < 1 || code == "" {
        return false;
      }
      if !db.started || reach.Never? {
        return false;
      }
      var id := Uuid.Key(eventId);
      var affected := 0;
      if id in db.committed && db.committed[id].status.Publishing? && db.committed[id].leaseOwner == Some(workerId) {
        var row := db.committed[id];
        var dead := kind == "permanent" || row.attempts >= maxAttempts;
        db.committed := db.committed[id := row.(
          status := if dead then DeadLetter else Pending, nextAttemptAt := next, leaseOwner := None,
          leaseExpiresAt := None, deadLetteredAt := if dead then Some(now) else None,
          lastErrorCode := Some(code), updatedAt := now)];
        affected := 1;
      }
      return reach.reported && affected == 1;
    }
  }
}
