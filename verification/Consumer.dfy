/** The consumer as it is written: open the envelope, record the receipt in a transaction, then settle the delivery. */
module Consumer {

  import opened Wrappers
  import opened OutboxMachine
  import opened ConsumerMachine
  import opened ConsumerSettlement
  import opened RetryPolicy
  import D = Database
  import T = OutboxTable
  import Event
  import Uuid

  /** How a delivery was settled, and whether the broker call that says so succeeded. */
  datatype Settlement =
    | Acknowledge(ok: bool)
    | Retry(delay: int, ok: bool)
    | Terminate(ok: bool)
    | Postponed(delay: int)

  /**
   What the environment decides about one delivery: for each broker call whether it took effect and whether it
   succeeded. An acknowledged dead-letter publish is in the stream.
   */
  datatype Environment = Environment(
    metadata: Option<uint64>, tx: D.Environment, ackApplied: bool, ack: bool, nak: bool,
    deadAppended: bool, deadAcked: bool, termApplied: bool, term: bool)

  function Count(env: Environment): uint64 {
    if env.metadata.Some? then env.metadata.value else 1
  }

  /** The consumer's transaction: the table's check on the delivery count, then the insert that ignores conflicts. */
  function RecordReceipt(receipts: Receipts, e: Event.Envelope, count: int): Result<Receipts, string> {
    if 1 <= count <= T.MAX_INTEGER then Ok(InsertReceipt(receipts, e, count)) else Err("delivery_count")
  }

  /** The transaction is reported as committed. */
  predicate Commits(started: bool, tx: D.Environment, count: int) {
    started && tx.begins && tx.commit.Applied? && 1 <= count <= T.MAX_INTEGER
  }

  /** The transaction takes effect, whether or not that is reported. */
  predicate TakesEffect(started: bool, tx: D.Environment, count: int) {
    started && tx.begins && !tx.commit.Lost? && 1 <= count <= T.MAX_INTEGER
  }

  /** How a delivery is settled: what process decides from the envelope, the transaction and the delivery count. */
  function Verdict(valid: bool, commits: bool, env: Environment): Settlement {
    if valid && commits then Acknowledge(env.ack)
    else if valid && Count(env) as int < MAX_DELIVERIES then
      Retry(Capped(SECOND as int, MINUTE as int, Count(env) as int), env.nak)
    else if env.deadAcked then Terminate(env.term)
    else Postponed(MINUTE as int)
  }

  /** What the consumer reports to its health check after a delivery. */
  function ErrorAfter(out: Settlement, before: Option<string>): Option<string> {
    match out
    case Acknowledge(ok) => if ok then before else Some("acknowledge event")
    case Retry(_, _) => Some("consumer processing failed")
    case Terminate(ok) => if ok then before else Some("terminate dead-lettered event")
    case Postponed(_) => Some("publish consumer dead letter")
  }

  /** A redelivery is asked for after one second, doubled with every delivery. */
  lemma DelayInSeconds(n: int)
    ensures 0 <= n < 5 ==>
      Capped(SECOND as int, MINUTE as int, n) == 1_000_000_000 * Pow2(if n == 0 then 0 else n - 1)
  {
    FirstDoublings(SECOND as int);
    if 1 <= n < 5 {
      CappedClosedForm(SECOND as int, MINUTE as int, n);
    }
    assert Pow2(1) == 2 && Pow2(2) == 4 && Pow2(3) == 8;
  }

  lemma VerdictInFull(valid: bool, commits: bool, env: Environment)
    ensures var n, out := Count(env) as int, Verdict(valid, commits, env);
      && (valid && commits ==> out == Acknowledge(env.ack))
      && (valid && !commits && n < 5 ==> out == Retry(1_000_000_000 * Pow2(if n == 0 then 0 else n - 1), env.nak))
      && (!valid || (!commits && n >= 5) ==>
            out == if env.deadAcked then Terminate(env.term) else Postponed(60_000_000_000))
  {
    DelayInSeconds(Count(env) as int);
  }

  lemma LetterInFull(m: Message, position: nat, n: int)
    ensures LetterFor(m, position, n, ReasonFor(Opened(m).Some?)) == DeadLetter(
      position, n,
      if m.data.Encoded? && Event.Valid(m.data.envelope) then ProcessingFailed else InvalidEnvelope,
      if m.data.Encoded? then m.data.envelope.id else m.data.id, m.subject)
  {
  }

  lemma ReceiptInFull(m: Message, receipts: Receipts, started: bool, tx: D.Environment, n: int)
    ensures
      (if Opened(m).Some? && TakesEffect(started, tx, n) then InsertReceipt(receipts, Opened(m).value, n) else receipts)
      == if m.data.Encoded? && Event.Valid(m.data.envelope)
            && started && tx.begins && tx.commit != D.Lost && 1 <= n <= 0x7fff_ffff
            && ("manoreck-infrastructure-proof-v1", Uuid.Key(m.data.envelope.id)) !in receipts
         then receipts[
           ("manoreck-infrastructure-proof-v1", Uuid.Key(m.data.envelope.id)) := Receipt(m.data.envelope.eventType, n)]
         else receipts
  {
  }

  /** Decoding and validating a message. */
  method Opens(m: Message) returns (ok: bool)
    ensures ok <==> Opened(m).Some?
    ensures ok ==> m.data.Encoded? && Opened(m) == Some(m.data.envelope)
  {
    if !m.data.Encoded? {
      return false;
    }
    var invalid := Event.Validate(m.data.envelope);
    return invalid.None?;
  }

  class Consumer {
    const db: D.Database<Receipts>
    var dead: seq<DeadLetter>
    var lastError: Option<string>
    /** This consumer's handler in the machine, the machine state the stores stand for, and the steps that led there. */
    ghost const handler: nat
    ghost const origin: CState
    ghost var s: CState
    ghost var trail: seq<CStep>

    /** All calls so far were steps of the machine. */
    ghost predicate OnTrail(stream: seq<Entry>)
      reads this
    {
      Replay(stream, origin, trail) == Some(s)
    }

    ghost method Take(step: CStep, stream: seq<Entry>)
      requires OnTrail(stream) && CEnabled(stream, s, step)
      modifies this`s, this`trail
      ensures OnTrail(stream) && s == CApply(stream, old(s), step)
    {
      ReplayOn(stream, origin, trail, s, step);
      s, trail := CApply(stream, s, step), trail + [step];
    }

    ghost predicate Coupled()
      reads this, db
    {
      !db.open && db.committed == s.receipts && dead == s.dead
    }

    /** A consumer starts into whatever state earlier steps, `past`, have left the stores in, as an idle handler. */
    constructor (db: D.Database<Receipts>, dead: seq<DeadLetter>, ghost handler: nat, ghost stream: seq<Entry>,
                 ghost past: seq<CStep>)
      requires Replay(stream, UNTOUCHED, past).Some?
      requires var start := Replay(stream, UNTOUCHED, past).value;
        && !db.open && db.committed == start.receipts && dead == start.dead && HandlerOf(start, handler).Waiting?
      ensures this.db == db && this.handler == handler && this.dead == dead && lastError.None?
      ensures CInit(origin) && trail == past && Coupled() && OnTrail(stream) && HandlerOf(s, handler).Waiting?
    {
      this.db, this.dead, lastError := db, dead, None;
      this.handler, origin := handler, UNTOUCHED;
      s, trail := Replay(stream, UNTOUCHED, past).value, past;
    }

    /** deadLetter: terminates the message only once its dead letter is in the stream; else asks for a redelivery. */
    method Bury(m: Message, position: nat, count: uint64, reason: Reason, env: Environment, ghost stream: seq<Entry>)
      returns (out: Settlement)
      requires Coupled() && (env.deadAcked ==> env.deadAppended)
      requires HandlerOf(s, handler) == DeadLettering(position, count as int, reason) && OnTrail(stream)
      requires position < |stream| && stream[position].message == m
      modifies this
      ensures Coupled() && OnTrail(stream) && HandlerOf(s, handler).Waiting?
      ensures lastError == ErrorAfter(out, old(lastError))
      ensures dead ==
        if env.deadAppended then old(dead) + [LetterFor(m, position, count as int, reason)] else old(dead)
      ensures out == if env.deadAcked then Terminate(env.term) else Postponed(MINUTE as int)
      ensures s.deliveries ==
        if env.deadAcked && env.termApplied then Stand(old(s), position, Terminated) else old(s).deliveries
    {
      if env.deadAppended {
        dead := dead + [LetterFor(m, position, count as int, reason)];
      }
      ghost var publish := PublishDeadLetter(handler, env.deadAppended, env.deadAcked);
      Take(publish, stream);
      if !env.deadAcked {
        lastError := Some("publish consumer dead letter");
        return Postponed(MINUTE as int);
      }
      ghost var term := Term(handler, env.termApplied);
      Take(term, stream);
      if !env.term {
        lastError := Some("terminate dead-lettered event");
      }
      return Terminate(env.term);
    }

    /** The transaction that records the receipt. */
    method RecordInTransaction(e: Event.Envelope, position: nat, count: uint64, env: Environment,
                               ghost stream: seq<Entry>) returns (ok: bool)
      requires Coupled() && position < |stream| && Opened(stream[position].message) == Some(e)
      requires HandlerOf(s, handler) == Received(position, count as int) && OnTrail(stream)
      modifies this`s, this`trail, db
      ensures Coupled() && OnTrail(stream) && db.started == old(db.started)
      ensures ok <==> Commits(old(db.started), env.tx, count as int)
      ensures HandlerOf(s, handler) ==
        if ok then Committed(position, count as int) else Aborted(position, count as int)
      ensures s.deliveries == old(s).deliveries
      ensures db.committed ==
        if TakesEffect(old(db.started), env.tx, count as int)
        then InsertReceipt(old(db.committed), e, count as int) else old(db.committed)
    {
      var op := (receipts: Receipts) => RecordReceipt(receipts, e, count as int);
      var error := db.InTransaction(Some(op), env.tx);
      ok := error.None?;
      ghost var applied := ok || (error == Some(D.CommitFailed) && env.tx.commit.Unreported?);
      ghost var transact := Transact(handler, applied, ok);
      Take(transact, stream);
    }

    method BuryInvalid(m: Message, position: nat, count: uint64, env: Environment, ghost stream: seq<Entry>)
      returns (out: Settlement)
      requires Coupled() && (env.deadAcked ==> env.deadAppended)
      requires position < |stream| && stream[position].message == m && Opened(m).None?
      requires HandlerOf(s, handler) == Received(position, count as int) && OnTrail(stream)
      modifies this
      ensures Coupled() && OnTrail(stream) && HandlerOf(s, handler).Waiting?
      ensures lastError == ErrorAfter(out, old(lastError))
      ensures dead ==
        if env.deadAppended then old(dead) + [LetterFor(m, position, count as int, InvalidEnvelope)] else old(dead)
      ensures out == if env.deadAcked then Terminate(env.term) else Postponed(MINUTE as int)
      ensures s.deliveries ==
        if env.deadAcked && env.termApplied then Stand(old(s), position, Terminated) else old(s).deliveries
    {
      ghost var reject := Reject(handler);
      Take(reject, stream);
      out := Bury(m, position, count, InvalidEnvelope, env, stream);
    }

    method BuryAborted(m: Message, position: nat, count: uint64, env: Environment, ghost stream: seq<Entry>)
      returns (out: Settlement)
      requires Coupled() && (env.deadAcked ==> env.deadAppended) && count as int >= MAX_DELIVERIES
      requires HandlerOf(s, handler) == Aborted(position, count as int) && OnTrail(stream)
      requires position < |stream| && stream[position].message == m
      modifies this
      ensures Coupled() && OnTrail(stream) && HandlerOf(s, handler).Waiting?
      ensures lastError == ErrorAfter(out, old(lastError))
      ensures dead ==
        if env.deadAppended then old(dead) + [LetterFor(m, position, count as int, ProcessingFailed)] else old(dead)
      ensures out == if env.deadAcked then Terminate(env.term) else Postponed(MINUTE as int)
      ensures s.deliveries ==
        if env.deadAcked && env.termApplied then Stand(old(s), position, Terminated) else old(s).deliveries
    {
      ghost var giveUp := GiveUp(handler);
      Take(giveUp, stream);
      out := Bury(m, position, count, ProcessingFailed, env, stream);
    }

    method SendAck(position: nat, count: uint64, env: Environment, ghost stream: seq<Entry>)
      returns (out: Settlement)
      requires Coupled() && HandlerOf(s, handler) == Committed(position, count as int) && OnTrail(stream)
      modifies this
      ensures Coupled() && OnTrail(stream) && HandlerOf(s, handler).Waiting?
      ensures lastError == ErrorAfter(out, old(lastError))
      ensures dead == old(dead) && out == Acknowledge(env.ack)
      ensures s.deliveries == if env.ackApplied then Stand(old(s), position, Acknowledged) else old(s).deliveries
    {
      ghost var ack := Ack(handler, env.ackApplied);
      Take(ack, stream);
      if !env.ack {
        lastError := Some("acknowledge event");
      }
      return Acknowledge(env.ack);
    }

    method SendNak(position: nat, count: uint64, env: Environment, ghost stream: seq<Entry>)
      returns (out: Settlement)
      requires Coupled() && HandlerOf(s, handler) == Aborted(position, count as int) && OnTrail(stream)
      requires count as int < MAX_DELIVERIES
      modifies this
      ensures Coupled() && OnTrail(stream) && HandlerOf(s, handler).Waiting?
      ensures lastError == ErrorAfter(out, old(lastError))
      ensures dead == old(dead) && s.deliveries == old(s).deliveries
      ensures out == Retry(Capped(SECOND as int, MINUTE as int, count as int), env.nak)
    {
      var delay, _ := RedeliveryBackoff(count);
      ghost var nak := Nak(handler);
      Take(nak, stream);
      lastError := Some("consumer processing failed");
      return Retry(delay as int, env.nak);
    }

    /** The part of process that follows a successful validation. */
    method ProcessEnvelope(m: Message, e: Event.Envelope, position: nat, count: uint64, env: Environment,
                           ghost stream: seq<Entry>) returns (out: Settlement)
      requires Coupled() && (env.deadAcked ==> env.deadAppended) && count == Count(env)
      requires position < |stream| && stream[position].message == m && Opened(m) == Some(e)
      requires HandlerOf(s, handler) == Received(position, count as int) && OnTrail(stream)
      modifies this, db
      ensures Coupled() && OnTrail(stream) && HandlerOf(s, handler).Waiting? && db.started == old(db.started)
      ensures lastError == ErrorAfter(out, old(lastError))
      ensures out == Verdict(true, Commits(old(db.started), env.tx, count as int), env)
      ensures dead ==
        if (out.Terminate? || out.Postponed?) && env.deadAppended
        then old(dead) + [LetterFor(m, position, count as int, ProcessingFailed)] else old(dead)
      ensures s.deliveries ==
        if out.Acknowledge? && env.ackApplied then Stand(old(s), position, Acknowledged)
        else if out.Terminate? && env.termApplied then Stand(old(s), position, Terminated)
        else old(s).deliveries
      ensures db.committed ==
        if TakesEffect(old(db.started), env.tx, count as int)
        then InsertReceipt(old(db.committed), e, count as int) else old(db.committed)
    {
      var ok := RecordInTransaction(e, position, count, env, stream);
      if ok {
        out := SendAck(position, count, env, stream);
      } else if count as int >= MAX_DELIVERIES {
        out := BuryAborted(m, position, count, env, stream);
      } else {
        out := SendNak(position, count, env, stream);
      }
    }

    /**
     process: what is not a valid envelope is buried at once and records nothing; a valid one is acknowledged exactly if
     its receipt is reported as committed, retried after the backoff while deliveries are left, and buried after the
     last. Its calls are steps of the machine.
     */
    method Process(m: Message, position: nat, env: Environment, ghost stream: seq<Entry>)
      returns (out: Settlement)
      requires Coupled() && (env.deadAcked ==> env.deadAppended)
      requires position < |stream| && stream[position].message == m
      requires HandlerOf(s, handler) == Received(position, Count(env) as int) && OnTrail(stream)
      modifies this, db
      ensures Coupled() && OnTrail(stream) && HandlerOf(s, handler).Waiting? && db.started == old(db.started)
      ensures lastError ==
        if out == Acknowledge(true) || out == Terminate(true) then old(lastError)
        else if out.Acknowledge? then Some("acknowledge event")
        else if out.Terminate? then Some("terminate dead-lettered event")
        else if out.Postponed? then Some("publish consumer dead letter")
        else Some("consumer processing failed")
      ensures var valid := m.data.Encoded? && Event.Valid(m.data.envelope);
        var n := if env.metadata.Some? then env.metadata.value as int else 1;
        var commits := old(db.started) && env.tx.begins && env.tx.commit == D.Applied && 1 <= n <= 0x7fff_ffff;
        && (valid && commits ==> out == Acknowledge(env.ack))
        && (valid && !commits && n < 5 ==> out == Retry(1_000_000_000 * Pow2(if n == 0 then 0 else n - 1), env.nak))
        && (!valid || (!commits && n >= 5) ==>
              out == if env.deadAcked then Terminate(env.term) else Postponed(60_000_000_000))
      ensures dead == old(dead) +
        if (out.Terminate? || out.Postponed?) && env.deadAppended
        then [DeadLetter(
          position,
          if env.metadata.Some? then env.metadata.value as int else 1,
          if m.data.Encoded? && Event.Valid(m.data.envelope) then ProcessingFailed else InvalidEnvelope,
          if m.data.Encoded? then m.data.envelope.id else m.data.id,
          m.subject)]
        else []
      ensures s.deliveries ==
        if out.Acknowledge? && env.ackApplied then Stand(old(s), position, Acknowledged)
        else if out.Terminate? && env.termApplied then Stand(old(s), position, Terminated)
        else old(s).deliveries
      ensures var n := if env.metadata.Some? then env.metadata.value as int else 1;
        db.committed ==
          if m.data.Encoded? && Event.Valid(m.data.envelope)
             && old(db.started) && env.tx.begins && env.tx.commit != D.Lost && 1 <= n <= 0x7fff_ffff
             && ("manoreck-infrastructure-proof-v1", Uuid.Key(m.data.envelope.id)) !in old(db.committed)
          then old(db.committed)[
            ("manoreck-infrastructure-proof-v1", Uuid.Key(m.data.envelope.id)) := Receipt(m.data.envelope.eventType, n)]
          else old(db.committed)
    {
      var count := if env.metadata.Some? then env.metadata.value else 1;
      VerdictInFull(Opened(m).Some?, Commits(db.started, env.tx, count as int), env);
      LetterInFull(m, position, count as int);
      ReceiptInFull(m, db.committed, db.started, env.tx, count as int);
      out := ProcessDelivery(m, position, count, env, stream);
    }

    /** The part of process that follows the reading of the delivery count. */
    method ProcessDelivery(m: Message, position: nat, count: uint64, env: Environment, ghost stream: seq<Entry>)
      returns (out: Settlement)
      requires Coupled() && (env.deadAcked ==> env.deadAppended) && count == Count(env)
      requires position < |stream| && stream[position].message == m
      requires HandlerOf(s, handler) == Received(position, count as int) && OnTrail(stream)
      modifies this, db
      ensures Coupled() && OnTrail(stream) && HandlerOf(s, handler).Waiting? && db.started == old(db.started)
      ensures lastError == ErrorAfter(out, old(lastError))
      ensures out == Verdict(Opened(m).Some?, Commits(old(db.started), env.tx, count as int), env)
      ensures dead ==
        if (out.Terminate? || out.Postponed?) && env.deadAppended
        then old(dead) + [LetterFor(m, position, count as int, ReasonFor(Opened(m).Some?))] else old(dead)
      ensures s.deliveries ==
        if out.Acknowledge? && env.ackApplied then Stand(old(s), position, Acknowledged)
        else if out.Terminate? && env.termApplied then Stand(old(s), position, Terminated)
        else old(s).deliveries
      ensures db.committed ==
        if Opened(m).Some? && TakesEffect(old(db.started), env.tx, count as int)
        then InsertReceipt(old(db.committed), Opened(m).value, count as int) else old(db.committed)
    {
      var opens := Opens(m);
      if !opens {
        out := BuryInvalid(m, position, count, env, stream);
        return;
      }
      out := ProcessEnvelope(m, m.data.envelope, position, count, env, stream);
    }

    /** The broker's next delivery of a message that is still outstanding. */
    ghost method Redeliver(position: nat, stream: seq<Entry>)
      requires Coupled() && Selected(stream, position) && HandlerOf(s, handler).Waiting? && OnTrail(stream)
      requires DeliveryOf(s, position).standing.Outstanding? && DeliveryOf(s, position).count < MAX_DELIVERIES
      modifies this`s, this`trail
      ensures Coupled() && OnTrail(stream)
      ensures DeliveryOf(s, position) == Delivery(DeliveryOf(old(s), position).count + 1, Outstanding)
      ensures HandlerOf(s, handler) == Received(position, DeliveryOf(s, position).count)
    {
      var deliver := Deliver(handler, position, true);
      Take(deliver, stream);
    }

    /** One delivery when the broker's own calls succeed. */
    method DeliverOnce(m: Message, position: nat, tx: D.Environment, n: nat, ghost stream: seq<Entry>)
      returns (out: Settlement)
      requires Coupled() && Selected(stream, position) && stream[position].message == m && OnTrail(stream)
      requires HandlerOf(s, handler).Waiting? && DeliveryOf(s, position) == Delivery(n, Outstanding)
      requires n < MAX_DELIVERIES
      modifies this, db
      ensures Coupled() && OnTrail(stream) && HandlerOf(s, handler).Waiting? && db.started == old(db.started)
      ensures out ==
        if Opened(m).None? then Terminate(true)
        else if Commits(old(db.started), tx, n + 1) then Acknowledge(true)
        else if n + 1 < MAX_DELIVERIES then Retry(Capped(SECOND as int, MINUTE as int, n + 1), true)
        else Terminate(true)
      ensures DeliveryOf(s, position) == Delivery(n + 1,
        if out.Acknowledge? then Acknowledged else if out.Terminate? then Terminated else Outstanding)
      ensures dead == if !out.Terminate? then old(dead) else old(dead) + [LetterFor(m, position, n + 1,
        ReasonFor(Opened(m).Some?))]
      ensures db.committed ==
        if Opened(m).Some? && TakesEffect(old(db.started), tx, n + 1)
        then InsertReceipt(old(db.committed), Opened(m).value, n + 1) else old(db.committed)
    {
      var env := Environment(Some((n + 1) as uint64), tx, true, true, true, true, true, true, true);
      Redeliver(position, stream);
      VerdictInFull(Opened(m).Some?, Commits(db.started, tx, n + 1), env);
      LetterInFull(m, position, n + 1);
      ReceiptInFull(m, db.committed, db.started, tx, n + 1);
      out := Process(m, position, env, stream);
    }

    /**
     The broker's redeliveries of one message when its own calls succeed and only the database misbehaves: delivery n
     carries count n, and a negative acknowledgement brings the next one, up to the delivery limit. The message is
     settled within five deliveries: acknowledged with a receipt at the first transaction that is reported, or
     terminated with exactly one dead letter. A terminated message has a receipt exactly if there was one before, or if
     one of its transactions took effect without being reported.
     */
    method DeliverUntilSettled(m: Message, position: nat, txs: seq<D.Environment>, ghost stream: seq<Entry>)
      returns (acked: bool, deliveries: nat, delays: seq<int>)
      requires Coupled() && OnTrail(stream) && |txs| == MAX_DELIVERIES
      requires Selected(stream, position) && stream[position].message == m
      requires HandlerOf(s, handler).Waiting? && DeliveryOf(s, position) == Delivery(0, Outstanding)
      modifies this, db
      ensures Coupled() && OnTrail(stream)
      ensures 1 <= deliveries <= MAX_DELIVERIES && delays == Delays(deliveries - 1)
      ensures DeliveryOf(s, position) == Delivery(deliveries, if acked then Acknowledged else Terminated)
      ensures Opened(m).None? ==> !acked && deliveries == 1 && db.committed == old(db.committed)
      ensures Opened(m).Some? ==> NoneCommits(old(db.started), txs, deliveries - 1)
      ensures Opened(m).Some? ==>
        if acked then Commits(old(db.started), txs[deliveries - 1], deliveries)
        else deliveries == MAX_DELIVERIES && NoneCommits(old(db.started), txs, MAX_DELIVERIES)
      ensures Opened(m).Some? ==>
        db.committed == Recorded(old(db.committed), Opened(m).value, old(db.started), txs, deliveries)
      ensures Opened(m).Some? && acked ==> KeyOf(Opened(m).value) in db.committed
      ensures Opened(m).Some? && !acked ==>
        (KeyOf(Opened(m).value) in db.committed <==>
         KeyOf(Opened(m).value) in old(db.committed) || AnyUnreported(old(db.started), txs, MAX_DELIVERIES))
      ensures dead == if acked then old(dead) else old(dead) + [LetterFor(m, position, deliveries,
        ReasonFor(Opened(m).Some?))]
    {
      delays, deliveries := [], 0;
      while true
        invariant 0 <= deliveries < MAX_DELIVERIES && delays == Delays(deliveries)
        invariant Coupled() && OnTrail(stream) && db.started == old(db.started) && dead == old(dead)
        invariant HandlerOf(s, handler).Waiting? && DeliveryOf(s, position) == Delivery(deliveries, Outstanding)
        invariant deliveries > 0 ==> Opened(m).Some?
        invariant deliveries == 0 ==> db.committed == old(db.committed)
        invariant NoneCommits(old(db.started), txs, deliveries)
        invariant Opened(m).Some? ==>
          db.committed == Recorded(old(db.committed), Opened(m).value, old(db.started), txs, deliveries)
        decreases MAX_DELIVERIES - deliveries
      {
        var out := DeliverOnce(m, position, txs[deliveries], deliveries, stream);
        deliveries := deliveries + 1;
        if out.Acknowledge? {
          RecordedReported(old(db.committed), Opened(m).value, old(db.started), txs, deliveries);
          return true, deliveries, delays;
        }
        if out.Terminate? {
          if Opened(m).Some? {
            RecordedUnreported(old(db.committed), Opened(m).value, old(db.started), txs, deliveries);
          }
          return false, deliveries, delays;
        }
        delays := delays + [out.delay];
      }
    }
  }

  /** None of the first `n` transactions is reported as committed. */
  predicate NoneCommits(started: bool, txs: seq<D.Environment>, n: nat)
    requires n <= |txs|
  {
    n > 0 ==> NoneCommits(started, txs, n - 1) && !Commits(started, txs[n - 1], n)
  }

  /** One of the first `n` transactions took effect without being reported. */
  predicate AnyUnreported(started: bool, txs: seq<D.Environment>, n: nat)
    requires n <= |txs|
  {
    started && exists i :: 0 <= i < n && txs[i].begins && txs[i].commit.Unreported?
  }

  /** The receipts after `n` deliveries of one valid message. */
  function Recorded(receipts: Receipts, e: Event.Envelope, started: bool, txs: seq<D.Environment>, n: nat): Receipts
    requires n <= |txs|
  {
    if n == 0 then receipts
    else
      var before := Recorded(receipts, e, started, txs, n - 1);
      if TakesEffect(started, txs[n - 1], n) then InsertReceipt(before, e, n) else before
  }

  /** Without a reported commit, deliveries leave a receipt exactly if one of their commits went unreported. */
  lemma {:induction false} RecordedUnreported(receipts: Receipts, e: Event.Envelope, started: bool,
                                              txs: seq<D.Environment>, n: nat)
    requires n <= |txs| && n <= MAX_DELIVERIES && NoneCommits(started, txs, n)
    ensures KeyOf(e) in Recorded(receipts, e, started, txs, n) <==>
      KeyOf(e) in receipts || AnyUnreported(started, txs, n)
  {
    if n > 0 {
      RecordedUnreported(receipts, e, started, txs, n - 1);
    }
  }

  /** A reported commit leaves a receipt. */
  lemma RecordedReported(receipts: Receipts, e: Event.Envelope, started: bool, txs: seq<D.Environment>, n: nat)
    requires 1 <= n <= |txs| && Commits(started, txs[n - 1], n)
    ensures KeyOf(e) in Recorded(receipts, e, started, txs, n)
  {
  }
}
