/**
 The idempotent consumer as a state machine: any number of handlers process deliveries of stream messages. The broker
 redelivers, acknowledgements and terminations get lost, commits may take effect without being reported, and handlers
 crash at any point.
 */
module ConsumerMachine {

  import opened Wrappers
  import opened OutboxMachine
  import Event
  import Uuid

  const CONSUMER := "manoreck-infrastructure-proof-v1"

  const MAX_DELIVERIES := 5

  /** The primary key of a receipt: consumer and event. */
  type Key = (string, nat)

  datatype Receipt = Receipt(eventType: string, deliveryCount: int)

  type Receipts = map<Key, Receipt>

  function KeyOf(e: Event.Envelope): Key {
    (CONSUMER, Uuid.Key(e.id))
  }

  /** INSERT ... ON CONFLICT DO NOTHING. */
  function InsertReceipt(receipts: Receipts, e: Event.Envelope, deliveryCount: int): Receipts {
    if KeyOf(e) in receipts then receipts else receipts[KeyOf(e) := Receipt(e.eventType, deliveryCount)]
  }

  datatype Reason = InvalidEnvelope | ProcessingFailed

  function ReasonFor(valid: bool): Reason {
    if valid then ProcessingFailed else InvalidEnvelope
  }

  /** What a consumer publishes about a message it gives up. */
  datatype DeadLetter = DeadLetter(position: nat, deliveryCount: int, reason: Reason, eventId: string, subject: string)

  function LetterFor(m: Message, position: nat, deliveryCount: int, reason: Reason): DeadLetter {
    var id := if m.data.Encoded? then m.data.envelope.id else m.data.id;
    DeadLetter(position, deliveryCount, reason, id, m.subject)
  }

  datatype Standing = Outstanding | Acknowledged | Terminated

  /** The broker's view of one stream message for this consumer. */
  datatype Delivery = Delivery(count: nat, standing: Standing)

  /** Where a handler stands with the delivery it holds. */
  datatype Handler =
    | Waiting
    | Received(position: nat, count: int)
    | Committed(position: nat, count: int)
    | Aborted(position: nat, count: int)
    | DeadLettering(position: nat, count: int, reason: Reason)
    | DeadLettered(position: nat)

  /** `effects` is history: every insertion that really added a receipt, oldest first. */
  datatype CState = CState(
    receipts: Receipts,
    effects: seq<(Key, Receipt)>,
    deliveries: map<nat, Delivery>,
    dead: seq<DeadLetter>,
    handlers: map<nat, Handler>)

  predicate CInit(s: CState) {
    s.receipts == map[] && s.effects == [] && s.deliveries == map[] && s.dead == [] && s.handlers == map[]
  }

  function HandlerOf(s: CState, h: nat): Handler {
    if h in s.handlers then s.handlers[h] else Waiting
  }

  /** The envelope of a message, if it decodes and validates. */
  function Opened(m: Message): Option<Event.Envelope> {
    if m.data.Encoded? && Event.Valid(m.data.envelope) then Some(m.data.envelope) else None
  }

  predicate Selected(stream: seq<Entry>, position: nat) {
    position < |stream| && stream[position].message.subject == Event.INFRASTRUCTURE_SUBJECT
  }

  function DeliveryOf(s: CState, position: nat): Delivery {
    if position in s.deliveries then s.deliveries[position] else Delivery(0, Outstanding)
  }

  datatype CStep =
    | Deliver(handler: nat, position: nat, metadata: bool)
    | Reject(handler: nat)
    | Transact(handler: nat, applied: bool, reported: bool)
    | Ack(handler: nat, applied: bool)
    | GiveUp(handler: nat)
    | Nak(handler: nat)
    | PublishDeadLetter(handler: nat, appended: bool, acked: bool)
    | Term(handler: nat, applied: bool)
    | Crash(handler: nat)

  predicate CEnabled(stream: seq<Entry>, s: CState, step: CStep) {
    match step
    case Deliver(h, position, _) =>
      && HandlerOf(s, h).Waiting? && Selected(stream, position)
      && DeliveryOf(s, position).standing.Outstanding? && DeliveryOf(s, position).count < MAX_DELIVERIES
    case Reject(h) =>
      var w := HandlerOf(s, h);
      w.Received? && w.position < |stream| && Opened(stream[w.position].message).None?
    case Transact(h, applied, reported) =>
      var w := HandlerOf(s, h);
      && w.Received? && w.position < |stream| && Opened(stream[w.position].message).Some?
      && (reported ==> applied)
    case Ack(h, _) => HandlerOf(s, h).Committed?
    case GiveUp(h) => HandlerOf(s, h).Aborted? && HandlerOf(s, h).count >= MAX_DELIVERIES
    case Nak(h) => HandlerOf(s, h).Aborted? && HandlerOf(s, h).count < MAX_DELIVERIES
    case PublishDeadLetter(h, appended, acked) =>
      var w := HandlerOf(s, h);
      w.DeadLettering? && w.position < |stream| && (acked ==> appended)
    case Term(h, _) => HandlerOf(s, h).DeadLettered?
    case Crash(_) => true
  }

  function Stand(s: CState, position: nat, standing: Standing): map<nat, Delivery> {
    var d := DeliveryOf(s, position);
    if d.standing.Outstanding? then s.deliveries[position := d.(standing := standing)] else s.deliveries
  }

  function CApply(stream: seq<Entry>, s: CState, step: CStep): CState
    requires CEnabled(stream, s, step)
  {
    match step
    case Deliver(h, position, metadata) =>
      var d := DeliveryOf(s, position);
      s.(deliveries := s.deliveries[position := d.(count := d.count + 1)],
         handlers := s.handlers[h := Received(position, if metadata then d.count + 1 else 1)])
    case Reject(h) =>
      var w := HandlerOf(s, h);
      s.(handlers := s.handlers[h := DeadLettering(w.position, w.count, InvalidEnvelope)])
    case Transact(h, applied, reported) =>
      var w := HandlerOf(s, h);
      var e := Opened(stream[w.position].message).value;
      var t := s.(handlers :=
        s.handlers[h := if reported then Committed(w.position, w.count) else Aborted(w.position, w.count)]);
      if applied then
        t.(receipts := InsertReceipt(s.receipts, e, w.count),
           effects := if KeyOf(e) in s.receipts then s.effects
                      else s.effects + [(KeyOf(e), Receipt(e.eventType, w.count))])
      else t
    case Ack(h, applied) =>
      var t := s.(handlers := s.handlers[h := Waiting]);
      if applied then t.(deliveries := Stand(s, HandlerOf(s, h).position, Acknowledged)) else t
    case GiveUp(h) =>
      var w := HandlerOf(s, h);
      s.(handlers := s.handlers[h := DeadLettering(w.position, w.count, ProcessingFailed)])
    case Nak(h) => s.(handlers := s.handlers[h := Waiting])
    case PublishDeadLetter(h, appended, acked) =>
      var w := HandlerOf(s, h);
      var letter := LetterFor(stream[w.position].message, w.position, w.count, w.reason);
      s.(dead := if appended then s.dead + [letter] else s.dead,
         handlers := s.handlers[h := if acked then DeadLettered(w.position) else Waiting])
    case Term(h, applied) =>
      var t := s.(handlers := s.handlers[h := Waiting]);
      if applied then t.(deliveries := Stand(s, HandlerOf(s, h).position, Terminated)) else t
    case Crash(h) => s.(handlers := s.handlers[h := Waiting])
  }

  // ---------- Invariants ----------

  predicate HasReceipt(stream: seq<Entry>, receipts: Receipts, position: nat) {
    && position < |stream| && Opened(stream[position].message).Some?
    && KeyOf(Opened(stream[position].message).value) in receipts
  }

  predicate HasDeadLetter(dead: seq<DeadLetter>, position: nat) {
    exists i :: 0 <= i < |dead| && dead[i].position == position
  }

  predicate HandlerOk(stream: seq<Entry>, s: CState, w: Handler) {
    match w
    case Waiting => true
    case Received(p, n) => Selected(stream, p) && 1 <= n <= MAX_DELIVERIES
    case Committed(p, n) => Selected(stream, p) && HasReceipt(stream, s.receipts, p)
    case Aborted(p, n) => Selected(stream, p) && 1 <= n <= MAX_DELIVERIES
    case DeadLettering(p, n, _) => Selected(stream, p)
    case DeadLettered(p) => Selected(stream, p) && HasDeadLetter(s.dead, p)
  }

  predicate DeliveryOk(stream: seq<Entry>, s: CState, position: nat, d: Delivery) {
    && Selected(stream, position) && d.count <= MAX_DELIVERIES
    && (d.standing.Acknowledged? ==> HasReceipt(stream, s.receipts, position))
    && (d.standing.Terminated? ==> HasDeadLetter(s.dead, position))
  }

  /** The message at this position accounts for the receipt. */
  predicate Accounts(stream: seq<Entry>, position: nat, key: Key, r: Receipt) {
    && Selected(stream, position) && Opened(stream[position].message).Some?
    && KeyOf(Opened(stream[position].message).value) == key
    && Opened(stream[position].message).value.eventType == r.eventType
  }

  predicate ReceiptOk(stream: seq<Entry>, key: Key, r: Receipt) {
    && 1 <= r.deliveryCount <= MAX_DELIVERIES
    && exists position :: 0 <= position < |stream| && Accounts(stream, position, key, r)
  }

  /** Each receipt is the one effect recorded for its key, and each effect is still the receipt. */
  predicate EffectsOk(s: CState) {
    && (forall i :: 0 <= i < |s.effects| ==>
          s.effects[i].0 in s.receipts && s.receipts[s.effects[i].0] == s.effects[i].1)
    && (forall i, j :: 0 <= i < j < |s.effects| ==> s.effects[i].0 != s.effects[j].0)
    && (forall k :: k in s.receipts ==> exists i :: 0 <= i < |s.effects| && s.effects[i].0 == k)
  }

  predicate CInv(stream: seq<Entry>, s: CState) {
    && (forall h :: h in s.handlers ==> HandlerOk(stream, s, s.handlers[h]))
    && (forall p :: p in s.deliveries ==> DeliveryOk(stream, s, p, s.deliveries[p]))
    && ReceiptsOk(stream, s)
  }

  // ---------- Nothing recorded is lost ----------

  predicate CExtends(s: CState, t: CState) {
    && (forall k :: k in s.receipts ==> k in t.receipts && t.receipts[k] == s.receipts[k])
    && s.effects <= t.effects
    && s.dead <= t.dead
    && (forall p :: p in s.deliveries ==> p in t.deliveries && s.deliveries[p].count <= t.deliveries[p].count)
    && (forall p :: p in s.deliveries && !s.deliveries[p].standing.Outstanding? ==>
          t.deliveries[p].standing == s.deliveries[p].standing)
  }

  lemma StepCExtends(stream: seq<Entry>, s: CState, step: CStep)
    requires CEnabled(stream, s, step)
    ensures CExtends(s, CApply(stream, s, step))
  {
  }

  lemma HandlerExtends(stream: seq<Entry>, stream': seq<Entry>, s: CState, t: CState, w: Handler)
    requires HandlerOk(stream, s, w) && stream <= stream' && CExtends(s, t)
    ensures HandlerOk(stream', t, w)
  {
    if w.DeadLettered? {
      var i :| 0 <= i < |s.dead| && s.dead[i].position == w.position;
      assert t.dead[i].position == w.position;
    }
  }

  lemma DeliveryExtends(stream: seq<Entry>, stream': seq<Entry>, s: CState, t: CState, p: nat, d: Delivery)
    requires DeliveryOk(stream, s, p, d) && stream <= stream' && CExtends(s, t)
    ensures DeliveryOk(stream', t, p, d)
  {
    if d.standing.Terminated? {
      var i :| 0 <= i < |s.dead| && s.dead[i].position == p;
      assert t.dead[i].position == p;
    }
  }

  lemma ReceiptExtends(stream: seq<Entry>, stream': seq<Entry>, key: Key, r: Receipt)
    requires ReceiptOk(stream, key, r) && stream <= stream'
    ensures ReceiptOk(stream', key, r)
  {
    var position :| 0 <= position < |stream| && Accounts(stream, position, key, r);
    assert Accounts(stream', position, key, r);
  }

  /** The stream may grow under the consumer. */
  lemma CInvExtends(stream: seq<Entry>, stream': seq<Entry>, s: CState)
    requires CInv(stream, s) && stream <= stream'
    ensures CInv(stream', s)
  {
    forall h | h in s.handlers
      ensures HandlerOk(stream', s, s.handlers[h])
    {
      HandlerExtends(stream, stream', s, s, s.handlers[h]);
    }
    forall p | p in s.deliveries
      ensures DeliveryOk(stream', s, p, s.deliveries[p])
    {
      DeliveryExtends(stream, stream', s, s, p, s.deliveries[p]);
    }
    forall k | k in s.receipts
      ensures ReceiptOk(stream', k, s.receipts[k])
    {
      ReceiptExtends(stream, stream', k, s.receipts[k]);
    }
  }

  // ---------- Steps ----------

  lemma StepHandlers(stream: seq<Entry>, s: CState, step: CStep, h: nat)
    requires CInv(stream, s) && CEnabled(stream, s, step)
    requires h in CApply(stream, s, step).handlers
    ensures HandlerOk(stream, CApply(stream, s, step), CApply(stream, s, step).handlers[h])
  {
    var t := CApply(stream, s, step);
    StepCExtends(stream, s, step);
    assert HandlerOk(stream, s, HandlerOf(s, h));
    if h != step.handler {
      HandlerExtends(stream, stream, s, t, HandlerOf(s, h));
    } else if step.PublishDeadLetter? && step.acked {
      assert t.dead[|s.dead|].position == HandlerOf(s, h).position;
    } else if step.Deliver? && step.position in s.deliveries {
      assert DeliveryOk(stream, s, step.position, s.deliveries[step.position]);
    }
  }

  /** Only Deliver, Ack and Term touch the broker's view of a message, each only that of one message. */
  lemma DeliveriesChange(stream: seq<Entry>, s: CState, step: CStep, p: nat)
    requires CEnabled(stream, s, step) && p in CApply(stream, s, step).deliveries
    ensures var d, w := CApply(stream, s, step).deliveries[p], HandlerOf(s, step.handler);
      || (p in s.deliveries && d == s.deliveries[p])
      || (step.Deliver? && step.position == p && Selected(stream, p)
          && DeliveryOf(s, p).count < MAX_DELIVERIES && d == Delivery(DeliveryOf(s, p).count + 1, Outstanding))
      || (step.Ack? && w.Committed? && w.position == p && d == Delivery(DeliveryOf(s, p).count, Acknowledged))
      || (step.Term? && w.DeadLettered? && w.position == p && d == Delivery(DeliveryOf(s, p).count, Terminated))
  {
  }

  lemma StepDeliveries(stream: seq<Entry>, s: CState, step: CStep, p: nat)
    requires CInv(stream, s) && CEnabled(stream, s, step)
    requires p in CApply(stream, s, step).deliveries
    ensures DeliveryOk(stream, CApply(stream, s, step), p, CApply(stream, s, step).deliveries[p])
  {
    var t, w := CApply(stream, s, step), HandlerOf(s, step.handler);
    StepCExtends(stream, s, step);
    DeliveriesChange(stream, s, step, p);
    assert HandlerOk(stream, s, w);
    if p in s.deliveries {
      DeliveryExtends(stream, stream, s, t, p, s.deliveries[p]);
    }
  }

  lemma AddedReceipt(stream: seq<Entry>, s: CState, position: nat, count: int)
    requires EffectsOk(s) && Selected(stream, position) && 1 <= count <= MAX_DELIVERIES
    requires Opened(stream[position].message).Some?
    requires KeyOf(Opened(stream[position].message).value) !in s.receipts
    ensures var e := Opened(stream[position].message).value;
      ReceiptOk(stream, KeyOf(e), Receipt(e.eventType, count))
  {
    var e := Opened(stream[position].message).value;
    assert Accounts(stream, position, KeyOf(e), Receipt(e.eventType, count));
  }

  /** A new receipt is the first effect of its key. */
  lemma AddedEffect(s: CState, t: CState, key: Key, r: Receipt)
    requires EffectsOk(s) && key !in s.receipts
    requires t.receipts == s.receipts[key := r] && t.effects == s.effects + [(key, r)]
    ensures EffectsOk(t)
  {
    forall k | k in t.receipts
      ensures exists i :: 0 <= i < |t.effects| && t.effects[i].0 == k
    {
      if k in s.receipts {
        var i :| 0 <= i < |s.effects| && s.effects[i].0 == k;
        assert t.effects[i].0 == k;
      } else {
        assert t.effects[|s.effects|].0 == k;
      }
    }
  }

  predicate ReceiptsOk(stream: seq<Entry>, s: CState) {
    EffectsOk(s) && forall k :: k in s.receipts ==> ReceiptOk(stream, k, s.receipts[k])
  }

  lemma TransactReceipts(stream: seq<Entry>, s: CState, t: CState, position: nat, count: int)
    requires ReceiptsOk(stream, s) && Selected(stream, position) && 1 <= count <= MAX_DELIVERIES
    requires Opened(stream[position].message).Some?
    requires var e := Opened(stream[position].message).value;
      && t.receipts == InsertReceipt(s.receipts, e, count)
      && t.effects == if KeyOf(e) in s.receipts then s.effects
                      else s.effects + [(KeyOf(e), Receipt(e.eventType, count))]
    ensures ReceiptsOk(stream, t)
  {
    var e := Opened(stream[position].message).value;
    var key, r := KeyOf(e), Receipt(e.eventType, count);
    if key !in s.receipts {
      AddedReceipt(stream, s, position, count);
      AddedEffect(s, t, key, r);
    }
  }

  lemma ReceiptsKept(stream: seq<Entry>, s: CState, step: CStep)
    requires CEnabled(stream, s, step) && !(step.Transact? && step.applied)
    ensures var t := CApply(stream, s, step); t.receipts == s.receipts && t.effects == s.effects
  {
  }

  /** Receipts and effects change only by adding the receipt of a selected, valid message. */
  lemma StepReceipts(stream: seq<Entry>, s: CState, step: CStep)
    requires CInv(stream, s) && CEnabled(stream, s, step)
    ensures ReceiptsOk(stream, CApply(stream, s, step))
  {
    var t := CApply(stream, s, step);
    if step.Transact? && step.applied {
      var w := HandlerOf(s, step.handler);
      assert HandlerOk(stream, s, w);
      TransactReceipts(stream, s, t, w.position, w.count);
    } else {
      ReceiptsKept(stream, s, step);
    }
  }

  lemma StepCInv(stream: seq<Entry>, s: CState, step: CStep)
    requires CInv(stream, s) && CEnabled(stream, s, step)
    ensures CInv(stream, CApply(stream, s, step)) && CExtends(s, CApply(stream, s, step))
  {
    var t := CApply(stream, s, step);
    StepCExtends(stream, s, step);
    StepReceipts(stream, s, step);
    forall h | h in t.handlers
      ensures HandlerOk(stream, t, t.handlers[h])
    {
      StepHandlers(stream, s, step, h);
    }
    forall p | p in t.deliveries
      ensures DeliveryOk(stream, t, p, t.deliveries[p])
    {
      StepDeliveries(stream, s, step, p);
    }
  }

  // ---------- Runs over one stream ----------

  /** The state after the steps of `trail`, if each of them was enabled when it was taken. */
  function Replay(stream: seq<Entry>, s: CState, trail: seq<CStep>): Option<CState> {
    if trail == [] then Some(s)
    else
      var before, step := Replay(stream, s, trail[..|trail| - 1]), trail[|trail| - 1];
      if before.Some? && CEnabled(stream, before.value, step) then Some(CApply(stream, before.value, step)) else None
  }

  lemma ReplayOn(stream: seq<Entry>, s: CState, trail: seq<CStep>, t: CState, step: CStep)
    requires Replay(stream, s, trail) == Some(t) && CEnabled(stream, t, step)
    ensures Replay(stream, s, trail + [step]) == Some(CApply(stream, t, step))
  {
    assert (trail + [step])[..|trail|] == trail;
  }

  /** Whatever trail a consumer leaves, the invariant holds at its end. */
  lemma {:induction false} ReplayInv(stream: seq<Entry>, s: CState, trail: seq<CStep>)
    requires CInv(stream, s) && Replay(stream, s, trail).Some?
    ensures CInv(stream, Replay(stream, s, trail).value)
  {
    if trail != [] {
      var n := |trail| - 1;
      ReplayInv(stream, s, trail[..n]);
      StepCInv(stream, Replay(stream, s, trail[..n]).value, trail[n]);
    }
  }

  /** A trail over a stream is the same trail over any longer stream. */
  lemma {:induction false} ReplayGrows(stream: seq<Entry>, stream': seq<Entry>, s: CState, trail: seq<CStep>)
    requires stream <= stream' && Replay(stream, s, trail).Some?
    ensures Replay(stream', s, trail) == Replay(stream, s, trail)
  {
    if trail != [] {
      ReplayGrows(stream, stream', s, trail[..|trail| - 1]);
    }
  }
}
