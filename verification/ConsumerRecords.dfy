/**
 What the consumer's records say, over every trail and whatever fails: who is acknowledged, what a receipt stands for,
 and what a dead letter tells about its message. The results are stated about messages, envelopes and counts alone.
 */
module ConsumerRecords {

  import opened Wrappers
  import opened OutboxMachine
  import opened ConsumerMachine
  import Event
  import Uuid

  // ---------- Invariant ----------

  /** What a dead letter about this position may say. */
  predicate Truthful(stream: seq<Entry>, position: nat, count: int, reason: Reason) {
    && Selected(stream, position) && 1 <= count <= MAX_DELIVERIES
    && reason == ReasonFor(Opened(stream[position].message).Some?)
    && (reason.ProcessingFailed? ==> count >= MAX_DELIVERIES)
  }

  predicate LetterOk(stream: seq<Entry>, d: DeadLetter) {
    && Truthful(stream, d.position, d.deliveryCount, d.reason)
    && d == LetterFor(stream[d.position].message, d.position, d.deliveryCount, d.reason)
  }

  /** What a handler knows about the message it holds. */
  predicate Informed(stream: seq<Entry>, w: Handler) {
    match w
    case Received(p, n) => Selected(stream, p) && 1 <= n <= MAX_DELIVERIES
    case Aborted(p, n) => Selected(stream, p) && 1 <= n <= MAX_DELIVERIES && Opened(stream[p].message).Some?
    case DeadLettering(p, n, reason) => Truthful(stream, p, n, reason)
    case _ => true
  }

  predicate RecordsOk(stream: seq<Entry>, s: CState) {
    && (forall h :: h in s.handlers ==> Informed(stream, s.handlers[h]))
    && (forall i :: 0 <= i < |s.dead| ==> LetterOk(stream, s.dead[i]))
  }

  lemma StepInformed(stream: seq<Entry>, s: CState, step: CStep)
    requires CInv(stream, s) && RecordsOk(stream, s) && CEnabled(stream, s, step)
    ensures Informed(stream, HandlerOf(CApply(stream, s, step), step.handler))
  {
    assert Informed(stream, HandlerOf(s, step.handler));
    if step.Deliver? && step.position in s.deliveries {
      assert DeliveryOk(stream, s, step.position, s.deliveries[step.position]);
    }
  }

  lemma OtherHandlers(stream: seq<Entry>, s: CState, step: CStep, h: nat)
    requires CEnabled(stream, s, step) && h in CApply(stream, s, step).handlers && h != step.handler
    ensures h in s.handlers && CApply(stream, s, step).handlers[h] == s.handlers[h]
  {
  }

  lemma StepRecords(stream: seq<Entry>, s: CState, step: CStep)
    requires CInv(stream, s) && RecordsOk(stream, s) && CEnabled(stream, s, step)
    ensures RecordsOk(stream, CApply(stream, s, step))
  {
    var t, w := CApply(stream, s, step), HandlerOf(s, step.handler);
    assert Informed(stream, w);
    forall h | h in t.handlers
      ensures Informed(stream, t.handlers[h])
    {
      if h == step.handler {
        StepInformed(stream, s, step);
      } else {
        OtherHandlers(stream, s, step, h);
      }
    }
  }

  lemma {:induction false} ReplayRecords(stream: seq<Entry>, s0: CState, trail: seq<CStep>)
    requires CInit(s0) && Replay(stream, s0, trail).Some?
    ensures CInv(stream, Replay(stream, s0, trail).value) && RecordsOk(stream, Replay(stream, s0, trail).value)
  {
    if trail != [] {
      var n := |trail| - 1;
      ReplayRecords(stream, s0, trail[..n]);
      StepCInv(stream, Replay(stream, s0, trail[..n]).value, trail[n]);
      StepRecords(stream, Replay(stream, s0, trail[..n]).value, trail[n]);
    }
  }

  // ---------- What the records say ----------

  /** Only a message that holds a valid envelope is ever acknowledged, and it has its receipt. */
  lemma AcknowledgedIsValid(stream: seq<Entry>, s0: CState, trail: seq<CStep>, s: CState, p: nat)
    requires CInit(s0) && Replay(stream, s0, trail) == Some(s)
    requires p in s.deliveries && s.deliveries[p].standing == Acknowledged
    ensures p < |stream|
    ensures var m := stream[p].message;
      && m.subject == "manoreck.events.infrastructure.probe.v1"
      && m.data.Encoded? && Event.Valid(m.data.envelope)
      && ("manoreck-infrastructure-proof-v1", Uuid.Key(m.data.envelope.id)) in s.receipts
  {
    ReplayRecords(stream, s0, trail);
    assert DeliveryOk(stream, s, p, s.deliveries[p]);
  }

  /** Every receipt stands for a message with a valid envelope of that id and type, delivered at most five times. */
  lemma ReceiptsTell(stream: seq<Entry>, s0: CState, trail: seq<CStep>, s: CState, key: Key)
    requires CInit(s0) && Replay(stream, s0, trail) == Some(s) && key in s.receipts
    ensures 1 <= s.receipts[key].deliveryCount <= 5
    ensures exists p :: 0 <= p < |stream| && var m := stream[p].message;
      && m.subject == "manoreck.events.infrastructure.probe.v1"
      && m.data.Encoded? && Event.Valid(m.data.envelope)
      && key == ("manoreck-infrastructure-proof-v1", Uuid.Key(m.data.envelope.id))
      && s.receipts[key].eventType == m.data.envelope.eventType
  {
    ReplayRecords(stream, s0, trail);
    assert ReceiptOk(stream, key, s.receipts[key]);
    var p :| 0 <= p < |stream| && Accounts(stream, p, key, s.receipts[key]);
  }

  /**
   Every dead letter tells the truth about its message: its subject, the event id as far as one could be read, and the
   reason, which is the envelope exactly if that is invalid; a valid message is given up only after its fifth delivery.
   */
  lemma LettersTell(stream: seq<Entry>, s0: CState, trail: seq<CStep>, s: CState, i: nat)
    requires CInit(s0) && Replay(stream, s0, trail) == Some(s) && i < |s.dead|
    ensures s.dead[i].position < |stream|
    ensures var d := s.dead[i];
      var m := stream[d.position].message;
      && d.subject == m.subject == "manoreck.events.infrastructure.probe.v1"
      && d.eventId == (if m.data.Encoded? then m.data.envelope.id else m.data.id)
      && d.reason == (if m.data.Encoded? && Event.Valid(m.data.envelope) then ProcessingFailed else InvalidEnvelope)
      && 1 <= d.deliveryCount <= 5 && (d.reason == ProcessingFailed ==> d.deliveryCount == 5)
  {
    ReplayRecords(stream, s0, trail);
    assert LetterOk(stream, s.dead[i]);
  }
}
