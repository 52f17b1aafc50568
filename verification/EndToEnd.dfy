/** Outbox, stream and consumer together: no receipt without a committed event, and at most one effect per event. */
module EndToEnd {

  import opened Wrappers
  import opened OutboxTable
  import opened OutboxMachine
  import opened OutboxInvariants
  import opened OutboxStream
  import opened OutboxTheorems
  import opened ConsumerMachine
  import opened ConsumerSettlement
  import opened ConsumerRecords
  import Event
  import Uuid

  datatype SystemState = SystemState(outbox: State, consumer: CState)

  datatype SystemStep = OutboxStep(step: Step) | ConsumerStep(cstep: CStep)

  predicate SystemInit(s: SystemState) {
    Init(s.outbox) && CInit(s.consumer)
  }

  predicate SystemEnabled(c: Setup, s: SystemState, step: SystemStep) {
    match step
    case OutboxStep(x) => Enabled(c, s.outbox, x)
    case ConsumerStep(x) => CEnabled(s.outbox.stream, s.consumer, x)
  }

  function SystemApply(c: Setup, s: SystemState, step: SystemStep): SystemState
    requires SystemEnabled(c, s, step)
  {
    match step
    case OutboxStep(x) => s.(outbox := Apply(c, s.outbox, x))
    case ConsumerStep(x) => s.(consumer := CApply(s.outbox.stream, s.consumer, x))
  }

  predicate SystemRun(c: Setup, ss: seq<SystemState>, steps: seq<SystemStep>) {
    && |ss| == |steps| + 1
    && forall i :: 0 <= i < |steps| ==>
         SystemEnabled(c, ss[i], steps[i]) && ss[i + 1] == SystemApply(c, ss[i], steps[i])
  }

  predicate SystemInv(c: Setup, s: SystemState) {
    Sound(c, s.outbox) && CInv(s.outbox.stream, s.consumer)
  }

  predicate SystemExtends(s: SystemState, t: SystemState) {
    Extends(s.outbox, t.outbox) && CExtends(s.consumer, t.consumer)
  }

  lemma SystemStepInv(c: Setup, s: SystemState, step: SystemStep)
    requires ValidPolicy(c.policy) && SystemInv(c, s) && SystemEnabled(c, s, step)
    ensures SystemInv(c, SystemApply(c, s, step)) && SystemExtends(s, SystemApply(c, s, step))
  {
    match step
    case OutboxStep(x) =>
      StepInv(c, s.outbox, x);
      StepStream(c, s.outbox, x);
      StepIdentity(c, s.outbox, x);
      CInvExtends(s.outbox.stream, Apply(c, s.outbox, x).stream, s.consumer);
    case ConsumerStep(x) =>
      StepCInv(s.outbox.stream, s.consumer, x);
  }

  lemma SystemExtendsTransitive(s: SystemState, t: SystemState, u: SystemState)
    requires SystemExtends(s, t) && SystemExtends(t, u)
    ensures SystemExtends(s, u)
  {
    ExtendsTransitive(s.outbox, t.outbox, u.outbox);
  }

  lemma {:induction false} SystemRunInv(c: Setup, ss: seq<SystemState>, steps: seq<SystemStep>, i: nat, j: nat)
    requires ValidPolicy(c.policy) && SystemRun(c, ss, steps) && SystemInit(ss[0]) && i <= j <= |steps|
    ensures SystemInv(c, ss[j]) && SystemExtends(ss[i], ss[j])
    decreases j
  {
    if j > 0 {
      SystemRunInv(c, ss, steps, if i < j then i else j - 1, j - 1);
      SystemStepInv(c, ss[j - 1], steps[j - 1]);
      if i < j {
        SystemExtendsTransitive(ss[i], ss[j - 1], ss[j]);
      }
    }
  }

  // ---------- Provenance ----------

  /** A stream entry that some publisher other than a relay wrote and that carries this event id. */
  predicate ForgedAt(stream: seq<Entry>, k: int, key: Key) {
    && 0 <= k < |stream| && stream[k].origin.External?
    && stream[k].message.data.Encoded? && KeyOf(stream[k].message.data.envelope) == key
  }

  /** The row from which a receipt descends: committed, attempted, and holding a valid event of that id and type. */
  predicate Descends(s: State, key: Key, r: Receipt) {
    && key.1 in s.rows && Identity(key.1, s.rows[key.1].event) && s.rows[key.1].attempts >= 1
    && s.rows[key.1].event.envelope.eventType == r.eventType
    && s.rows[key.1].event.subject == Event.INFRASTRUCTURE_SUBJECT
  }

  lemma ReceiptDescends(c: Setup, s: SystemState, key: Key)
    requires SystemInv(c, s) && key in s.consumer.receipts
    ensures Descends(s.outbox, key, s.consumer.receipts[key]) || exists k :: ForgedAt(s.outbox.stream, k, key)
  {
    var o, r := s.outbox, s.consumer.receipts[key];
    assert ReceiptOk(o.stream, key, r);
    var p :| 0 <= p < |o.stream| && Accounts(o.stream, p, key, r);
    var entry := o.stream[p];
    if entry.origin.External? {
      assert ForgedAt(o.stream, p, key);
    } else {
      RelayedOrigin(c, o, p);
      assert Identity(entry.origin.id, o.rows[entry.origin.id].event);
    }
  }

  lemma RelayedOrigin(c: Setup, s: State, k: nat)
    requires Sound(c, s) && k < |s.stream| && s.stream[k].origin.Relayed?
    ensures var id := s.stream[k].origin.id;
      id in s.rows && s.stream[k].message == MessageOf(s.rows[id].event) && s.rows[id].attempts >= 1
  {
    var o := s.stream[k].origin;
    assert EntryOk(s.rows, s.logs, s.stream[k]);
    assert RowOk(c, s.now, s.rows[o.id], s.logs[o.id]);
    MadeBound(c, s.rows[o.id].createdAt, s.logs[o.id], o.loop, o.attempt);
  }

  /**
   End-to-end provenance: in every reachable state each receipt descends from a committed, attempted outbox row that
   holds a valid event of the same id and type under the consumer's subject - unless someone other than a relay
   published a message with that event id.
   */
  lemma Provenance(c: Setup, ss: seq<SystemState>, steps: seq<SystemStep>, key: Key)
    requires ValidPolicy(c.policy) && SystemRun(c, ss, steps) && SystemInit(ss[0])
    requires key in ss[|steps|].consumer.receipts
    ensures var s := ss[|steps|];
      Descends(s.outbox, key, s.consumer.receipts[key]) || exists k :: ForgedAt(s.outbox.stream, k, key)
  {
    SystemRunInv(c, ss, steps, 0, |steps|);
    ReceiptDescends(c, ss[|steps|], key);
  }

  // ---------- Exactly one effect ----------

  function EffectsOf(effects: seq<(Key, Receipt)>, key: Key): nat {
    if effects == [] then 0
    else EffectsOf(effects[..|effects| - 1], key) + (if effects[|effects| - 1].0 == key then 1 else 0)
  }

  lemma {:induction false} EffectsUnique(effects: seq<(Key, Receipt)>, key: Key)
    requires forall i, j :: 0 <= i < j < |effects| ==> effects[i].0 != effects[j].0
    ensures EffectsOf(effects, key) == if exists i :: 0 <= i < |effects| && effects[i].0 == key then 1 else 0
  {
    if effects != [] {
      var n := |effects| - 1;
      EffectsUnique(effects[..n], key);
      if exists i :: 0 <= i < n && effects[i].0 == key {
        var i :| 0 <= i < n && effects[i].0 == key;
        assert effects[..n][i].0 == key;
      }
    }
  }

  /**
   Exactly-once effect over any run: between any two moments a receipt, once written, never changes; and the number of
   insertions that took effect for a key is one if there is a receipt and none otherwise.
   */
  lemma ExactlyOnce(c: Setup, ss: seq<SystemState>, steps: seq<SystemStep>, i: nat, j: nat, key: Key)
    requires ValidPolicy(c.policy) && SystemRun(c, ss, steps) && SystemInit(ss[0]) && i <= j <= |steps|
    ensures var s, t := ss[i].consumer, ss[j].consumer;
      && (key in s.receipts ==> key in t.receipts && t.receipts[key] == s.receipts[key])
      && EffectsOf(t.effects, key) == (if key in t.receipts then 1 else 0)
  {
    SystemRunInv(c, ss, steps, i, j);
    EffectsUnique(ss[j].consumer.effects, key);
  }

  /**
   Over any run: what the broker settled stays settled as it was; every acknowledged message holds a valid envelope and
   has its receipt, and every terminated message has its dead letter.
   */
  lemma SettledWithRecord(c: Setup, ss: seq<SystemState>, steps: seq<SystemStep>, i: nat, j: nat, p: nat)
    requires ValidPolicy(c.policy) && SystemRun(c, ss, steps) && SystemInit(ss[0]) && i <= j <= |steps|
    requires p in ss[i].consumer.deliveries && !ss[i].consumer.deliveries[p].standing.Outstanding?
    ensures var s, t, stream := ss[i].consumer, ss[j].consumer, ss[j].outbox.stream;
      && p in t.deliveries && t.deliveries[p].standing == s.deliveries[p].standing
      && t.deliveries[p].count <= MAX_DELIVERIES
      && (t.deliveries[p].standing.Acknowledged? ==> HasReceipt(stream, t.receipts, p))
      && (t.deliveries[p].standing.Terminated? ==> HasDeadLetter(t.dead, p))
    ensures var t, stream := ss[j].consumer, ss[j].outbox.stream;
      t.deliveries[p].standing == Acknowledged ==>
        && p < |stream| && stream[p].message.data.Encoded? && Event.Valid(stream[p].message.data.envelope)
        && ("manoreck-infrastructure-proof-v1", Uuid.Key(stream[p].message.data.envelope.id)) in t.receipts
    ensures var t := ss[j].consumer;
      t.deliveries[p].standing == Terminated ==> exists k :: 0 <= k < |t.dead| && t.dead[k].position == p
  {
    SystemRunInv(c, ss, steps, i, j);
    assert DeliveryOk(ss[j].outbox.stream, ss[j].consumer, p, ss[j].consumer.deliveries[p]);
  }

  // ---------- Settlement ----------

  /** The consumer's steps among the steps of the system. */
  function ConsumerSteps(steps: seq<SystemStep>): seq<CStep> {
    if steps == [] then []
    else
      var n := |steps| - 1;
      ConsumerSteps(steps[..n]) + (if steps[n].ConsumerStep? then [steps[n].cstep] else [])
  }

  /** Every step of the consumer meets this condition where it is taken. */
  predicate ConsumerKeeps(ss: seq<SystemState>, steps: seq<SystemStep>, ok: (CState, CStep) -> bool)
    requires |ss| == |steps| + 1
  {
    forall i :: 0 <= i < |steps| && steps[i].ConsumerStep? ==> ok(ss[i].consumer, steps[i].cstep)
  }

  /** All states along a trail stay the same when the stream grows. */
  lemma StatesGrow(stream: seq<Entry>, stream': seq<Entry>, s0: CState, trail: seq<CStep>)
    requires stream <= stream' && Replay(stream, s0, trail).Some?
    ensures Replay(stream', s0, trail) == Replay(stream, s0, trail)
    ensures forall i :: 0 <= i <= |trail| ==> StateAt(stream', s0, trail, i) == StateAt(stream, s0, trail, i)
  {
    ReplayGrows(stream, stream', s0, trail);
    forall i | 0 <= i <= |trail|
      ensures StateAt(stream', s0, trail, i) == StateAt(stream, s0, trail, i)
    {
      ReplayPrefix(stream, s0, trail, i);
      ReplayGrows(stream, stream', s0, trail[..i]);
    }
  }

  /** What the consumer did in a run of the system is a trail over the stream as it is at the end. */
  lemma {:induction false} Projects(c: Setup, ss: seq<SystemState>, steps: seq<SystemStep>, ok: (CState, CStep) -> bool)
    requires ValidPolicy(c.policy) && SystemRun(c, ss, steps) && SystemInit(ss[0]) && ConsumerKeeps(ss, steps, ok)
    ensures var end := ss[|steps|];
      && Replay(end.outbox.stream, ss[0].consumer, ConsumerSteps(steps)) == Some(end.consumer)
      && Always(end.outbox.stream, ss[0].consumer, ConsumerSteps(steps), ok)
  {
    if steps != [] {
      var n := |steps| - 1;
      var s0, s, t, trail := ss[0].consumer, ss[n], ss[n + 1], ConsumerSteps(steps[..n]);
      Projects(c, ss[..n + 1], steps[..n], ok);
      SystemRunInv(c, ss, steps, n, n + 1);
      if steps[n].ConsumerStep? {
        AlwaysOn(s.outbox.stream, s0, trail, s.consumer, steps[n].cstep, ok);
      } else {
        assert trail == ConsumerSteps(steps);
        StatesGrow(s.outbox.stream, t.outbox.stream, s0, trail);
      }
    }
  }

  /**
   Consumer settlement in the whole system: however relays, inserts, other publishers and handlers interleave, as long
   as the consumer's own calls to the broker succeed, every message is settled as Settlement says.
   */
  lemma MessageSettles(c: Setup, ss: seq<SystemState>, steps: seq<SystemStep>, p: nat)
    requires ValidPolicy(c.policy) && SystemRun(c, ss, steps) && SystemInit(ss[0])
    requires forall i :: 0 <= i < |steps| && steps[i].ConsumerStep? ==> Calm(ss[i].consumer, steps[i].cstep)
    ensures var end, trail := ss[|steps|], ConsumerSteps(steps);
      && Settlement(end.outbox.stream, ss[0].consumer, trail, end.consumer, p)
      && StepsAbout(end.outbox.stream, ss[0].consumer, trail, p) <= 17
  {
    Projects(c, ss, steps, Calm);
    SettlementHolds(ss[|steps|].outbox.stream, ss[0].consumer, ConsumerSteps(steps), p);
    StepsBounded(ss[|steps|].outbox.stream, ss[0].consumer, ConsumerSteps(steps), p);
  }

  /**
   Settlement is reached: with the bound of MessageSettles, since a message of the consumer's subject is settled if and
   only if the consumer can take no further calm step about it.
   */
  lemma MessageDone(c: Setup, ss: seq<SystemState>, steps: seq<SystemStep>, p: nat)
    requires ValidPolicy(c.policy) && SystemRun(c, ss, steps) && SystemInit(ss[0])
    requires forall i :: 0 <= i < |steps| && steps[i].ConsumerStep? ==> Calm(ss[i].consumer, steps[i].cstep)
    requires Selected(ss[|steps|].outbox.stream, p)
    ensures var end := ss[|steps|];
      !DeliveryOf(end.consumer, p).standing.Outstanding? <==>
      !exists x :: SystemEnabled(c, end, ConsumerStep(x)) && Calm(end.consumer, x) && Concerns(end.consumer, x, p)
  {
    Projects(c, ss, steps, Calm);
    var end := ss[|steps|];
    SettledIffDone(end.outbox.stream, ss[0].consumer, ConsumerSteps(steps), p);
    if x :| CEnabled(end.outbox.stream, end.consumer, x) && Calm(end.consumer, x) && Concerns(end.consumer, x, p) {
      assert SystemEnabled(c, end, ConsumerStep(x));
    }
  }

  /** Over every run of the system, whatever fails, a message has at most as many dead letters as deliveries. */
  lemma LettersBoundedInSystem(c: Setup, ss: seq<SystemState>, steps: seq<SystemStep>, p: nat)
    requires ValidPolicy(c.policy) && SystemRun(c, ss, steps) && SystemInit(ss[0])
    ensures var s := ss[|steps|].consumer;
      |LettersOf(s.dead, p)| <= DeliveryOf(s, p).count <= MAX_DELIVERIES
  {
    Projects(c, ss, steps, (s: CState, step: CStep) => true);
    LettersBounded(ss[|steps|].outbox.stream, ss[0].consumer, ConsumerSteps(steps), p);
  }

  /** Over every run of the system, whatever fails, every dead letter tells the truth about its message. */
  lemma LettersTellInSystem(c: Setup, ss: seq<SystemState>, steps: seq<SystemStep>, i: nat)
    requires ValidPolicy(c.policy) && SystemRun(c, ss, steps) && SystemInit(ss[0])
    requires i < |ss[|steps|].consumer.dead|
    ensures ss[|steps|].consumer.dead[i].position < |ss[|steps|].outbox.stream|
    ensures var d := ss[|steps|].consumer.dead[i];
      var m := ss[|steps|].outbox.stream[d.position].message;
      && d.subject == m.subject == "manoreck.events.infrastructure.probe.v1"
      && d.eventId == (if m.data.Encoded? then m.data.envelope.id else m.data.id)
      && d.reason == (if m.data.Encoded? && Event.Valid(m.data.envelope) then ProcessingFailed else InvalidEnvelope)
      && 1 <= d.deliveryCount <= 5 && (d.reason == ProcessingFailed ==> d.deliveryCount == 5)
  {
    Projects(c, ss, steps, (s: CState, step: CStep) => true);
    LettersTell(ss[|steps|].outbox.stream, ss[0].consumer, ConsumerSteps(steps), ss[|steps|].consumer, i);
  }

  /** In the whole system a terminated message has a receipt exactly as TerminatedHasReceiptIff says. */
  lemma BothIff(c: Setup, ss: seq<SystemState>, steps: seq<SystemStep>, p: nat)
    requires ValidPolicy(c.policy) && SystemRun(c, ss, steps) && SystemInit(ss[0])
    requires forall i :: 0 <= i < |steps| && steps[i].ConsumerStep? ==> Calm(ss[i].consumer, steps[i].cstep)
    requires ValidAt(ss[|steps|].outbox.stream, p) && DeliveryOf(ss[|steps|].consumer, p).standing.Terminated?
    ensures var stream, s0, trail := ss[|steps|].outbox.stream, ss[0].consumer, ConsumerSteps(steps);
      HasReceipt(stream, ss[|steps|].consumer.receipts, p) <==>
        || Ever(stream, s0, trail, RecordingSilently(p))
        || Ever(stream, s0, trail, RecordingCopy(stream, p, KeyOf(Opened(stream[p].message).value)))
  {
    Projects(c, ss, steps, Calm);
    TerminatedHasReceiptIff(ss[|steps|].outbox.stream, ss[0].consumer, ConsumerSteps(steps), p);
  }

  /** In the whole system the messages that stay open after five deliveries are those of StrandedIff. */
  lemma OpenIff(c: Setup, ss: seq<SystemState>, steps: seq<SystemStep>, p: nat)
    requires ValidPolicy(c.policy) && SystemRun(c, ss, steps) && SystemInit(ss[0])
    requires forall i :: 0 <= i < |steps| && steps[i].ConsumerStep? ==> Exclusive(ss[i].consumer, steps[i].cstep)
    ensures var s := ss[|steps|].consumer;
      Stranded(HolderOf(s, p), DeliveryOf(s, p)) <==>
      Ever(ss[|steps|].outbox.stream, ss[0].consumer, ConsumerSteps(steps), LeavingOpen(p))
  {
    Projects(c, ss, steps, Exclusive);
    StrandedIff(ss[|steps|].outbox.stream, ss[0].consumer, ConsumerSteps(steps), p);
  }
}
