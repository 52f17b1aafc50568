/**
 How messages end, over every interleaving of any number of handlers. While the broker's calls succeed and no delivery
 overlaps another of the same message, a message is settled within five deliveries: acknowledged with a receipt, or
 terminated with exactly one dead letter. Two more results say exactly when a terminated message has a receipt all the
 same, and which messages stay open after their last delivery.
 */
module ConsumerSettlement {

  import opened Wrappers
  import opened OutboxMachine
  import opened ConsumerMachine
  import opened RetryPolicy
  import T = OutboxTable

  // ---------- One message ----------

  /** The handler is busy with the message at `p`. */
  predicate At(w: Handler, p: nat) {
    !w.Waiting? && w.position == p
  }

  /** At most one handler is busy with the message. */
  ghost predicate Alone(s: CState, p: nat) {
    forall h, k :: At(HandlerOf(s, h), p) && At(HandlerOf(s, k), p) ==> h == k
  }

  /** The state of a handler that is busy with the message, or Waiting if there is none. */
  ghost function HolderOf(s: CState, p: nat): Handler {
    if exists h :: At(HandlerOf(s, h), p) then
      var h :| At(HandlerOf(s, h), p);
      HandlerOf(s, h)
    else Waiting
  }

  lemma HolderIs(s: CState, p: nat, h: nat)
    requires Alone(s, p) && At(HandlerOf(s, h), p)
    ensures HolderOf(s, p) == HandlerOf(s, h)
  {
  }

  /** The step delivers this message, or is a handler's step in handling it. */
  predicate Concerns(s: CState, step: CStep, p: nat) {
    if step.Deliver? then step.position == p else At(HandlerOf(s, step.handler), p)
  }

  /** The dead letters about this message, oldest first. */
  function LettersOf(dead: seq<DeadLetter>, p: nat): seq<DeadLetter> {
    if dead == [] then []
    else
      var last := dead[|dead| - 1];
      LettersOf(dead[..|dead| - 1], p) + (if last.position == p then [last] else [])
  }

  lemma LettersAppend(dead: seq<DeadLetter>, letter: DeadLetter, p: nat)
    ensures LettersOf(dead + [letter], p) == LettersOf(dead, p) + (if letter.position == p then [letter] else [])
  {
    assert (dead + [letter])[..|dead|] == dead;
  }

  lemma HandlersElsewhere(stream: seq<Entry>, s: CState, step: CStep, p: nat, h: nat)
    requires CEnabled(stream, s, step) && !Concerns(s, step, p)
    ensures var t := CApply(stream, s, step);
      At(HandlerOf(s, h), p) || At(HandlerOf(t, h), p) ==> HandlerOf(t, h) == HandlerOf(s, h)
  {
  }

  lemma BrokerElsewhere(stream: seq<Entry>, s: CState, step: CStep, p: nat)
    requires CEnabled(stream, s, step) && !Concerns(s, step, p)
    ensures var t := CApply(stream, s, step);
      DeliveryOf(t, p) == DeliveryOf(s, p) && LettersOf(t.dead, p) == LettersOf(s.dead, p)
  {
    if step.PublishDeadLetter? && step.appended {
      LettersAppend(s.dead, CApply(stream, s, step).dead[|s.dead|], p);
    }
  }

  lemma SameHolder(s: CState, t: CState, p: nat)
    requires Alone(s, p)
    requires forall h :: At(HandlerOf(s, h), p) || At(HandlerOf(t, h), p) ==> HandlerOf(t, h) == HandlerOf(s, h)
    ensures Alone(t, p) && HolderOf(t, p) == HolderOf(s, p)
  {
    if h :| At(HandlerOf(s, h), p) {
      HolderIs(s, p, h);
      HolderIs(t, p, h);
    }
  }

  /** A step that does not concern a message leaves everything about it alone. */
  lemma Elsewhere(stream: seq<Entry>, s: CState, step: CStep, p: nat)
    requires CEnabled(stream, s, step) && !Concerns(s, step, p) && Alone(s, p)
    ensures var t := CApply(stream, s, step);
      && Alone(t, p) && HolderOf(t, p) == HolderOf(s, p)
      && DeliveryOf(t, p) == DeliveryOf(s, p) && LettersOf(t.dead, p) == LettersOf(s.dead, p)
  {
    var t := CApply(stream, s, step);
    forall h
      ensures At(HandlerOf(s, h), p) || At(HandlerOf(t, h), p) ==> HandlerOf(t, h) == HandlerOf(s, h)
    {
      HandlersElsewhere(stream, s, step, p, h);
    }
    SameHolder(s, t, p);
    BrokerElsewhere(stream, s, step, p);
  }

  /** After a step that concerns a message, the acting handler alone is busy with it, or nobody is. */
  lemma Here(stream: seq<Entry>, s: CState, step: CStep, p: nat)
    requires CEnabled(stream, s, step) && Concerns(s, step, p) && Alone(s, p)
    requires step.Deliver? ==> HolderOf(s, p).Waiting?
    ensures var t := CApply(stream, s, step);
      && Alone(t, p) && HolderOf(t, p) == HandlerOf(t, step.handler)
      && (!step.Deliver? ==> HolderOf(s, p) == HandlerOf(s, step.handler))
  {
    var t, h := CApply(stream, s, step), step.handler;
    if !step.Deliver? {
      HolderIs(s, p, h);
    }
    assert forall k :: k != h ==> HandlerOf(t, k) == HandlerOf(s, k) && !At(HandlerOf(s, k), p);
    if !HandlerOf(t, h).Waiting? {
      HolderIs(t, p, h);
    }
  }

  // ---------- Trails ----------

  /** The state before step `i` of a trail. */
  function StateAt(stream: seq<Entry>, s0: CState, trail: seq<CStep>, i: nat): CState
    requires i <= |trail|
  {
    var before := Replay(stream, s0, trail[..i]);
    if before.Some? then before.value else s0
  }

  lemma {:induction false} ReplayPrefix(stream: seq<Entry>, s0: CState, trail: seq<CStep>, n: nat)
    requires n <= |trail| && Replay(stream, s0, trail).Some?
    ensures Replay(stream, s0, trail[..n]).Some?
  {
    if n < |trail| {
      ReplayPrefix(stream, s0, trail[..|trail| - 1], n);
      assert trail[..|trail| - 1][..n] == trail[..n];
    } else {
      assert trail[..n] == trail;
    }
  }

  lemma StatesOfPrefix(stream: seq<Entry>, s0: CState, trail: seq<CStep>, n: nat)
    requires n <= |trail|
    ensures forall i :: 0 <= i < n ==> StateAt(stream, s0, trail[..n], i) == StateAt(stream, s0, trail, i)
  {
    forall i | 0 <= i < n
      ensures StateAt(stream, s0, trail[..n], i) == StateAt(stream, s0, trail, i)
    {
      assert trail[..n][..i] == trail[..i];
    }
  }

  /** The last step of a trail: enabled where it was taken, and leading to the end. */
  lemma LastStep(stream: seq<Entry>, s0: CState, trail: seq<CStep>)
    requires trail != [] && Replay(stream, s0, trail).Some?
    ensures var n := |trail| - 1;
      && Replay(stream, s0, trail[..n]) == Some(StateAt(stream, s0, trail, n))
      && CEnabled(stream, StateAt(stream, s0, trail, n), trail[n])
      && Replay(stream, s0, trail) == Some(CApply(stream, StateAt(stream, s0, trail, n), trail[n]))
  {
  }

  /** Some step of the trail had this property, in the state in which it was taken. */
  ghost predicate Ever(stream: seq<Entry>, s0: CState, trail: seq<CStep>, f: (CState, CStep) -> bool) {
    exists i :: 0 <= i < |trail| && f(StateAt(stream, s0, trail, i), trail[i])
  }

  lemma EverOn(stream: seq<Entry>, s0: CState, trail: seq<CStep>, f: (CState, CStep) -> bool)
    requires trail != []
    ensures var n := |trail| - 1;
      Ever(stream, s0, trail, f) <==> Ever(stream, s0, trail[..n], f) || f(StateAt(stream, s0, trail, n), trail[n])
  {
    var n := |trail| - 1;
    StatesOfPrefix(stream, s0, trail, n);
    if i :| 0 <= i < n && f(StateAt(stream, s0, trail[..n], i), trail[..n][i]) {
      assert f(StateAt(stream, s0, trail, i), trail[i]);
    }
    if i :| 0 <= i < |trail| && f(StateAt(stream, s0, trail, i), trail[i]) {
      assert i < n ==> f(StateAt(stream, s0, trail[..n], i), trail[..n][i]);
    }
  }

  /** Every step of the trail had this property, in the state in which it was taken. */
  ghost predicate Always(stream: seq<Entry>, s0: CState, trail: seq<CStep>, f: (CState, CStep) -> bool) {
    forall i :: 0 <= i < |trail| ==> f(StateAt(stream, s0, trail, i), trail[i])
  }

  /** One more step with the property. */
  lemma AlwaysOn(stream: seq<Entry>, s0: CState, trail: seq<CStep>, s: CState, step: CStep, f: (CState, CStep) -> bool)
    requires Replay(stream, s0, trail) == Some(s) && Always(stream, s0, trail, f)
    requires CEnabled(stream, s, step) && f(s, step)
    ensures Replay(stream, s0, trail + [step]) == Some(CApply(stream, s, step))
    ensures Always(stream, s0, trail + [step], f)
  {
    var more, n := trail + [step], |trail|;
    ReplayOn(stream, s0, trail, s, step);
    assert more[..n] == trail;
    StatesOfPrefix(stream, s0, more, n);
    forall i | 0 <= i < |more|
      ensures f(StateAt(stream, s0, more, i), more[i])
    {
      assert i < n ==> f(StateAt(stream, s0, trail, i), trail[i]);
    }
  }

  /** No message is delivered while a handler is still busy with it: no acknowledgement wait runs out. */
  ghost predicate Exclusive(s: CState, step: CStep) {
    step.Deliver? ==> HolderOf(s, step.position).Waiting?
  }

  /** Delivery metadata can be read, every call to the broker succeeds, and nothing crashes. */
  ghost predicate Calm(s: CState, step: CStep) {
    && Exclusive(s, step)
    && match step
       case Deliver(_, _, metadata) => metadata
       case Ack(_, applied) => applied
       case PublishDeadLetter(_, appended, acked) => appended && acked
       case Term(_, applied) => applied
       case Crash(_) => false
       case _ => true
  }

  ghost predicate ExclusiveTrail(stream: seq<Entry>, s0: CState, trail: seq<CStep>) {
    Always(stream, s0, trail, Exclusive)
  }

  ghost predicate CalmTrail(stream: seq<Entry>, s0: CState, trail: seq<CStep>) {
    Always(stream, s0, trail, Calm)
  }

  // ---------- The invariant of a calm trail ----------

  predicate ValidAt(stream: seq<Entry>, p: nat) {
    p < |stream| && Opened(stream[p].message).Some?
  }

  /** The delivery on which a message that never commits is given up. */
  function LastDelivery(valid: bool): nat {
    if valid then MAX_DELIVERIES else 1
  }

  /** The one dead letter of a message that was given up. */
  function FinalLetter(stream: seq<Entry>, p: nat): DeadLetter
    requires p < |stream|
  {
    var valid := ValidAt(stream, p);
    LetterFor(stream[p].message, p, LastDelivery(valid), ReasonFor(valid))
  }

  /** Where a message can stand: with its holder, the broker's view of it, and its dead letters. */
  predicate StandsOk(stream: seq<Entry>, p: nat, w: Handler, d: Delivery, letters: seq<DeadLetter>) {
    var valid := ValidAt(stream, p);
    && d.count <= LastDelivery(valid)
    && (w.Waiting? || (p < |stream| && d.standing.Outstanding? && d.count >= 1))
    && match w
       case Waiting =>
         (match d.standing
          case Outstanding => letters == [] && d.count < LastDelivery(valid)
          case Acknowledged => letters == [] && valid && d.count >= 1
          case Terminated => p < |stream| && letters == [FinalLetter(stream, p)] && d.count == LastDelivery(valid))
       case Received(_, n) => letters == [] && n == d.count
       case Committed(_, n) => letters == [] && n == d.count && valid
       case Aborted(_, n) => letters == [] && n == d.count && valid
       case DeadLettering(_, n, reason) =>
         letters == [] && n == d.count == LastDelivery(valid) && reason == ReasonFor(valid)
       case DeadLettered(_) => letters == [FinalLetter(stream, p)] && d.count == LastDelivery(valid)
  }

  ghost predicate CalmInv(stream: seq<Entry>, s: CState, p: nat) {
    Alone(s, p) && StandsOk(stream, p, HolderOf(s, p), DeliveryOf(s, p), LettersOf(s.dead, p))
  }

  /** A delivery of the message. */
  lemma CalmDelivery(stream: seq<Entry>, s: CState, step: CStep, p: nat)
    requires CEnabled(stream, s, step) && Calm(s, step) && CalmInv(stream, s, p) && Concerns(s, step, p)
    requires step.Deliver?
    ensures CalmInv(stream, CApply(stream, s, step), p)
  {
    Here(stream, s, step, p);
  }

  /** A step by which the handler of the message decides how to go on. */
  lemma CalmDecision(stream: seq<Entry>, s: CState, step: CStep, p: nat)
    requires CEnabled(stream, s, step) && Calm(s, step) && CalmInv(stream, s, p) && Concerns(s, step, p)
    requires step.Reject? || step.Transact? || step.GiveUp?
    ensures CalmInv(stream, CApply(stream, s, step), p)
  {
    Here(stream, s, step, p);
    assert DeliveryOf(CApply(stream, s, step), p) == DeliveryOf(s, p);
  }

  /** The broker call that ends a delivery of the message. */
  lemma CalmEnd(stream: seq<Entry>, s: CState, step: CStep, p: nat)
    requires CEnabled(stream, s, step) && Calm(s, step) && CalmInv(stream, s, p) && Concerns(s, step, p)
    requires step.Ack? || step.Nak? || step.Term?
    ensures CalmInv(stream, CApply(stream, s, step), p)
  {
    Here(stream, s, step, p);
  }

  /** A message whose dead letter has just been published stands as it should. */
  lemma BuriedStands(stream: seq<Entry>, p: nat, w: Handler, d: Delivery, letters: seq<DeadLetter>)
    requires w.DeadLettering? && StandsOk(stream, p, w, d, letters)
    ensures p < |stream|
    ensures var letter := LetterFor(stream[p].message, p, w.count, w.reason);
      StandsOk(stream, p, DeadLettered(p), d, letters + [letter])
  {
  }

  /** Publishing a dead letter adds that letter and touches nothing else about the message. */
  lemma BurialStep(stream: seq<Entry>, s: CState, step: CStep, p: nat)
    requires CEnabled(stream, s, step) && At(HandlerOf(s, step.handler), p) && p < |stream|
    requires step.PublishDeadLetter? && step.appended && step.acked
    ensures var t, w := CApply(stream, s, step), HandlerOf(s, step.handler);
      && DeliveryOf(t, p) == DeliveryOf(s, p) && HandlerOf(t, step.handler) == DeadLettered(p)
      && LettersOf(t.dead, p) == LettersOf(s.dead, p) + [LetterFor(stream[p].message, p, w.count, w.reason)]
  {
    var w := HandlerOf(s, step.handler);
    LettersAppend(s.dead, LetterFor(stream[p].message, p, w.count, w.reason), p);
  }

  lemma CalmBurial(stream: seq<Entry>, s: CState, step: CStep, p: nat)
    requires CEnabled(stream, s, step) && Calm(s, step) && CalmInv(stream, s, p) && Concerns(s, step, p)
    requires step.PublishDeadLetter?
    ensures CalmInv(stream, CApply(stream, s, step), p)
  {
    Here(stream, s, step, p);
    BuriedStands(stream, p, HolderOf(s, p), DeliveryOf(s, p), LettersOf(s.dead, p));
    BurialStep(stream, s, step, p);
  }

  lemma CalmStep(stream: seq<Entry>, s: CState, step: CStep, p: nat)
    requires CEnabled(stream, s, step) && Calm(s, step) && CalmInv(stream, s, p)
    ensures CalmInv(stream, CApply(stream, s, step), p)
  {
    if !Concerns(s, step, p) {
      Elsewhere(stream, s, step, p);
    } else {
      match step
      case Deliver(_, _, _) => CalmDelivery(stream, s, step, p);
      case Reject(_) => CalmDecision(stream, s, step, p);
      case Transact(_, _, _) => CalmDecision(stream, s, step, p);
      case GiveUp(_) => CalmDecision(stream, s, step, p);
      case PublishDeadLetter(_, _, _) => CalmBurial(stream, s, step, p);
      case Ack(_, _) => CalmEnd(stream, s, step, p);
      case Nak(_) => CalmEnd(stream, s, step, p);
      case Term(_, _) => CalmEnd(stream, s, step, p);
      case Crash(_) =>
    }
  }

  lemma CalmInit(stream: seq<Entry>, s0: CState, p: nat)
    requires CInit(s0)
    ensures CalmInv(stream, s0, p)
  {
  }

  lemma {:induction false} CalmTrailInv(stream: seq<Entry>, s0: CState, trail: seq<CStep>, p: nat)
    requires CInit(s0) && Replay(stream, s0, trail).Some? && CalmTrail(stream, s0, trail)
    ensures CalmInv(stream, Replay(stream, s0, trail).value, p)
  {
    if trail == [] {
      CalmInit(stream, s0, p);
    } else {
      var n := |trail| - 1;
      LastStep(stream, s0, trail);
      StatesOfPrefix(stream, s0, trail, n);
      CalmTrailInv(stream, s0, trail[..n], p);
      CalmStep(stream, StateAt(stream, s0, trail, n), trail[n], p);
    }
  }

  // ---------- Delays ----------

  /** The first `n` delays between deliveries. */
  function Delays(n: nat): seq<int> {
    if n == 0 then [] else Delays(n - 1) + [Capped(SECOND as int, MINUTE as int, n)]
  }

  /** A message whose transaction always fails is retried after exactly one, two, four and eight seconds. */
  lemma FirstDelays()
    ensures Delays(4) == [1_000_000_000, 2_000_000_000, 4_000_000_000, 8_000_000_000]
  {
    FirstDoublings(SECOND as int);
    assert Delays(2) == [SECOND as int, 2 * SECOND as int];
  }

  /** The delay that a step asks for before the next delivery of this message, if it does. */
  function Asked(s: CState, step: CStep, p: nat): seq<int> {
    var w := HandlerOf(s, step.handler);
    if step.Nak? && w.Aborted? && w.position == p then [Capped(SECOND as int, MINUTE as int, w.count)] else []
  }

  /** All the delays that a trail asked for before deliveries of this message. */
  function DelaysAsked(stream: seq<Entry>, s0: CState, trail: seq<CStep>, p: nat): seq<int> {
    if trail == [] then []
    else
      var n := |trail| - 1;
      DelaysAsked(stream, s0, trail[..n], p) + Asked(StateAt(stream, s0, trail, n), trail[n], p)
  }

  /** How often the message has been put back. */
  function Retries(w: Handler, d: Delivery): nat {
    if (w.Waiting? && d.standing.Outstanding?) || d.count == 0 then d.count else d.count - 1
  }

  lemma RetriesStep(stream: seq<Entry>, s: CState, step: CStep, p: nat)
    requires CEnabled(stream, s, step) && Calm(s, step) && CalmInv(stream, s, p)
    ensures var t := CApply(stream, s, step);
      Delays(Retries(HolderOf(t, p), DeliveryOf(t, p))) ==
      Delays(Retries(HolderOf(s, p), DeliveryOf(s, p))) + Asked(s, step, p)
  {
    if Concerns(s, step, p) {
      Here(stream, s, step, p);
    } else {
      Elsewhere(stream, s, step, p);
    }
  }

  lemma {:induction false} DelaysFollowSchedule(stream: seq<Entry>, s0: CState, trail: seq<CStep>, p: nat)
    requires CInit(s0) && Replay(stream, s0, trail).Some? && CalmTrail(stream, s0, trail)
    ensures var s := Replay(stream, s0, trail).value;
      DelaysAsked(stream, s0, trail, p) == Delays(Retries(HolderOf(s, p), DeliveryOf(s, p)))
  {
    if trail != [] {
      var n := |trail| - 1;
      LastStep(stream, s0, trail);
      StatesOfPrefix(stream, s0, trail, n);
      CalmTrailInv(stream, s0, trail[..n], p);
      DelaysFollowSchedule(stream, s0, trail[..n], p);
      RetriesStep(stream, StateAt(stream, s0, trail, n), trail[n], p);
    }
  }

  // ---------- Reported transactions ----------

  /** The step is a transaction for this message that is reported as committed. */
  predicate Reports(s: CState, step: CStep, p: nat) {
    step.Transact? && step.reported && At(HandlerOf(s, step.handler), p)
  }

  function Reporting(p: nat): (CState, CStep) -> bool {
    (s: CState, step: CStep) => Reports(s, step, p)
  }

  predicate Succeeded(w: Handler, d: Delivery) {
    w.Committed? || d.standing.Acknowledged?
  }

  lemma SucceededStep(stream: seq<Entry>, s: CState, step: CStep, p: nat)
    requires CEnabled(stream, s, step) && Calm(s, step) && CalmInv(stream, s, p)
    ensures var t := CApply(stream, s, step);
      Succeeded(HolderOf(t, p), DeliveryOf(t, p)) <==>
      Succeeded(HolderOf(s, p), DeliveryOf(s, p)) || Reports(s, step, p)
  {
    if Concerns(s, step, p) {
      Here(stream, s, step, p);
    } else {
      Elsewhere(stream, s, step, p);
    }
  }

  lemma {:induction false} SucceededIffReported(stream: seq<Entry>, s0: CState, trail: seq<CStep>, p: nat)
    requires CInit(s0) && Replay(stream, s0, trail).Some? && CalmTrail(stream, s0, trail)
    ensures var s := Replay(stream, s0, trail).value;
      Succeeded(HolderOf(s, p), DeliveryOf(s, p)) <==> Ever(stream, s0, trail, Reporting(p))
  {
    if trail != [] {
      var n := |trail| - 1;
      LastStep(stream, s0, trail);
      StatesOfPrefix(stream, s0, trail, n);
      CalmTrailInv(stream, s0, trail[..n], p);
      SucceededIffReported(stream, s0, trail[..n], p);
      SucceededStep(stream, StateAt(stream, s0, trail, n), trail[n], p);
      EverOn(stream, s0, trail, Reporting(p));
    }
  }

  // ---------- Settlement ----------

  /** How a message stands after a calm trail. */
  ghost predicate Settlement(stream: seq<Entry>, s0: CState, trail: seq<CStep>, s: CState, p: nat) {
    var d, letters, delays := DeliveryOf(s, p), LettersOf(s.dead, p), DelaysAsked(stream, s0, trail, p);
    && Alone(s, p)
    && d.count <= LastDelivery(ValidAt(stream, p)) <= MAX_DELIVERIES
    && match d.standing
       case Outstanding =>
         && |letters| <= 1
         && (HolderOf(s, p).Waiting? ==>
               d.count < LastDelivery(ValidAt(stream, p)) && letters == [] && delays == Delays(d.count))
       case Acknowledged =>
         && HasReceipt(stream, s.receipts, p) && letters == []
         && d.count >= 1 && delays == Delays(d.count - 1) && Ever(stream, s0, trail, Reporting(p))
       case Terminated =>
         && p < |stream| && letters == [FinalLetter(stream, p)]
         && d.count == LastDelivery(ValidAt(stream, p)) && delays == Delays(d.count - 1)
         && !Ever(stream, s0, trail, Reporting(p))
  }

  /**
   Consumer settlement, over every interleaving in which the broker's calls succeed: a message is handled by one handler
   at a time and at most five times. When nobody is handling it, it is acknowledged, with a receipt and without a dead
   letter, because one of its transactions was reported; or it is terminated at its last delivery, with exactly one dead
   letter, because none was; or it has deliveries left. An invalid message has one delivery. The delays asked for before
   the deliveries are the first of the schedule.
   */
  lemma SettlementHolds(stream: seq<Entry>, s0: CState, trail: seq<CStep>, p: nat)
    requires CInit(s0) && Replay(stream, s0, trail).Some? && CalmTrail(stream, s0, trail)
    ensures Settlement(stream, s0, trail, Replay(stream, s0, trail).value, p)
  {
    CalmTrailInv(stream, s0, trail, p);
    DelaysFollowSchedule(stream, s0, trail, p);
    SucceededIffReported(stream, s0, trail, p);
    ReplayInv(stream, s0, trail);
    var s := Replay(stream, s0, trail).value;
    if p in s.deliveries {
      assert DeliveryOk(stream, s, p, s.deliveries[p]);
    }
  }

  // ---------- Progress ----------

  /** The most steps that a message can still take before it is settled. */
  function StepsToGo(valid: bool, w: Handler, d: Delivery): int {
    match w
    case Waiting => if !d.standing.Outstanding? then 0 else if valid then 17 - 3 * d.count else 4
    case Received(_, n) => if valid then 19 - 3 * d.count else 3
    case Aborted(_, n) => 18 - 3 * d.count
    case DeadLettering(_, _, _) => 2
    case Committed(_, _) => 1
    case DeadLettered(_) => 1
  }

  ghost function StepsLeft(stream: seq<Entry>, s: CState, p: nat): int {
    StepsToGo(ValidAt(stream, p), HolderOf(s, p), DeliveryOf(s, p))
  }

  /** Every step about a message brings it closer to its end; steps about others do not matter. */
  lemma StepsLeftStep(stream: seq<Entry>, s: CState, step: CStep, p: nat)
    requires CEnabled(stream, s, step) && Calm(s, step) && CalmInv(stream, s, p)
    ensures StepsLeft(stream, CApply(stream, s, step), p) + (if Concerns(s, step, p) then 1 else 0)
         <= StepsLeft(stream, s, p)
  {
    if Concerns(s, step, p) {
      Here(stream, s, step, p);
    } else {
      Elsewhere(stream, s, step, p);
    }
  }

  /** The steps of a trail that concern this message. */
  function StepsAbout(stream: seq<Entry>, s0: CState, trail: seq<CStep>, p: nat): nat {
    if trail == [] then 0
    else
      var n := |trail| - 1;
      StepsAbout(stream, s0, trail[..n], p) + (if Concerns(StateAt(stream, s0, trail, n), trail[n], p) then 1 else 0)
  }

  /** In a calm trail at most 17 steps concern a message, and they bound what is left. */
  lemma {:induction false} StepsBounded(stream: seq<Entry>, s0: CState, trail: seq<CStep>, p: nat)
    requires CInit(s0) && Replay(stream, s0, trail).Some? && CalmTrail(stream, s0, trail)
    ensures var left := StepsLeft(stream, Replay(stream, s0, trail).value, p);
      0 <= left && StepsAbout(stream, s0, trail, p) + left <= (if ValidAt(stream, p) then 17 else 4)
  {
    CalmTrailInv(stream, s0, trail, p);
    if trail != [] {
      var n := |trail| - 1;
      LastStep(stream, s0, trail);
      StatesOfPrefix(stream, s0, trail, n);
      CalmTrailInv(stream, s0, trail[..n], p);
      StepsBounded(stream, s0, trail[..n], p);
      StepsLeftStep(stream, StateAt(stream, s0, trail, n), trail[n], p);
    }
  }

  lemma {:induction false} UpperBound(a: set<nat>) returns (n: nat)
    ensures forall x :: x in a ==> x < n
    decreases a
  {
    n := 0;
    if a != {} {
      var x :| x in a;
      var m := UpperBound(a - {x});
      n := if m > x then m else x + 1;
      assert a == {x} + (a - {x});
    }
  }

  /** What a busy handler does next when all goes well. */
  function NextStep(stream: seq<Entry>, h: nat, w: Handler): CStep {
    match w
    case Received(p, _) => if ValidAt(stream, p) then Transact(h, true, true) else Reject(h)
    case Committed(_, _) => Ack(h, true)
    case Aborted(_, n) => if n < MAX_DELIVERIES then Nak(h) else GiveUp(h)
    case DeadLettering(_, _, _) => PublishDeadLetter(h, true, true)
    case DeadLettered(_) => Term(h, true)
    case Waiting => Crash(h)
  }

  /**
   Nothing blocks settlement: after any calm trail a message of the consumer's subject is settled if and only if no calm
   step about it is possible any more.
   */
  lemma SettledIffDone(stream: seq<Entry>, s0: CState, trail: seq<CStep>, p: nat)
    requires CInit(s0) && Replay(stream, s0, trail).Some? && CalmTrail(stream, s0, trail) && Selected(stream, p)
    ensures var s := Replay(stream, s0, trail).value;
      !DeliveryOf(s, p).standing.Outstanding? <==>
      !exists step :: CEnabled(stream, s, step) && Calm(s, step) && Concerns(s, step, p)
  {
    CalmTrailInv(stream, s0, trail, p);
    var s := Replay(stream, s0, trail).value;
    if DeliveryOf(s, p).standing.Outstanding? {
      var step;
      if h :| At(HandlerOf(s, h), p) {
        HolderIs(s, p, h);
        step := NextStep(stream, h, HandlerOf(s, h));
      } else {
        var h := UpperBound(s.handlers.Keys);
        step := Deliver(h, p, true);
      }
      assert CEnabled(stream, s, step) && Calm(s, step) && Concerns(s, step, p);
    }
  }

  // ---------- Terminated with a receipt ----------

  /** The step's transaction takes effect for a message with this key. */
  predicate Records(stream: seq<Entry>, s: CState, step: CStep, key: Key) {
    var w := HandlerOf(s, step.handler);
    && step.Transact? && step.applied && w.Received?
    && ValidAt(stream, w.position) && KeyOf(Opened(stream[w.position].message).value) == key
  }

  function Recording(stream: seq<Entry>, key: Key): (CState, CStep) -> bool {
    (s: CState, step: CStep) => Records(stream, s, step, key)
  }

  lemma RecordsStep(stream: seq<Entry>, s: CState, step: CStep, key: Key)
    requires CEnabled(stream, s, step)
    ensures key in CApply(stream, s, step).receipts <==> key in s.receipts || Records(stream, s, step, key)
  {
  }

  /** Over any trail there is a receipt for a key exactly if some transaction for that key took effect. */
  lemma {:induction false} ReceiptIffRecorded(stream: seq<Entry>, s0: CState, trail: seq<CStep>, key: Key)
    requires CInit(s0) && Replay(stream, s0, trail).Some?
    ensures key in Replay(stream, s0, trail).value.receipts <==> Ever(stream, s0, trail, Recording(stream, key))
  {
    if trail != [] {
      var n := |trail| - 1;
      LastStep(stream, s0, trail);
      StatesOfPrefix(stream, s0, trail, n);
      ReceiptIffRecorded(stream, s0, trail[..n], key);
      RecordsStep(stream, StateAt(stream, s0, trail, n), trail[n], key);
      EverOn(stream, s0, trail, Recording(stream, key));
    }
  }

  /** The step's transaction for this message takes effect without being reported. */
  predicate RecordsSilently(s: CState, step: CStep, p: nat) {
    step.Transact? && step.applied && !step.reported && At(HandlerOf(s, step.handler), p)
  }

  function RecordingSilently(p: nat): (CState, CStep) -> bool {
    (s: CState, step: CStep) => RecordsSilently(s, step, p)
  }

  /** The step's transaction takes effect for another message with this key. */
  predicate RecordsCopy(stream: seq<Entry>, s: CState, step: CStep, p: nat, key: Key) {
    Records(stream, s, step, key) && !At(HandlerOf(s, step.handler), p)
  }

  function RecordingCopy(stream: seq<Entry>, p: nat, key: Key): (CState, CStep) -> bool {
    (s: CState, step: CStep) => RecordsCopy(stream, s, step, p, key)
  }

  lemma EnabledAt(stream: seq<Entry>, s0: CState, trail: seq<CStep>, i: nat)
    requires Replay(stream, s0, trail).Some? && i < |trail|
    ensures CEnabled(stream, StateAt(stream, s0, trail, i), trail[i])
  {
    ReplayPrefix(stream, s0, trail, i + 1);
    assert trail[..i + 1][..i] == trail[..i];
  }

  /** If no transaction of the message was reported, whatever recorded its key did so silently or for a copy. */
  lemma RecordedWithoutReport(stream: seq<Entry>, s0: CState, trail: seq<CStep>, p: nat, key: Key)
    requires Ever(stream, s0, trail, Recording(stream, key)) && !Ever(stream, s0, trail, Reporting(p))
    ensures Ever(stream, s0, trail, RecordingSilently(p)) || Ever(stream, s0, trail, RecordingCopy(stream, p, key))
  {
    var i :| 0 <= i < |trail| && Recording(stream, key)(StateAt(stream, s0, trail, i), trail[i]);
    var before := StateAt(stream, s0, trail, i);
    assert !Reporting(p)(before, trail[i]);
    assert RecordingSilently(p)(before, trail[i]) || RecordingCopy(stream, p, key)(before, trail[i]);
  }

  lemma SilentlyRecorded(stream: seq<Entry>, s0: CState, trail: seq<CStep>, p: nat)
    requires Replay(stream, s0, trail).Some? && ValidAt(stream, p) && Ever(stream, s0, trail, RecordingSilently(p))
    ensures Ever(stream, s0, trail, Recording(stream, KeyOf(Opened(stream[p].message).value)))
  {
    var i :| 0 <= i < |trail| && RecordingSilently(p)(StateAt(stream, s0, trail, i), trail[i]);
    EnabledAt(stream, s0, trail, i);
    assert Recording(stream, KeyOf(Opened(stream[p].message).value))(StateAt(stream, s0, trail, i), trail[i]);
  }

  lemma CopyRecorded(stream: seq<Entry>, s0: CState, trail: seq<CStep>, p: nat, key: Key)
    requires Ever(stream, s0, trail, RecordingCopy(stream, p, key))
    ensures Ever(stream, s0, trail, Recording(stream, key))
  {
    var i :| 0 <= i < |trail| && RecordingCopy(stream, p, key)(StateAt(stream, s0, trail, i), trail[i]);
    assert Recording(stream, key)(StateAt(stream, s0, trail, i), trail[i]);
  }

  /**
   When "acknowledged with a receipt or terminated with a dead letter, never both" fails: a message that a calm trail
   terminated has a receipt if and only if one of its own transactions took effect without being reported, or a
   transaction for another copy of the same event took effect.
   */
  lemma TerminatedHasReceiptIff(stream: seq<Entry>, s0: CState, trail: seq<CStep>, p: nat)
    requires CInit(s0) && Replay(stream, s0, trail).Some? && CalmTrail(stream, s0, trail) && ValidAt(stream, p)
    requires DeliveryOf(Replay(stream, s0, trail).value, p).standing.Terminated?
    ensures HasReceipt(stream, Replay(stream, s0, trail).value.receipts, p) <==>
      || Ever(stream, s0, trail, RecordingSilently(p))
      || Ever(stream, s0, trail, RecordingCopy(stream, p, KeyOf(Opened(stream[p].message).value)))
  {
    var key := KeyOf(Opened(stream[p].message).value);
    SettlementHolds(stream, s0, trail, p);
    ReceiptIffRecorded(stream, s0, trail, key);
    if Ever(stream, s0, trail, Recording(stream, key)) {
      RecordedWithoutReport(stream, s0, trail, p, key);
    }
    if Ever(stream, s0, trail, RecordingSilently(p)) {
      SilentlyRecorded(stream, s0, trail, p);
    }
    if Ever(stream, s0, trail, RecordingCopy(stream, p, key)) {
      CopyRecorded(stream, s0, trail, p, key);
    }
  }

  // ---------- Both do happen ----------

  /** One more calm step. */
  lemma Further(stream: seq<Entry>, s0: CState, trail: seq<CStep>, s: CState, step: CStep)
    requires Replay(stream, s0, trail) == Some(s) && CalmTrail(stream, s0, trail)
    requires CEnabled(stream, s, step) && Calm(s, step)
    ensures Replay(stream, s0, trail + [step]) == Some(CApply(stream, s, step))
    ensures CalmTrail(stream, s0, trail + [step])
  {
    AlwaysOn(stream, s0, trail, s, step, Calm);
  }

  /** Every transaction of the trail took effect exactly if it was reported. */
  predicate AllReported(trail: seq<CStep>) {
    forall i :: 0 <= i < |trail| && trail[i].Transact? ==> trail[i].applied == trail[i].reported
  }

  /** A calm trail that ends with one handler idle and a valid message free, after `n` deliveries. */
  ghost predicate Poised(stream: seq<Entry>, s0: CState, trail: seq<CStep>, s: CState, h: nat, p: nat, n: nat) {
    && Replay(stream, s0, trail) == Some(s) && CalmTrail(stream, s0, trail)
    && Selected(stream, p) && ValidAt(stream, p) && s.handlers.Keys <= {h} && HandlerOf(s, h).Waiting?
    && DeliveryOf(s, p) == Delivery(n, Outstanding)
  }

  lemma Idle(s: CState, h: nat, p: nat)
    requires s.handlers.Keys <= {h} && HandlerOf(s, h).Waiting?
    ensures HolderOf(s, p).Waiting?
  {
    assert forall k :: HandlerOf(s, k).Waiting?;
  }

  /** One more delivery of the message. */
  lemma DeliveredAgain(stream: seq<Entry>, s0: CState, trail: seq<CStep>, s: CState, h: nat, p: nat, n: nat)
    returns (trail': seq<CStep>, t: CState)
    requires Poised(stream, s0, trail, s, h, p, n) && n < MAX_DELIVERIES
    ensures Replay(stream, s0, trail') == Some(t) && CalmTrail(stream, s0, trail') && t.handlers.Keys == {h}
    ensures HandlerOf(t, h) == Received(p, n + 1) && DeliveryOf(t, p) == Delivery(n + 1, Outstanding)
    ensures t.receipts == s.receipts && (AllReported(trail) ==> AllReported(trail'))
    ensures t.deliveries.Keys == s.deliveries.Keys + {p}
  {
    Idle(s, h, p);
    var deliver := Deliver(h, p, true);
    Further(stream, s0, trail, s, deliver);
    trail', t := trail + [deliver], CApply(stream, s, deliver);
  }

  /** A delivery whose transaction is not reported, taken as far as the abort. */
  lemma DeliveredInVain(stream: seq<Entry>, s0: CState, trail: seq<CStep>, s: CState, h: nat, p: nat, n: nat,
                        applied: bool)
    returns (trail': seq<CStep>, t: CState)
    requires Poised(stream, s0, trail, s, h, p, n) && n < MAX_DELIVERIES
    ensures Replay(stream, s0, trail') == Some(t) && CalmTrail(stream, s0, trail') && t.handlers.Keys == {h}
    ensures HandlerOf(t, h) == Aborted(p, n + 1) && DeliveryOf(t, p) == Delivery(n + 1, Outstanding)
    ensures t.receipts.Keys >= s.receipts.Keys
    ensures applied ==> HasReceipt(stream, t.receipts, p)
    ensures AllReported(trail) && !applied ==> AllReported(trail')
  {
    var trail1, s1 := DeliveredAgain(stream, s0, trail, s, h, p, n);
    var transact := Transact(h, applied, false);
    Further(stream, s0, trail1, s1, transact);
    trail', t := trail1 + [transact], CApply(stream, s1, transact);
  }

  lemma PutBack(stream: seq<Entry>, s0: CState, trail: seq<CStep>, s: CState, h: nat, p: nat, n: nat, applied: bool)
    returns (trail': seq<CStep>, t: CState)
    requires Poised(stream, s0, trail, s, h, p, n) && n < MAX_DELIVERIES - 1
    ensures Poised(stream, s0, trail', t, h, p, n + 1) && t.receipts.Keys >= s.receipts.Keys
    ensures applied ==> HasReceipt(stream, t.receipts, p)
    ensures AllReported(trail) && !applied ==> AllReported(trail')
  {
    var trail1, s1 := DeliveredInVain(stream, s0, trail, s, h, p, n, applied);
    Further(stream, s0, trail1, s1, Nak(h));
    trail', t := trail1 + [Nak(h)], CApply(stream, s1, Nak(h));
  }

  lemma GivenUp(stream: seq<Entry>, s0: CState, trail: seq<CStep>, s: CState, h: nat, p: nat)
    returns (trail': seq<CStep>, t: CState)
    requires Poised(stream, s0, trail, s, h, p, MAX_DELIVERIES - 1)
    ensures Replay(stream, s0, trail') == Some(t) && CalmTrail(stream, s0, trail')
    ensures DeliveryOf(t, p).standing.Terminated? && t.receipts.Keys >= s.receipts.Keys
    ensures AllReported(trail) ==> AllReported(trail')
  {
    var trail1, s1 := DeliveredInVain(stream, s0, trail, s, h, p, MAX_DELIVERIES - 1, false);
    var publish, term := PublishDeadLetter(h, true, true), Term(h, true);
    Further(stream, s0, trail1, s1, GiveUp(h));
    var s2 := CApply(stream, s1, GiveUp(h));
    Further(stream, s0, trail1 + [GiveUp(h)], s2, publish);
    var s3 := CApply(stream, s2, publish);
    Further(stream, s0, trail1 + [GiveUp(h)] + [publish], s3, term);
    trail', t := trail1 + [GiveUp(h)] + [publish] + [term], CApply(stream, s3, term);
  }

  /** Fails the message from any delivery on until it is terminated. */
  lemma {:induction false} FailedToTheEnd(stream: seq<Entry>, s0: CState, trail: seq<CStep>, s: CState, h: nat, p: nat,
                                          n: nat)
    returns (trail': seq<CStep>, t: CState)
    requires Poised(stream, s0, trail, s, h, p, n) && n < MAX_DELIVERIES
    ensures Replay(stream, s0, trail') == Some(t) && CalmTrail(stream, s0, trail')
    ensures DeliveryOf(t, p).standing.Terminated? && t.receipts.Keys >= s.receipts.Keys
    ensures AllReported(trail) ==> AllReported(trail')
    decreases MAX_DELIVERIES - n
  {
    if n == MAX_DELIVERIES - 1 {
      trail', t := GivenUp(stream, s0, trail, s, h, p);
    } else {
      var trail1, s1 := PutBack(stream, s0, trail, s, h, p, n, false);
      trail', t := FailedToTheEnd(stream, s0, trail1, s1, h, p, n + 1);
    }
  }

  const UNTOUCHED := CState(map[], [], map[], [], map[])

  /** Every valid message can end terminated with a receipt: its first commit goes unreported and the rest fail. */
  lemma TerminatedAfterUnreported(stream: seq<Entry>, p: nat) returns (trail: seq<CStep>)
    requires Selected(stream, p) && ValidAt(stream, p)
    ensures Replay(stream, UNTOUCHED, trail).Some? && CalmTrail(stream, UNTOUCHED, trail)
    ensures var s := Replay(stream, UNTOUCHED, trail).value;
      DeliveryOf(s, p).standing.Terminated? && HasReceipt(stream, s.receipts, p)
  {
    var trail1, s1 := PutBack(stream, UNTOUCHED, [], UNTOUCHED, 0, p, 0, true);
    var t;
    trail, t := FailedToTheEnd(stream, UNTOUCHED, trail1, s1, 0, p, 1);
  }

  /** A first message consumed without trouble. */
  lemma Consumed(stream: seq<Entry>, q: nat) returns (trail: seq<CStep>, s: CState)
    requires Selected(stream, q) && ValidAt(stream, q)
    ensures Replay(stream, UNTOUCHED, trail) == Some(s) && CalmTrail(stream, UNTOUCHED, trail) && AllReported(trail)
    ensures s.handlers.Keys == {0} && HandlerOf(s, 0).Waiting? && s.deliveries.Keys == {q}
    ensures HasReceipt(stream, s.receipts, q)
  {
    var trail1, s1 := DeliveredAgain(stream, UNTOUCHED, [], UNTOUCHED, 0, q, 0);
    var transact, ack := Transact(0, true, true), Ack(0, true);
    Further(stream, UNTOUCHED, trail1, s1, transact);
    var s2 := CApply(stream, s1, transact);
    Further(stream, UNTOUCHED, trail1 + [transact], s2, ack);
    trail, s := trail1 + [transact] + [ack], CApply(stream, s2, ack);
  }

  /** So can a second copy of an event whose first copy was consumed, even if every outcome is reported. */
  lemma TerminatedAfterCopy(stream: seq<Entry>, q: nat, p: nat) returns (trail: seq<CStep>)
    requires q != p && Selected(stream, q) && ValidAt(stream, q) && Selected(stream, p) && ValidAt(stream, p)
    requires KeyOf(Opened(stream[q].message).value) == KeyOf(Opened(stream[p].message).value)
    ensures Replay(stream, UNTOUCHED, trail).Some? && CalmTrail(stream, UNTOUCHED, trail) && AllReported(trail)
    ensures var s := Replay(stream, UNTOUCHED, trail).value;
      DeliveryOf(s, p).standing.Terminated? && HasReceipt(stream, s.receipts, p)
  {
    var trail1, s1 := Consumed(stream, q);
    var t;
    trail, t := FailedToTheEnd(stream, UNTOUCHED, trail1, s1, 0, p, 0);
  }

  // ---------- Messages left open ----------

  /** The step ends the fifth delivery of the message without settling it. */
  predicate LeavesOpen(s: CState, step: CStep, p: nat) {
    var w := HandlerOf(s, step.handler);
    && At(w, p) && DeliveryOf(s, p).count == MAX_DELIVERIES
    && match step
       case Crash(_) => true
       case Ack(_, applied) => !applied
       case Term(_, applied) => !applied
       case PublishDeadLetter(_, _, acked) => !acked
       case Nak(_) => w.Aborted? && w.count == 1
       case _ => false
  }

  function LeavingOpen(p: nat): (CState, CStep) -> bool {
    (s: CState, step: CStep) => LeavesOpen(s, step, p)
  }

  /** All deliveries are used up, nobody handles the message, and it is still outstanding. */
  predicate Stranded(w: Handler, d: Delivery) {
    w.Waiting? && d == Delivery(MAX_DELIVERIES, Outstanding)
  }

  /** What holds of a message while deliveries do not overlap: a count that is not the broker's is the default. */
  ghost predicate ExclusiveInv(s: CState, p: nat) {
    var w, d := HolderOf(s, p), DeliveryOf(s, p);
    && Alone(s, p) && d.count <= MAX_DELIVERIES
    && (!w.Waiting? ==> d.standing.Outstanding?)
    && (w.Received? || w.Aborted? ==> w.count == 1 || w.count == d.count)
  }

  lemma ExclusiveStep(stream: seq<Entry>, s: CState, step: CStep, p: nat)
    requires CEnabled(stream, s, step) && Exclusive(s, step) && ExclusiveInv(s, p)
    ensures var t := CApply(stream, s, step);
      && ExclusiveInv(t, p)
      && (Stranded(HolderOf(t, p), DeliveryOf(t, p)) <==>
            Stranded(HolderOf(s, p), DeliveryOf(s, p)) || LeavesOpen(s, step, p))
  {
    if Concerns(s, step, p) {
      Here(stream, s, step, p);
    } else {
      Elsewhere(stream, s, step, p);
    }
  }

  /**
   Which messages stay open for ever, over every trail without overlapping deliveries and with any failures: exactly
   those whose fifth delivery ended in a crash, in a lost acknowledgement or termination, in a dead letter whose publish
   was not acknowledged, or in a retry because its metadata could not be read.
   */
  lemma {:induction false} StrandedIff(stream: seq<Entry>, s0: CState, trail: seq<CStep>, p: nat)
    requires CInit(s0) && Replay(stream, s0, trail).Some? && ExclusiveTrail(stream, s0, trail)
    ensures var s := Replay(stream, s0, trail).value;
      && ExclusiveInv(s, p)
      && (Stranded(HolderOf(s, p), DeliveryOf(s, p)) <==> Ever(stream, s0, trail, LeavingOpen(p)))
  {
    if trail != [] {
      var n := |trail| - 1;
      LastStep(stream, s0, trail);
      StatesOfPrefix(stream, s0, trail, n);
      StrandedIff(stream, s0, trail[..n], p);
      ExclusiveStep(stream, StateAt(stream, s0, trail, n), trail[n], p);
      EverOn(stream, s0, trail, LeavingOpen(p));
    }
  }

  // ---------- Dead letters are bounded in every trail ----------

  /** The handlers that are busy with the message and have not published a dead letter for this delivery. */
  function Owing(s: CState, p: nat): set<nat> {
    set h | h in s.handlers && At(s.handlers[h], p) && !s.handlers[h].DeadLettered?
  }

  /** Every delivery of the message is over, still owed by a handler, or has led to at most one dead letter. */
  predicate LettersPaid(s: CState, p: nat) {
    |LettersOf(s.dead, p)| + |Owing(s, p)| <= DeliveryOf(s, p).count <= MAX_DELIVERIES
  }

  lemma FewerOwing(a: set<nat>, b: set<nat>, h: nat)
    requires a <= b + {h}
    ensures |a| <= |b| + 1 && (h !in a ==> |a| <= |b|) && (h !in a && h in b ==> |a| < |b|)
    ensures h in b ==> |a| <= |b|
  {
    T.SubsetSize(a, b + {h});
    if h !in a {
      T.SubsetSize(a, b - {h});
    }
  }

  lemma OwingStep(stream: seq<Entry>, s: CState, step: CStep, p: nat)
    requires CEnabled(stream, s, step)
    ensures var t, h := CApply(stream, s, step), step.handler;
      && Owing(t, p) <= Owing(s, p) + {h}
      && (h in Owing(t, p) ==> h in Owing(s, p) || (step.Deliver? && step.position == p))
      && (step.PublishDeadLetter? ==> h !in Owing(t, p) && (At(HandlerOf(s, h), p) ==> h in Owing(s, p)))
      && DeliveryOf(t, p).count == DeliveryOf(s, p).count + (if step.Deliver? && step.position == p then 1 else 0)
  {
  }

  lemma LettersPaidStep(stream: seq<Entry>, s: CState, step: CStep, p: nat)
    requires CEnabled(stream, s, step) && LettersPaid(s, p)
    ensures LettersPaid(CApply(stream, s, step), p)
  {
    var t := CApply(stream, s, step);
    OwingStep(stream, s, step, p);
    FewerOwing(Owing(t, p), Owing(s, p), step.handler);
    if step.PublishDeadLetter? && step.appended {
      LettersAppend(s.dead, t.dead[|s.dead|], p);
    }
  }

  /**
   Over every trail, calm or not and however deliveries overlap, a message has at most as many dead letters as it was
   delivered, hence at most five.
   */
  lemma {:induction false} LettersBounded(stream: seq<Entry>, s0: CState, trail: seq<CStep>, p: nat)
    requires CInit(s0) && Replay(stream, s0, trail).Some?
    ensures LettersPaid(Replay(stream, s0, trail).value, p)
    ensures var s := Replay(stream, s0, trail).value;
      |LettersOf(s.dead, p)| <= DeliveryOf(s, p).count <= MAX_DELIVERIES
  {
    if trail == [] {
      assert Owing(s0, p) == {};
    } else {
      var n := |trail| - 1;
      LastStep(stream, s0, trail);
      LettersBounded(stream, s0, trail[..n], p);
      LettersPaidStep(stream, StateAt(stream, s0, trail, n), trail[n], p);
    }
  }
}
