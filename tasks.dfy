/**
 * The worker's task-consumer bootstep: how the worker decides between global
 * and per-consumer prefetch, installs the initial prefetch count, optionally
 * gates consumption on the number of reserved requests, and tears the task
 * consumer down again.
 *
 * Collaborators the step only calls (the broker channel, the kombu consumer,
 * the quorum-queue detector, the worker pool and autoscaler) are represented by
 * the values they answer with and by a log of the calls the step issues.
 */
module Tasks {
  import opened Wrappers

  // ---------------------------------------------------------------------------
  // Global QoS decision
  // ---------------------------------------------------------------------------

  /** The one INFO record the step emits, when quorum queues force per-consumer QoS. */
  const StaticPrefetchNotice: string := "Global QoS is disabled. Prefetch count in now static."

  /** Outcome of the global-QoS decision: the flag, and the INFO records it logged. */
  datatype QosDecision = QosDecision(applyGlobal: bool, infoRecords: seq<string>)

  /**
   * Whether prefetch limits are applied to the whole channel (`global`) rather
   * than per consumer.  Brokers whose `basic.qos` semantics differ from the AMQP
   * 0-9-1 text (RabbitMQ 3.3 and later) need the global flag to keep a channel-wide
   * limit; quorum queues do not support global QoS, so when detection is enabled
   * and finds one, the flag is forced off and the decision is logged once.
   * `quorumQueueDetected` is the detector's answer; it is only consulted when
   * detection is enabled.
   */
  function QosGlobal(matchesSpec: bool, detectQuorumQueues: bool, quorumQueueDetected: bool): (d: QosDecision)
    // global QoS is only ever asked for to compensate for redefined semantics
    ensures d.applyGlobal ==> !matchesSpec
    // a detected quorum queue wins over the transport's flag, and is announced exactly once
    ensures detectQuorumQueues && quorumQueueDetected ==>
              !d.applyGlobal && d.infoRecords == [StaticPrefetchNotice]
    // otherwise the transport's flag alone decides, silently
    ensures !(detectQuorumQueues && quorumQueueDetected) ==>
              d.applyGlobal == !matchesSpec && d.infoRecords == []
  {
    var fromTransport := !matchesSpec;
    if detectQuorumQueues then
      if quorumQueueDetected then QosDecision(false, [StaticPrefetchNotice])
      else QosDecision(fromTransport, [])
    else
      QosDecision(fromTransport, [])
  }

  /** With detection switched off, the detector's answer has no influence at all. */
  lemma QosGlobalIgnoresDetectorWhenDisabled(matchesSpec: bool, detected1: bool, detected2: bool)
    ensures QosGlobal(matchesSpec, false, detected1) == QosGlobal(matchesSpec, false, detected2)
    ensures QosGlobal(matchesSpec, false, detected1).applyGlobal == !matchesSpec
  {
  }

  /** A detected quorum queue disables global QoS whatever the transport reports. */
  lemma QosGlobalQuorumIndependentOfTransport(matchesSpec1: bool, matchesSpec2: bool)
    ensures QosGlobal(matchesSpec1, true, true) == QosGlobal(matchesSpec2, true, true)
    ensures |QosGlobal(matchesSpec1, true, true).infoRecords| == 1
  {
  }

  // ---------------------------------------------------------------------------
  // Admission control when prefetch is disabled
  // ---------------------------------------------------------------------------

  /**
   * The channel QoS object's `can_consume` predicate as a value.  `Native` is
   * the transport's own predicate; `PrefetchGuard(original)` is the wrapper the
   * step installs in place of whatever predicate the channel had, which it calls
   * as its fallback.  Starting the step again on a channel that already carries
   * the guard wraps it once more.
   */
  datatype Admission = Native | PrefetchGuard(original: Admission)

  /**
   * What the predicate reads when it is called, not when it is installed: the
   * number of reserved requests in the worker's registry, the autoscaler's
   * `max_concurrency` (absent when there is no autoscaler or it has none), the
   * pool's process count (absent when the pool reports none), and the transport
   * predicate's own answer.
   */
  datatype AdmissionInputs = AdmissionInputs(
    reservedCount: nat,
    maxConcurrency: Option<int>,
    numProcesses: Option<int>,
    nativeAnswer: bool)

  /**
   * What a call of the predicate does: return an answer, or raise `TypeError`
   * because the reserved count was compared against a missing limit.
   */
  datatype Verdict = Returns(admit: bool) | RaisesTypeError

  /**
   * The concurrency limit the guard compares against: the autoscaler's maximum
   * when it has one (any value, zero included, counts as set), else the pool's
   * process count, which may itself be missing.
   */
  function Limit(maxConcurrency: Option<int>, numProcesses: Option<int>): (limit: Option<int>)
    ensures maxConcurrency.Some? ==> limit == maxConcurrency
    ensures maxConcurrency.None? ==> limit == numProcesses
    ensures limit.None? <==> maxConcurrency.None? && numProcesses.None?
  {
    match maxConcurrency
    case Some(m) => Some(m)
    case None => numProcesses
  }

  /** Evaluates an admission predicate against the inputs at call time. */
  function CanConsume(p: Admission, now: AdmissionInputs): (v: Verdict)
    // no wrapper ever admits what the transport itself refuses
    ensures v == Returns(true) ==> now.nativeAnswer
    // only a guard can raise, and only when it has no limit to compare against
    ensures v.RaisesTypeError? ==> p.PrefetchGuard? && Limit(now.maxConcurrency, now.numProcesses).None?
    decreases p
  {
    match p
    case Native => Returns(now.nativeAnswer)
    case PrefetchGuard(original) =>
      match Limit(now.maxConcurrency, now.numProcesses)
      case None => RaisesTypeError
      case Some(limit) =>
        if now.reservedCount >= limit then Returns(false)
        else CanConsume(original, now)
  }

  /**
   * However many guards are stacked, an unguarded predicate answers as the
   * transport does; a guarded one raises when there is no limit, and otherwise
   * admits exactly when the transport does and the reserved count is below the
   * limit.
   */
  lemma {:induction false} CanConsumeClosedForm(p: Admission, now: AdmissionInputs)
    ensures CanConsume(p, now) ==
              if p.Native? then Returns(now.nativeAnswer)
              else match Limit(now.maxConcurrency, now.numProcesses)
                   case None => RaisesTypeError
                   case Some(limit) => Returns(now.nativeAnswer && now.reservedCount < limit)
    decreases p
  {
    match p
    case Native =>
    case PrefetchGuard(original) =>
      CanConsumeClosedForm(original, now);
  }

  /**
   * A call of the predicate raises exactly when a guard is installed and neither
   * the autoscaler's maximum nor the pool's process count is known.
   */
  lemma CanConsumeRaisesExactly(p: Admission, now: AdmissionInputs)
    ensures CanConsume(p, now).RaisesTypeError? <==>
              p.PrefetchGuard? && now.maxConcurrency.None? && now.numProcesses.None?
  {
  }

  /**
   * The guard refuses at or above the limit, defers to the predicate it wraps
   * below it, and therefore only ever tightens admission.
   */
  lemma PrefetchGuardTightens(p: Admission, now: AdmissionInputs)
    ensures var limit := Limit(now.maxConcurrency, now.numProcesses);
            limit.Some? && now.reservedCount >= limit.value ==>
              CanConsume(PrefetchGuard(p), now) == Returns(false)
    ensures var limit := Limit(now.maxConcurrency, now.numProcesses);
            limit.Some? && now.reservedCount < limit.value ==>
              CanConsume(PrefetchGuard(p), now) == CanConsume(p, now)
    ensures CanConsume(PrefetchGuard(p), now) == Returns(true) ==> CanConsume(p, now) == Returns(true)
  {
  }

  /** Wrapping an already guarded channel again changes no decision. */
  lemma StackedGuardsAgree(p: Admission, now: AdmissionInputs)
    ensures CanConsume(PrefetchGuard(PrefetchGuard(p)), now) == CanConsume(PrefetchGuard(p), now)
  {
  }

  /**
   * The limit is the autoscaler's maximum whenever one is set, even above the
   * pool's process count (the smaller of the two is not taken), and a maximum of
   * zero is a limit, not an absent value.
   */
  lemma LimitPrefersMaxConcurrency(native: bool)
    ensures CanConsume(PrefetchGuard(Native), AdmissionInputs(5, Some(8), Some(4), true)) == Returns(true)
    ensures CanConsume(PrefetchGuard(Native), AdmissionInputs(0, Some(0), Some(4), native)) == Returns(false)
  {
  }

  /**
   * The two reserved-limit scenarios: four reserved against a pool of four with
   * no autoscaler, and two reserved against an autoscaler maximum of two over a
   * pool of four, both refuse although the transport would admit; with neither
   * size known the guard raises.
   */
  lemma ReservedLimitScenarios()
    ensures CanConsume(PrefetchGuard(Native), AdmissionInputs(4, None, Some(4), true)) == Returns(false)
    ensures CanConsume(PrefetchGuard(Native), AdmissionInputs(2, Some(2), Some(4), true)) == Returns(false)
    ensures CanConsume(PrefetchGuard(Native), AdmissionInputs(0, None, None, true)) == RaisesTypeError
  {
  }

  /**
   * Traffic seen by a channel: the broker offering a message (with the
   * transport predicate's answer at that moment), or a reserved request leaving
   * the registry.
   */
  datatype Traffic = Offer(nativeAnswer: bool) | Release

  /**
   * The reserved count after a run of traffic, when a message is reserved only
   * if the channel's predicate admits it at the moment it is offered.  A call
   * that raises ends the run with nothing more reserved.
   */
  function ReservedAfter(p: Admission, maxConcurrency: Option<int>, numProcesses: Option<int>,
                         reserved: nat, traffic: seq<Traffic>): nat
    decreases |traffic|
  {
    if traffic == [] then reserved
    else
      match traffic[0]
      case Offer(answer) =>
        (match CanConsume(p, AdmissionInputs(reserved, maxConcurrency, numProcesses, answer))
         case RaisesTypeError => reserved
         case Returns(admit) =>
           ReservedAfter(p, maxConcurrency, numProcesses, if admit then reserved + 1 else reserved, traffic[1..]))
      case Release =>
        ReservedAfter(p, maxConcurrency, numProcesses, if reserved == 0 then 0 else reserved - 1, traffic[1..])
  }

  /**
   * With the guard installed, admission never pushes the reserved count past the
   * limit: it ends at most at the limit or at where it started.
   */
  lemma {:induction false} GuardBoundsReservations(p: Admission, maxConcurrency: Option<int>,
                                                   numProcesses: Option<int>, reserved: nat,
                                                   traffic: seq<Traffic>)
    requires p.PrefetchGuard?
    ensures var r := ReservedAfter(p, maxConcurrency, numProcesses, reserved, traffic);
            var limit := Limit(maxConcurrency, numProcesses);
            r <= reserved || (limit.Some? && r <= limit.value)
    decreases |traffic|
  {
    if traffic != [] {
      var limit := Limit(maxConcurrency, numProcesses);
      match traffic[0]
      case Offer(answer) =>
        var now := AdmissionInputs(reserved, maxConcurrency, numProcesses, answer);
        CanConsumeClosedForm(p, now);
        match CanConsume(p, now) {
          case RaisesTypeError =>
          case Returns(admit) =>
            var next: nat := if admit then reserved + 1 else reserved;
            assert next <= reserved || (limit.Some? && next <= limit.value);
            GuardBoundsReservations(p, maxConcurrency, numProcesses, next, traffic[1..]);
        }
      case Release =>
        var next: nat := if reserved == 0 then 0 else reserved - 1;
        GuardBoundsReservations(p, maxConcurrency, numProcesses, next, traffic[1..]);
    }
  }

  /** Without the guard the transport alone decides, and the limit can be passed. */
  lemma NativeAdmissionIgnoresLimit()
    ensures ReservedAfter(Native, Some(1), Some(1), 0, [Offer(true), Offer(true)]) == 2
  {
  }

  // ---------------------------------------------------------------------------
  // The consumer record and the step's lifecycle
  // ---------------------------------------------------------------------------

  /** The kombu task consumer: an identity and its channel's admission predicate. */
  datatype TaskConsumer = TaskConsumer(id: nat, canConsume: Admission)

  /** The QoS counter: its current value and the `apply_global` flag its updater passes on. */
  datatype PrefetchQos = PrefetchQos(value: int, applyGlobal: bool)

  /** Calls the step issues on the broker channel and on the task consumer. */
  datatype Call =
    | BasicQos(prefetchSize: int, prefetchCount: int, applyGlobal: bool)
    | ConsumerQos(consumer: nat, prefetchCount: int, applyGlobal: bool)
    | Cancel(consumer: nat)
    | Close(consumer: nat)

  /** What `info` reports for `prefetch_count`. */
  datatype PrefetchInfo = PrefetchCount(count: int) | NotAvailable

  /** The consumer's channel with the prefetch guard installed over its current predicate. */
  function DisablePrefetch(tc: TaskConsumer): (r: TaskConsumer)
    ensures r.id == tc.id
    // the rebound predicate admits nothing the channel's previous one refused
    ensures forall now :: CanConsume(r.canConsume, now) == Returns(true) ==>
                           CanConsume(tc.canConsume, now) == Returns(true)
  {
    tc.(canConsume := PrefetchGuard(tc.canConsume))
  }

  /** The parts of the worker's consumer that the task step reads and writes. */
  class Consumer {
    // configuration and collaborator answers the step reads
    var disablePrefetch: bool
    var detectQuorumQueues: bool
    var initialPrefetchCount: int
    var qosSemanticsMatchesSpec: bool
    var quorumQueueDetected: bool
    var reservedCount: nat
    var maxConcurrency: Option<int>
    var numProcesses: Option<int>

    // fields the step owns
    var taskConsumer: Option<TaskConsumer>
    var qos: Option<PrefetchQos>

    // observable effects, in order
    var calls: seq<Call>
    var infoLog: seq<string>

    // index in `calls` of the `basic_qos` issued by the start that built `qos`
    ghost var qosSince: nat

    /**
     * Every prefetch update since the current QoS counter was built carries the
     * same `apply_global` flag as the initial `basic_qos` of that start.
     */
    ghost predicate Valid()
      reads this
    {
      qos.Some? ==>
        qosSince < |calls| &&
        calls[qosSince].BasicQos? &&
        calls[qosSince].applyGlobal == qos.value.applyGlobal &&
        forall j :: qosSince < j < |calls| && calls[j].ConsumerQos? ==>
          calls[j].applyGlobal == qos.value.applyGlobal
    }

    /**
     * The task consumer channel's admission predicate, called now: it reads the
     * reserved count, the autoscaler's maximum and the pool size as they are at
     * this call, not as they were when the guard was installed.
     */
    function AdmitsNow(nativeAnswer: bool): (v: Verdict)
      reads this
      requires taskConsumer.Some?
      ensures taskConsumer.value.canConsume.Native? ==> v == Returns(nativeAnswer)
      ensures taskConsumer.value.canConsume.PrefetchGuard? ==>
                var limit := Limit(maxConcurrency, numProcesses);
                v == if limit.None? then RaisesTypeError
                     else Returns(nativeAnswer && reservedCount < limit.value)
    {
      var now := AdmissionInputs(reservedCount, maxConcurrency, numProcesses, nativeAnswer);
      CanConsumeClosedForm(taskConsumer.value.canConsume, now);
      CanConsume(taskConsumer.value.canConsume, now)
    }

    /**
     * The updater handed to the QoS counter: forwards a new prefetch count to
     * the task consumer current at call time, with the flag fixed at start.  With
     * no task consumer left (after shutdown) the call fails and nothing is sent.
     */
    method SetPrefetchCount(prefetchCount: int) returns (ok: bool)
      requires Valid() && qos.Some?
      modifies this`calls
      ensures Valid()
      ensures ok == taskConsumer.Some?
      ensures calls == old(calls) +
                (if ok then [ConsumerQos(taskConsumer.value.id, prefetchCount, qos.value.applyGlobal)]
                 else [])
    {
      match taskConsumer
      case None =>
        ok := false;
      case Some(tc) =>
        calls := calls + [ConsumerQos(tc.id, prefetchCount, qos.value.applyGlobal)];
        ok := true;
    }
  }

  /** The bootstep itself; it keeps no state of its own, only the consumer's. */
  class TasksStep {

    constructor (c: Consumer)
      modifies c`taskConsumer, c`qos
      ensures c.taskConsumer == None && c.qos == None
      ensures c.Valid()
    {
      c.taskConsumer := None;
      c.qos := None;
    }

    /**
     * Installs the initial prefetch count on the default channel, adopts the
     * newly created task consumer, seeds the QoS counter, and, when prefetch is
     * disabled, guards the consumer channel's admission predicate.
     */
    method Start(c: Consumer, created: TaskConsumer)
      modifies c`calls, c`infoLog, c`taskConsumer, c`qos, c`qosSince
      ensures c.Valid()
      ensures var d := QosGlobal(c.qosSemanticsMatchesSpec, c.detectQuorumQueues, c.quorumQueueDetected);
              c.calls == old(c.calls) + [BasicQos(0, c.initialPrefetchCount, d.applyGlobal)] &&
              c.infoLog == old(c.infoLog) + d.infoRecords &&
              c.qos == Some(PrefetchQos(c.initialPrefetchCount, d.applyGlobal))
      ensures c.taskConsumer == Some(if c.disablePrefetch then DisablePrefetch(created) else created)
    {
      var d := QosGlobal(c.qosSemanticsMatchesSpec, c.detectQuorumQueues, c.quorumQueueDetected);
      c.infoLog := c.infoLog + d.infoRecords;
      c.qosSince := |c.calls|;
      c.calls := c.calls + [BasicQos(0, c.initialPrefetchCount, d.applyGlobal)];
      c.taskConsumer := Some(created);
      c.qos := Some(PrefetchQos(c.initialPrefetchCount, d.applyGlobal));
      if c.disablePrefetch {
        c.taskConsumer := Some(DisablePrefetch(created));
      }
    }

    /** Cancels the task consumer, if there is one. */
    method Stop(c: Consumer)
      requires c.Valid()
      modifies c`calls
      ensures c.Valid()
      ensures c.calls == old(c.calls) +
                (if c.taskConsumer.Some? then [Cancel(c.taskConsumer.value.id)] else [])
    {
      if c.taskConsumer.Some? {
        c.calls := c.calls + [Cancel(c.taskConsumer.value.id)];
      }
    }

    /** Cancels, then closes, then forgets the task consumer, if there is one. */
    method Shutdown(c: Consumer)
      requires c.Valid()
      modifies c`calls, c`taskConsumer
      ensures c.Valid()
      ensures c.taskConsumer == None
      ensures c.calls == old(c.calls) +
                (match old(c.taskConsumer)
                 case None => []
                 case Some(tc) => [Cancel(tc.id), Close(tc.id)])
    {
      if c.taskConsumer.Some? {
        var tc := c.taskConsumer.value;
        Stop(c);
        c.calls := c.calls + [Close(tc.id)];
        c.taskConsumer := None;
      }
    }

    /** The prefetch count for worker inspection. */
    function Info(c: Consumer): (r: PrefetchInfo)
      reads c
      ensures r.NotAvailable? <==> c.qos.None?
      ensures r.PrefetchCount? ==> r.count == c.qos.value.value
    {
      match c.qos
      case Some(q) => PrefetchCount(q.value)
      case None => NotAvailable
    }
  }

  /** A second shutdown, and a stop after shutdown, issue no further calls. */
  method ShutdownThenStopIsQuiet(step: TasksStep, c: Consumer)
    requires c.Valid()
    modifies c`calls, c`taskConsumer
    ensures c.taskConsumer == None
    ensures c.calls == old(c.calls) +
              (match old(c.taskConsumer)
               case None => []
               case Some(tc) => [Cancel(tc.id), Close(tc.id)])
  {
    step.Shutdown(c);
    ghost var afterFirst := c.calls;
    step.Shutdown(c);
    step.Stop(c);
    assert c.calls == afterFirst;
  }

  /**
   * Started with prefetch disabled over a channel with the transport's own
   * predicate, the task consumer admits exactly when the transport does and the
   * reserved count is below the limit, and raises when no limit is known.
   */
  method StartWithPrefetchDisabled(step: TasksStep, c: Consumer, created: TaskConsumer, nativeAnswer: bool)
      returns (v: Verdict)
    requires c.disablePrefetch && created.canConsume == Native
    modifies c`calls, c`infoLog, c`taskConsumer, c`qos, c`qosSince
    ensures c.taskConsumer.Some? && c.taskConsumer.value.id == created.id
    ensures v == c.AdmitsNow(nativeAnswer)
    ensures var limit := Limit(c.maxConcurrency, c.numProcesses);
            v == if limit.None? then RaisesTypeError
                 else Returns(nativeAnswer && c.reservedCount < limit.value)
  {
    step.Start(c, created);
    v := c.AdmitsNow(nativeAnswer);
  }
}
