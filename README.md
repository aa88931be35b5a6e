# Celery task-consumer bootstep, modelled in Dafny

This project models the worker bootstep that starts Celery's task message
consumer (`celery/worker/consumer/tasks.py`). The model covers:

- **Global QoS.** It decides whether prefetch limits apply to the whole channel
  (`global`) or to each consumer. That depends on whether the broker's
  `basic.qos` semantics match the AMQP 0-9-1 text, and on whether quorum-queue
  detection is enabled and finds a quorum queue.
- **Initial prefetch.** `start` issues `basic_qos(0, initial_prefetch_count,
  qos_global)` on the default channel. It seeds the QoS counter with the
  initial count. The counter's updater forwards every later count to the task
  consumer with the same `apply_global` flag.
- **Admission control.** With `worker_disable_prefetch` on, the channel's
  `can_consume` predicate is replaced by a guard. The guard refuses while the
  number of reserved requests is at or above the limit, and otherwise asks the
  predicate it replaced. The limit is the autoscaler's `max_concurrency` if set,
  else the pool's process count. When neither is known, the comparison against
  the missing limit raises `TypeError` on every call.
- **Lifecycle.** Construction clears `task_consumer` and `qos`. `stop` cancels
  the consumer. `shutdown` cancels, closes and forgets it. `info` reports the
  prefetch count or `N/A`.

Files:

- `wrappers.dfy` holds `Option`.
- `tasks.dfy` holds module `Tasks`:
  - the pure decisions `QosGlobal` and `CanConsume`;
  - the consumer record as class `Consumer`, whose fields the step assigns in
    place;
  - the bootstep as class `TasksStep`.

Runtime rebinding of `can_consume` becomes a value. `Admission` is either
`Native` (the transport's predicate) or `PrefetchGuard(original)`. `CanConsume`
evaluates it against the inputs read at call time: the reserved count, the
autoscaler maximum, the pool size and the transport predicate's answer. The guard
captures none of them when it is installed.

Calls into collaborators are recorded in `Consumer.calls`, in order. These are
`basic_qos` on the default channel, and the consumer's `qos`, `cancel` and
`close`. INFO log records are recorded in `Consumer.infoLog`. The task consumer
that `TaskConsumer(...)` creates is a parameter of `Start`. The quorum-queue
detector's answer is the field `Consumer.quorumQueueDetected`.

The code uses `max_concurrency` whenever it is set, even above the pool size.
The test at t/unit/worker/test_consumer.py:620 only exercises a lower maximum.
`LimitPrefersMaxConcurrency` states the higher case.

## Model

| member | source | states |
|---|---|---|
| `Tasks.QosGlobal` | celery/worker/consumer/tasks.py:86-105 | Global QoS is requested only when the transport's semantics differ from the specification. A detected quorum queue with detection on forces it off and logs exactly one "Global QoS is disabled. Prefetch count in now static." record. In every other case the flag is `not qos_semantics_matches_spec` and nothing is logged. |
| `Tasks.QosGlobalIgnoresDetectorWhenDisabled` | celery/worker/consumer/tasks.py:96-98 | With detection off, the detector's answer does not change the decision, and the flag equals `not qos_semantics_matches_spec`. |
| `Tasks.QosGlobalQuorumIndependentOfTransport` | celery/worker/consumer/tasks.py:98-103 | With detection on and a quorum queue found, the decision is the same whatever the transport flag says, with exactly one INFO record. |
| `Tasks.Limit` | celery/worker/consumer/tasks.py:59-61 | The limit is `max_concurrency` whenever it is set, and the pool's `num_processes` otherwise. It is missing exactly when both are missing. |
| `Tasks.CanConsume` | celery/worker/consumer/tasks.py:58-64 | An admission predicate, guarded any number of times, never admits what the transport's own predicate refuses. Only a guard can raise, and only when there is no limit. |
| `Tasks.CanConsumeClosedForm` | celery/worker/consumer/tasks.py:55-66 | An unguarded channel answers as the transport does. A guarded one raises when there is no limit. Otherwise it admits exactly when the transport admits and the reserved count is below the limit. |
| `Tasks.CanConsumeRaisesExactly` | celery/worker/consumer/tasks.py:59-62 | A call raises `TypeError` exactly when a guard is installed and both `max_concurrency` and `num_processes` are `None`. |
| `Tasks.PrefetchGuardTightens` | celery/worker/consumer/tasks.py:58-64 | At or above the limit the guard returns false. Below the limit it returns exactly what the wrapped predicate returns. Guard-true implies original-true. |
| `Tasks.StackedGuardsAgree` | celery/worker/consumer/tasks.py:55-66 | Installing the guard over a predicate that already carries it changes no admission decision. |
| `Tasks.LimitPrefersMaxConcurrency` | celery/worker/consumer/tasks.py:59-61 | `max_concurrency` is the limit even above the pool size: 5 reserved, maximum 8 and 4 processes is admitted. A maximum of 0 is a limit that refuses everything, not an absent value. |
| `Tasks.ReservedLimitScenarios` | t/unit/worker/test_consumer.py:571-645 | 4 reserved with no autoscaler and 4 processes refuses. 2 reserved with a maximum of 2 and 4 processes refuses. Both hold although the transport admits. With neither size known the guard raises. |
| `Tasks.GuardBoundsReservations` | celery/worker/consumer/tasks.py:58-64 | When messages are reserved only as the guarded predicate admits them, the reserved count never ends above both its starting value and the limit, whatever mix of offers and releases arrives. |
| `Tasks.NativeAdmissionIgnoresLimit` | celery/worker/consumer/tasks.py:51-66 | Without the guard, two admitted offers take the reserved count to 2 past a limit of 1. |
| `Tasks.DisablePrefetch` | celery/worker/consumer/tasks.py:55-66 | Installing the guard keeps the consumer's identity. The rebound predicate admits nothing that the channel's previous predicate refused. |
| `Tasks.Consumer.AdmitsNow` | celery/worker/consumer/tasks.py:58-64 | The installed predicate, called on the consumer's current reserved count, autoscaler maximum and pool size. Unguarded, it returns the transport's answer. Guarded, it raises with no limit, and otherwise admits exactly when the transport does and the count is below the limit. |
| `Tasks.StartWithPrefetchDisabled` | celery/worker/consumer/tasks.py:29-66 | After `start` with prefetch disabled, over a channel with the transport's own predicate, the consumer's `can_consume` admits exactly when the transport does and the reserved count is below the limit. It raises when no limit is known. |
| `Tasks.Consumer.SetPrefetchCount` | celery/worker/consumer/tasks.py:44-49 | The QoS updater sends the new count to the task consumer current at call time, with the `apply_global` flag fixed at start. It fails and sends nothing once shutdown has cleared the consumer. It keeps the invariant that every update since start carries the flag of the initial `basic_qos`. |
| `Tasks.TasksStep.constructor` | celery/worker/consumer/tasks.py:25-27 | Construction sets `task_consumer` and `qos` to none. |
| `Tasks.TasksStep.Start` | celery/worker/consumer/tasks.py:29-66 | `start` issues exactly one `basic_qos(0, initial_prefetch_count, qos_global)` and appends the decision's INFO records. It seeds `qos` with the initial count and that flag, and adopts the new consumer. The consumer's predicate is guarded if prefetch is disabled and left exactly as created otherwise. |
| `Tasks.TasksStep.Stop` | celery/worker/consumer/tasks.py:68-72 | `stop` cancels the task consumer if there is one, and otherwise issues nothing. |
| `Tasks.TasksStep.Shutdown` | celery/worker/consumer/tasks.py:74-80 | `shutdown` cancels, then closes, then clears the task consumer. With no consumer it issues nothing. |
| `Tasks.TasksStep.Info` | celery/worker/consumer/tasks.py:82-84 | `info` reports `N/A` exactly when `qos` is none, else the QoS counter's value. |
| `Tasks.ShutdownThenStopIsQuiet` | celery/worker/consumer/tasks.py:68-80 | After one shutdown, a second shutdown and a stop issue no further calls. |

## Left out

- `update_strategies` (tasks.py:31) is not modelled. It is a call into the consumer, which is not part of this model.
- The `debug` log lines are not modelled. Only the single INFO record is.
- `ignore_errors` around `cancel` and `close` is not modelled. The model records each call as issued and does not model failures of the foreign call.
- `detect_quorum_queues` is not part of this model. Its answer is the input `Consumer.quorumQueueDetected`, and its queue name is dropped.
- The internals of kombu's `QoS` counter are not modelled: `increment_eventually`, `decrement_eventually`, `update`, the clamping in `set`, and its lock. Only the updater closure the step hands it is modelled, as `Consumer.SetPrefetchCount`. `info` reports the value that `start` seeded.
- The transport's own `can_consume` is the abstract answer `nativeAnswer`.
- `Tasks.DisablePrefetch` places the guard on the task-consumer value held by the consumer record. Other holders of the same channel object, which would see the rebinding through aliasing, are not modelled.
- `Tasks.TasksStep.Start`: failures of the collaborator calls during start are not modelled. These are `update_strategies`, `basic_qos` and `TaskConsumer(...)`, none of them guarded. In the source such a failure propagates. It can do so after `basic_qos` was already issued, leaving `task_consumer` and `qos` with the previous start's values. The model's `Start` always completes.
- `Tasks.TasksStep.Start`: `initial_prefetch_count = None` is not modelled, because the count is an `int`. The source forwards `None` unchanged to `basic_qos` and to kombu's `QoS`, and what those do with it lies in kombu.
- Python truthiness of `task_consumer` and `qos` is modelled as "not `None`". The kombu objects define no falsy state that the step relies on.
- The worker's reserving and releasing of messages is modelled only by `ReservedAfter`, the sequence that `Tasks.GuardBoundsReservations` is stated over. It is a model of how the worker reserves offered messages and releases them. That code lies outside this file.
- The bootstep base class (`StartStopStep`) and the dependency on `Mingle` are not modelled.
