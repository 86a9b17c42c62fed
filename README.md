# PID active queue management, modelled in Dafny

This project models `PidQueueDisc`, an ns-3 queue discipline. Every arriving
packet is either admitted to a single bounded FIFO or dropped. Below the
queue limit the drop is probabilistic. A discrete-time PID controller
recomputes the drop probability every period. It turns the error between a
reference queue length and a sampled queue length into that probability
through the difference equation

    u_k = a·u_{k-1} + b·u_{k-2} + c·e_k + d·e_{k-1} + e·e_{k-2}

The model adds the bias `u0` to `u_k` and saturates the sum to [0,1]. The
history stores `u_k` before the bias is added. A one-shot step moves the
reference from the linearisation-equilibrium length to the desired length.

Files:

- `pid_control.dfy` (module `PidControl`) holds the pure parts. These are
  the difference equation (`Unsaturated`), the saturation (`Clamp`), the
  early-drop verdict (`DropEarly`) and the two drop reasons. It also holds a
  reference calculator that has no stored state. `Unbiased(g, errs, i)`
  evaluates the recurrence at tick `i` from the whole error sequence, and
  `Controlled` gives the drop probability after those ticks. Lemmas
  relate one more tick to two steps of history and describe the
  equilibrium behaviour.
- `pid_queue_disc.dfy` (module `PidQueue`) holds class `PidQueueDisc`.
  - Its `const` fields are the configuration: the coefficients `a..e` and
    `u0`, the queue limit, the two references and the three instants. No
    method can write them, so the controller never modifies the
    user-supplied values.
  - Its `var` fields are the state the source updates in place: the
    internal queue, the drop counters, the set-point, the probability and
    the two-step histories.
  - A ghost field `errors` records every sampled error. `Valid()` ties the
    history fields to the reference calculator run over `errors`. So each
    controller tick is proved to compute exactly the output of the
    stateless recurrence, including the order "shift the unbiased output,
    then add the bias".
- `pid_scenario.dfy` (module `PidScenario`) is a client. It goes through the
  lifecycle with the bottleneck configuration of `pid-script.cc`. The steps
  are: configuration check, initialisation, an open-loop admission, a tick
  at the equilibrium reference, the reference step taken twice, a tick at
  the new reference, and two dequeues.

The random draw of `DropEarly` is a parameter `v` of `DoEnqueue`. The
queue length that a controller tick samples is a parameter `observed` of
`CalculateP`. Each scheduled callback (the tick, the reference step) is a
method that the caller invokes. Doubles are `real`. The model makes no
claim about IEEE-754 rounding.

## Model

| member | source | states |
|---|---|---|
| `PidControl.LabelsDistinct` | pid-queue-disc.h:65-66 | the two drop-reason labels are equal only for the same reason, so statistics keyed by label keep forced and unforced drops apart |
| `PidControl.Clamp` | pid-queue-disc.cc:302 | the saturated value lies in [0,1]; inputs ≤ 0 give 0, inputs ≥ 1 give 1, and inputs strictly between pass through unchanged |
| `PidControl.DropEarly` | pid-queue-disc.cc:261-277 | the verdict is "drop" exactly when the draw `v` is at most `p`; a negative `p` (the open-loop sentinel) never drops for a draw in [0,1); `p` ≥ 1 always drops for a draw below 1 |
| `PidControl.Controlled` | pid-queue-disc.cc:290-302 | the probability the reference calculator gives after any non-empty sequence of ticks lies in [0,1] |
| `PidControl.UnbiasedPrefix` | pid-queue-disc.cc:293-298 | a later error sample never changes the unsaturated output of an earlier tick |
| `PidControl.UnbiasedStep` | pid-queue-disc.h:96-101 | one more tick's output is the difference equation applied to the two previous unsaturated outputs, the new error and the two previous errors, so two steps of history suffice |
| `PidControl.UnbiasedAtReference` | pid-queue-disc.cc:290-293 | while every sampled length equals the reference, the unsaturated output stays 0 |
| `PidControl.EquilibriumDropRatio` | pid-queue-disc.cc:300-302 | at the reference length the drop probability is the equilibrium ratio `u0`, saturated, and exactly `u0` when `u0` lies in [0,1] |
| `PidControl.FirstTick` | pid-queue-disc.cc:172-176 | with the zero histories set by initialisation, the first tick's probability is `clamp(c·e0 + u0)` |
| `PidQueue.PidQueueDisc.constructor` | pid-queue-disc.cc:131-137 | a new discipline keeps the given configuration and composition; its queue is empty and its drop counters are zero |
| `PidQueue.PidQueueDisc.CheckConfig` | pid-queue-disc.cc:140-165 | fails when classes or packet filters are attached; adds one internal queue when there is none (only if no class or filter refused it first); succeeds exactly when one internal queue exists afterwards |
| `PidQueue.PidQueueDisc.InitializeParams` | pid-queue-disc.cc:169-181 | establishes the invariant; the probability is -1, both histories are zero, the set-point is the equilibrium reference, and no error has been sampled yet |
| `PidQueue.PidQueueDisc.DoEnqueue` | pid-queue-disc.cc:185-212 | exactly one outcome per call, checked in this order: (1) at the limit, a forced drop with the queue unchanged, even when the early-drop test would also drop; (2) otherwise, if the early-drop test says drop, an unforced drop with the queue unchanged; (3) otherwise the item is appended at the tail. The queue never exceeds its limit. Before the first tick, with a draw in [0,1), every packet below the limit is admitted |
| `PidQueue.PidQueueDisc.DoDequeue` | pid-queue-disc.cc:216-229 | an empty queue yields nothing and stays empty; otherwise the head is returned and the rest stays in order |
| `PidQueue.PidQueueDisc.CalculateP` | pid-queue-disc.cc:280-309 | error = set-point − observed length. The new one-step output is the difference equation over the old histories. Then: two-step output ← old one-step output, error history shifts the same way, bias added only after the shift, probability = clamp of the biased value, within [0,1], equal to the reference calculator over all sampled errors |
| `PidQueue.PidQueueDisc.QSizeRefUpdate` | pid-queue-disc.cc:312-317 | the set-point becomes the desired reference whatever it was before (so a second call changes nothing more); nothing else changes, and the set-point remains one of the two references |

## Left out

- Attribute and type registration (pid-queue-disc.cc:47-121): the configuration is a `Config` value given to the constructor. Defaults are not modelled.
- Scheduling and cancellation of the two events (pid-queue-disc.cc:179-180, 240-241, 304): the tick and the reference step are methods called explicitly. So the timing properties are not modelled. These are: ticks every `tUpdate` from `sUpdate` on, the step at `sStep`, and no callback after disposal. The three instants are carried in `Config` but not used.
- The lookup of the device's transmit queue inside the tick (pid-queue-disc.cc:285-289): the sampled length is the parameter `observed`. A missing device or queue is not modelled. The source does not handle that case.
- The random-number generator and its stream seeding (pid-queue-disc.cc:135-136, 265): each draw is the parameter `v`. The statistical claim that the unforced-drop fraction approaches `p` is not stated.
- The diagnostic file output of the tick (pid-queue-disc.cc:307-308) and the console output (pid-queue-disc.cc:178, 316): this is I/O. The extra random draw consumed by the file output is not reproduced.
- `PWMUpdate` (pid-queue-disc.cc:320-323): its body is empty.
- The filter coefficient `N` (pid-queue-disc.h:80): the controller never reads it.
- `DoDispose` and the destructor (pid-queue-disc.cc:236-250): these only release memory and cancel events.
- Byte-counted queue sizes: `QueueSize` can count bytes, but all sizes here are packet counts.
- The failure path of the internal drop-tail queue (pid-queue-disc.cc:204-206): below the limit, appending always succeeds. A user-attached internal queue with a smaller limit of its own is not modelled.
- Fields the source leaves uninitialised until the first tick (`m_dropProb0`, `m_ErrQsize0`, `m_Qsize`) start at zero in the constructor. `Valid()` says nothing about them before the first tick.
- The simulation script `pid-script.cc`: only its bottleneck configuration appears, as the client `PidScenario.BottleneckRun`.
