/** The PID queue discipline as a stateful object: one bounded FIFO of
    opaque items, the admission path in front of it, and the controller
    state that a periodic tick updates in place. Each scheduled callback
    of the source (the controller tick, the reference step) is a method
    here that the caller invokes; the uniform random draw of an enqueue
    and the external queue length sampled by a tick are parameters. */
module PidQueue {
  import opened PidControl

  datatype Option<T> = None | Some(value: T)

  /** The configuration fixed before the discipline starts. Queue sizes are
      counted in packets; the three instants only drive scheduling. */
  datatype Config = Config(
    gains: Gains,
    queueLimit: nat,     // forced-drop threshold of the internal queue
    qSizeRefEQ: nat,     // linearisation-equilibrium reference queue length
    qSizeRefDQ: nat,     // desired reference queue length after the step
    sUpdate: real,       // instant of the first controller tick
    tUpdate: real,       // period between controller ticks
    sStep: real)         // instant of the reference step change

  class PidQueueDisc<Item> {
    // configuration, never written after construction
    const config: Config
    const nClasses: nat          // queue-disc classes attached by the user
    const nFilters: nat          // packet filters attached by the user

    // composition and contents of the internal queue
    var nInternalQueues: nat
    var items: seq<Item>

    // drop statistics, keyed by reason
    var forcedDrops: nat
    var unforcedDrops: nat

    // controller state
    var qSizeRef: nat            // live set-point
    var qSize: nat               // last sampled external queue length
    var dropProb: real           // probability the early-drop test uses
    var dropProb0: real          // output of the latest tick, bias added, before saturation
    var dropProb1: real          // unsaturated output one tick back
    var dropProb2: real          // unsaturated output two ticks back
    var errQsize0: real          // queue-size error of the latest tick
    var errQsize1: real          // queue-size error one tick back
    var errQsize2: real          // queue-size error two ticks back

    /** Every queue-size error the controller has sampled since it was
        initialised, oldest first. */
    ghost var errors: seq<real>

    /** The invariant from initialisation on: one internal queue within
        its limit, a set-point that is one of the two references, and
        histories that agree with the reference calculator run over the
        sampled errors. Before the first tick the probability is the
        open-loop sentinel -1. */
    ghost predicate Valid()
      reads this
    {
      && nInternalQueues == 1
      && |items| <= config.queueLimit
      && (qSizeRef == config.qSizeRefEQ || qSizeRef == config.qSizeRefDQ)
      && dropProb1 == Unbiased(config.gains, errors, |errors| - 1)
      && dropProb2 == Unbiased(config.gains, errors, |errors| - 2)
      && errQsize1 == Err(errors, |errors| - 1)
      && errQsize2 == Err(errors, |errors| - 2)
      && (errors == [] ==> dropProb == -1.0)
      && (errors != [] ==>
            && errQsize0 == errQsize1
            && dropProb0 == dropProb1 + config.gains.u0
            && dropProb == Clamp(dropProb0)
            && dropProb == Controlled(config.gains, errors))
    }

    /** A discipline as the user has composed it, before it is checked and
        initialised; its internal queues are empty. */
    constructor (config: Config, nClasses: nat, nFilters: nat, nInternalQueues: nat)
      ensures this.config == config && this.nClasses == nClasses && this.nFilters == nFilters
      ensures this.nInternalQueues == nInternalQueues
      ensures items == [] && forcedDrops == 0 && unforcedDrops == 0
    {
      this.config := config;
      this.nClasses := nClasses;
      this.nFilters := nFilters;
      this.nInternalQueues := nInternalQueues;
      items := [];
      forcedDrops, unforcedDrops := 0, 0;
      qSizeRef, qSize := 0, 0;
      dropProb, dropProb0, dropProb1, dropProb2 := 0.0, 0.0, 0.0, 0.0;
      errQsize0, errQsize1, errQsize2 := 0.0, 0.0, 0.0;
      errors := [];
    }

    /** Refuses classes and packet filters; adds a drop-tail internal queue
        sized to the queue limit when none is attached; then demands exactly
        one internal queue. */
    method CheckConfig() returns (ok: bool)
      modifies this`nInternalQueues
      ensures ok <==> nClasses == 0 && nFilters == 0 && old(nInternalQueues) <= 1
      ensures nInternalQueues ==
                if nClasses == 0 && nFilters == 0 && old(nInternalQueues) == 0 then 1
                else old(nInternalQueues)
      ensures ok ==> nInternalQueues == 1
    {
      if nClasses > 0 {
        return false;
      }
      if nFilters > 0 {
        return false;
      }
      if nInternalQueues == 0 {
        nInternalQueues := 1;
      }
      if nInternalQueues != 1 {
        return false;
      }
      return true;
    }

    /** Opens the loop: probability at the sentinel -1, both histories
        zero, set-point at the equilibrium reference. */
    method InitializeParams()
      requires nInternalQueues == 1 && |items| <= config.queueLimit
      modifies this`dropProb, this`dropProb1, this`dropProb2, this`errQsize1, this`errQsize2,
               this`qSizeRef, this`errors
      ensures Valid()
      ensures dropProb == -1.0
      ensures dropProb1 == 0.0 && dropProb2 == 0.0 && errQsize1 == 0.0 && errQsize2 == 0.0
      ensures qSizeRef == config.qSizeRefEQ
      ensures errors == []
    {
      dropProb := -1.0;
      dropProb1 := 0.0;
      dropProb2 := 0.0;
      errQsize1 := 0.0;
      errQsize2 := 0.0;
      qSizeRef := config.qSizeRefEQ;
      errors := [];
    }

    /** Admission of `item`, with `v` the uniform draw the early-drop test
        consumes on every call. A full queue is a forced drop even when the
        early-drop test would also drop; below the limit the test decides
        between an unforced drop and an append at the tail. */
    method DoEnqueue(item: Item, v: real) returns (ok: bool)
      requires Valid()
      modifies this`items, this`forcedDrops, this`unforcedDrops
      ensures Valid()
      ensures |old(items)| == config.queueLimit ==>
                !ok && items == old(items)
                && forcedDrops == old(forcedDrops) + 1 && unforcedDrops == old(unforcedDrops)
      ensures |old(items)| < config.queueLimit && DropEarly(dropProb, v) ==>
                !ok && items == old(items)
                && forcedDrops == old(forcedDrops) && unforcedDrops == old(unforcedDrops) + 1
      ensures |old(items)| < config.queueLimit && !DropEarly(dropProb, v) ==>
                ok && items == old(items) + [item]
                && forcedDrops == old(forcedDrops) && unforcedDrops == old(unforcedDrops)
      ensures errors == [] && 0.0 <= v && |old(items)| < config.queueLimit ==> ok
    {
      var nQueued := |items|;
      var bv := DropEarly(dropProb, v);
      if nQueued == config.queueLimit {
        forcedDrops := forcedDrops + 1;
        return false;
      } else if bv {
        unforcedDrops := unforcedDrops + 1;
        return false;
      }
      items := items + [item];
      return true;
    }

    /** Removes and returns the head item; an empty queue yields nothing
        and is left as it is. */
    method DoDequeue() returns (r: Option<Item>)
      requires Valid()
      modifies this`items
      ensures Valid()
      ensures old(items) == [] ==> r == None && items == []
      ensures old(items) != [] ==> r == Some(old(items)[0]) && items == old(items)[1..]
    {
      if items == [] {
        return None;
      }
      r := Some(items[0]);
      items := items[1..];
    }

    /** One controller tick with `observed` the sampled external queue
        length: the error against the live set-point, the unsaturated
        output of the difference equation, the shift of both histories
        with that unbiased output, then the bias and the saturation. */
    method CalculateP(observed: nat)
      requires Valid()
      modifies this`qSize, this`dropProb, this`dropProb0, this`dropProb1, this`dropProb2,
               this`errQsize0, this`errQsize1, this`errQsize2, this`errors
      ensures Valid()
      ensures qSize == observed
      ensures errQsize0 == qSizeRef as real - observed as real
      ensures errors == old(errors) + [errQsize0]
      ensures dropProb1 == Unsaturated(config.gains, old(dropProb1), old(dropProb2),
                                       errQsize0, old(errQsize1), old(errQsize2))
      ensures dropProb2 == old(dropProb1)
      ensures errQsize1 == errQsize0 && errQsize2 == old(errQsize1)
      ensures dropProb0 == dropProb1 + config.gains.u0
      ensures dropProb == Clamp(dropProb0) && 0.0 <= dropProb <= 1.0
      ensures dropProb == Controlled(config.gains, errors)
    {
      qSize := observed;
      errQsize0 := qSizeRef as real - qSize as real;
      dropProb0 := Unsaturated(config.gains, dropProb1, dropProb2, errQsize0, errQsize1, errQsize2);

      UnbiasedStep(config.gains, errors, errQsize0);
      UnbiasedPrefix(config.gains, errors, errQsize0, |errors| - 1);
      errors := errors + [errQsize0];

      dropProb2 := dropProb1;
      dropProb1 := dropProb0;
      errQsize2 := errQsize1;
      errQsize1 := errQsize0;

      dropProb0 := config.gains.u0 + dropProb0;

      dropProb := Clamp(dropProb0);
    }

    /** The reference step: the set-point becomes the desired reference,
        whatever it was, so a second step changes nothing further. */
    method QSizeRefUpdate()
      requires Valid()
      modifies this`qSizeRef
      ensures Valid()
      ensures qSizeRef == config.qSizeRefDQ
    {
      qSizeRef := config.qSizeRefDQ;
    }
  }
}
