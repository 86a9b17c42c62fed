/** The pure arithmetic of the PID active-queue-management discipline: the
    difference equation of the discrete controller, the saturation of its
    output to a probability, the early-drop verdict, the two drop reasons,
    and a reference calculator that evaluates the recurrence by index from a
    whole sequence of queue-size errors, without any stored state.
    Quantities the source holds as `double` are `real` here. */
module PidControl {

  /** The user-supplied coefficients of the difference equation and the
      linearisation-equilibrium drop ratio `u0`. */
  datatype Gains = Gains(a: real, b: real, c: real, d: real, e: real, u0: real)

  /** The two reasons a packet is refused on enqueue. */
  datatype DropReason = UnforcedDrop | ForcedDrop

  /** The label under which the queue statistics count a drop. */
  function Label(r: DropReason): string
  {
    match r
    case UnforcedDrop => "Unforced drop"
    case ForcedDrop => "Forced drop"
  }

  /** Statistics keyed by label never mix the two reasons. */
  lemma LabelsDistinct(r1: DropReason, r2: DropReason)
    ensures Label(r1) == Label(r2) <==> r1 == r2
  {
  }

  /** The unsaturated controller output of one tick, from the two previous
      unsaturated outputs `u1`, `u2`, the current error `e0` and the two
      previous errors `e1`, `e2`. */
  function Unsaturated(g: Gains, u1: real, u2: real, e0: real, e1: real, e2: real): real
  {
    g.a * u1 + g.b * u2 + g.c * e0 + g.d * e1 + g.e * e2
  }

  /** Saturation of a controller output to a probability. */
  function Clamp(x: real): (p: real)
    ensures 0.0 <= p <= 1.0
    ensures x <= 0.0 ==> p == 0.0
    ensures 1.0 <= x ==> p == 1.0
    ensures 0.0 < x < 1.0 ==> p == x
  {
    var pp := if x <= 0.0 then 0.0 else x;
    if pp <= 1.0 then pp else 1.0
  }

  /** The early-drop verdict for drop probability `p` and a uniform draw `v`
      in [0,1): false means admit, true means drop. */
  function DropEarly(p: real, v: real): (drop: bool)
    ensures drop <==> v <= p
    ensures p < 0.0 <= v ==> !drop
    ensures 1.0 <= p && v < 1.0 ==> drop
  {
    if p < v then false else true
  }

  /** The `i`-th recorded error, and zero for indices before the first tick. */
  function Err(errs: seq<real>, i: int): real
  {
    if 0 <= i < |errs| then errs[i] else 0.0
  }

  /** Reference calculator: the unsaturated output of tick `i` (counting
      from 0) when the errors of the ticks are `errs`, with all history
      before the first tick taken as zero. */
  function Unbiased(g: Gains, errs: seq<real>, i: int): real
    decreases i
  {
    if i < 0 then 0.0
    else Unsaturated(g, Unbiased(g, errs, i - 1), Unbiased(g, errs, i - 2),
                     Err(errs, i), Err(errs, i - 1), Err(errs, i - 2))
  }

  /** Reference calculator: the drop probability after the ticks whose
      errors are `errs`, bias added to the unsaturated output, then clamped. */
  function Controlled(g: Gains, errs: seq<real>): (p: real)
    requires |errs| > 0
    ensures 0.0 <= p <= 1.0
  {
    Clamp(Unbiased(g, errs, |errs| - 1) + g.u0)
  }

  /** A later error never changes an earlier output. */
  lemma {:induction false} UnbiasedPrefix(g: Gains, errs: seq<real>, x: real, i: int)
    requires i < |errs|
    ensures Unbiased(g, errs + [x], i) == Unbiased(g, errs, i)
    decreases i
  {
    if i >= 0 {
      UnbiasedPrefix(g, errs, x, i - 1);
      UnbiasedPrefix(g, errs, x, i - 2);
      assert Err(errs + [x], i) == Err(errs, i);
      assert Err(errs + [x], i - 1) == Err(errs, i - 1);
      assert Err(errs + [x], i - 2) == Err(errs, i - 2);
    }
  }

  /** One more error adds one output, computed from exactly two steps of
      output history and two steps of error history. */
  lemma UnbiasedStep(g: Gains, errs: seq<real>, x: real)
    ensures Unbiased(g, errs + [x], |errs|)
         == Unsaturated(g, Unbiased(g, errs, |errs| - 1), Unbiased(g, errs, |errs| - 2),
                        x, Err(errs, |errs| - 1), Err(errs, |errs| - 2))
  {
    var n := |errs|;
    UnbiasedPrefix(g, errs, x, n - 1);
    UnbiasedPrefix(g, errs, x, n - 2);
    assert Err(errs + [x], n) == x;
    assert Err(errs + [x], n - 1) == Err(errs, n - 1);
    assert Err(errs + [x], n - 2) == Err(errs, n - 2);
  }

  /** While every sampled queue length has equalled the reference, the
      unsaturated output stays at zero. */
  lemma {:induction false} UnbiasedAtReference(g: Gains, errs: seq<real>, i: int)
    requires forall j :: 0 <= j < |errs| ==> errs[j] == 0.0
    ensures Unbiased(g, errs, i) == 0.0
    decreases i
  {
    if i >= 0 {
      UnbiasedAtReference(g, errs, i - 1);
      UnbiasedAtReference(g, errs, i - 2);
      assert Err(errs, i) == 0.0 && Err(errs, i - 1) == 0.0 && Err(errs, i - 2) == 0.0;
    }
  }

  /** At the reference queue length the controller drops with the
      linearisation-equilibrium ratio `u0`, saturated. */
  lemma EquilibriumDropRatio(g: Gains, errs: seq<real>)
    requires |errs| > 0
    requires forall j :: 0 <= j < |errs| ==> errs[j] == 0.0
    ensures Controlled(g, errs) == Clamp(g.u0)
    ensures 0.0 <= g.u0 <= 1.0 ==> Controlled(g, errs) == g.u0
  {
    UnbiasedAtReference(g, errs, |errs| - 1);
  }

  /** The first tick sees zero history, so only the proportional term of
      the current error and the bias contribute. */
  lemma FirstTick(g: Gains, e0: real)
    ensures Controlled(g, [e0]) == Clamp(g.c * e0 + g.u0)
  {
    assert Unbiased(g, [e0], -1) == 0.0 && Unbiased(g, [e0], -2) == 0.0;
    assert Err([e0], 0) == e0 && Err([e0], -1) == 0.0 && Err([e0], -2) == 0.0;
  }
}
