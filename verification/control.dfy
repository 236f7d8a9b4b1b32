/** The control law of one cycle: directional errors from the smoothed
    values, the dead-band, and the capped proportional step.

    The sketch computes the pre-cap step as a float product `Kp * err`
    truncated to an integer. Float rounding is not modelled: the product is
    a parameter `gain` of type `int -> int`, and the properties that need
    something of it say so through `FixesZero` and `SignPreserving`. */
module Control {
  import opened Config
  import opened Clamping

  /** Vertical (positive: brighter above) and horizontal (positive: brighter
      to the right) error. */
  datatype Errors = Errors(vert: int, horz: int)

  /** Pan and tilt step of one cycle, in degrees. */
  datatype Steps = Steps(pan: int, tilt: int)

  /** Half-sums of the smoothed values, top minus bottom and right minus
      left, each half-sum truncated. The inputs are non-negative, so the
      truncation is the sketch's. Each error is half the difference of the
      two quadrant sums, off by at most one half. */
  function Directional(s: Quad): (e: Errors)
    requires 0 <= s.tl && 0 <= s.tr && 0 <= s.bl && 0 <= s.br
    ensures -1 <= (s.tl + s.tr) - (s.bl + s.br) - 2 * e.vert <= 1
    ensures -1 <= (s.tr + s.br) - (s.tl + s.bl) - 2 * e.horz <= 1
  {
    var top := (s.tl + s.tr) / 2;
    var bottom := (s.bl + s.br) / 2;
    var left := (s.tl + s.bl) / 2;
    var right := (s.tr + s.br) / 2;
    Errors(top - bottom, right - left)
  }

  /** An error is positive only when its brighter side has the larger sum,
      negative only when the other side has, and zero when the sums agree. */
  lemma DirectionalSigns(s: Quad)
    requires 0 <= s.tl && 0 <= s.tr && 0 <= s.bl && 0 <= s.br
    ensures Directional(s).vert > 0 ==> s.tl + s.tr > s.bl + s.br
    ensures Directional(s).vert < 0 ==> s.tl + s.tr < s.bl + s.br
    ensures s.tl + s.tr == s.bl + s.br ==> Directional(s).vert == 0
    ensures Directional(s).horz > 0 ==> s.tr + s.br > s.tl + s.bl
    ensures Directional(s).horz < 0 ==> s.tr + s.br < s.tl + s.bl
    ensures s.tr + s.br == s.tl + s.bl ==> Directional(s).horz == 0
  {
  }

  /** Four equal smoothed values give no error on either axis. */
  lemma BalancedHasNoError(s: Quad)
    requires 0 <= s.tl && s.tl == s.tr == s.bl == s.br
    ensures Directional(s) == Errors(0, 0)
  {
  }

  /** Zeroes an error whose magnitude is strictly below `DeadBand`. What
      survives is either nothing or an unchanged error of magnitude at least
      `DeadBand`: no small non-zero error gets through. */
  function ApplyDeadBand(err: int): (r: int)
    ensures r == 0 || (r == err && Abs(r) >= DeadBand)
    ensures Abs(err) >= DeadBand ==> r == err
  {
    if Abs(err) < DeadBand then 0 else err
  }

  /** The threshold is exclusive: 29 is zeroed, 30 is kept, on either side. */
  lemma DeadBandBoundary()
    ensures ApplyDeadBand(29) == 0 && ApplyDeadBand(-29) == 0
    ensures ApplyDeadBand(30) == 30 && ApplyDeadBand(-30) == -30
  {
  }

  /** The dead-band is idempotent and symmetric about zero. */
  lemma DeadBandIdempotentOdd(err: int)
    ensures ApplyDeadBand(ApplyDeadBand(err)) == ApplyDeadBand(err)
    ensures ApplyDeadBand(-err) == -ApplyDeadBand(err)
  {
  }

  /** Both directional errors after the dead-band. */
  function BandedErrors(s: Quad): (e: Errors)
    requires 0 <= s.tl && 0 <= s.tr && 0 <= s.bl && 0 <= s.br
    ensures e.vert == 0 || Abs(e.vert) >= DeadBand
    ensures e.horz == 0 || Abs(e.horz) >= DeadBand
  {
    var raw := Directional(s);
    Errors(ApplyDeadBand(raw.vert), ApplyDeadBand(raw.horz))
  }

  /** Saturates a step to `[-MaxStep, MaxStep]`, upper bound first. A step
      already in range is kept, and the sign of the step is never changed. */
  function CapStep(step: int): (r: int)
    ensures Abs(r) <= MaxStep
    ensures Abs(step) <= MaxStep ==> r == step
    ensures step > MaxStep ==> r == MaxStep
    ensures step < -MaxStep ==> r == -MaxStep
    ensures (r > 0 <==> step > 0) && (r < 0 <==> step < 0)
  {
    var s := if step > MaxStep then MaxStep else step;
    if s < -MaxStep then -MaxStep else s
  }

  /** The two-sided cap is the position clamp applied to the step range. */
  lemma CapIsClamp(step: int)
    ensures CapStep(step) == Clamp(step, -MaxStep, MaxStep)
  {
  }

  /** The gain maps a zero error to a zero step. */
  predicate FixesZero(gain: int -> int) {
    gain(0) == 0
  }

  /** The gain never turns an error against its sign, as truncating
      `Kp * err` with a positive `Kp` does not. */
  ghost predicate SignPreserving(gain: int -> int) {
    forall e :: (e > 0 ==> gain(e) >= 0) && (e < 0 ==> gain(e) <= 0) && (e == 0 ==> gain(e) == 0)
  }

  /** The capped steps: pan follows the horizontal error, tilt the vertical
      one. */
  function StepsFor(e: Errors, gain: int -> int): (st: Steps)
    ensures Abs(st.pan) <= MaxStep && Abs(st.tilt) <= MaxStep
    ensures FixesZero(gain) && e.horz == 0 ==> st.pan == 0
    ensures FixesZero(gain) && e.vert == 0 ==> st.tilt == 0
    ensures SignPreserving(gain) ==> (e.horz >= 0 ==> st.pan >= 0) && (e.horz <= 0 ==> st.pan <= 0)
    ensures SignPreserving(gain) ==> (e.vert >= 0 ==> st.tilt >= 0) && (e.vert <= 0 ==> st.tilt <= 0)
  {
    Steps(CapStep(gain(e.horz)), CapStep(gain(e.vert)))
  }
}
