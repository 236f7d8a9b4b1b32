/** The tracker's persistent state and the per-cycle transition of `loop`:
    push the readings, smooth, compute the banded errors and the capped
    steps, and move each angle by its step, clamped to its stops. */
module Tracker {
  import opened Config
  import opened Clamping
  import opened Smoothing
  import opened Control

  /** Where the tracker points, and the smoothing windows. */
  datatype Tracker = Tracker(pan: int, tilt: int, windows: Windows)

  predicate AnglesInRange(t: Tracker) {
    PanMin <= t.pan <= PanMax && TiltMin <= t.tilt <= TiltMax
  }

  /** The state `setup` leaves behind: both axes centred, and the windows
      seeded with the one reading taken at start-up. */
  function Startup(q: Quad): (t: Tracker)
    requires ReadingOk(q)
    ensures AnglesInRange(t) && Healthy(t.windows)
    ensures Smoothed(t.windows) == q
  {
    SeedFixedPoint(q, 0);
    Tracker(StartAngle, StartAngle, Seed(q))
  }

  /** Moves each angle by its step and saturates it at its stops. */
  function Apply(t: Tracker, st: Steps): (t': Tracker)
    ensures AnglesInRange(t')
    ensures t'.windows == t.windows
    ensures AnglesInRange(t) ==> Abs(t'.pan - t.pan) <= Abs(st.pan) && Abs(t'.tilt - t.tilt) <= Abs(st.tilt)
  {
    Tracker(Clamp(t.pan + st.pan, PanMin, PanMax), Clamp(t.tilt + st.tilt, TiltMin, TiltMax), t.windows)
  }

  /** The steps one cycle takes, given the windows after the push. */
  function CycleSteps(w: Windows, gain: int -> int): (st: Steps)
    requires Healthy(w)
    ensures Abs(st.pan) <= MaxStep && Abs(st.tilt) <= MaxStep
  {
    StepsFor(BandedErrors(Smoothed(w)), gain)
  }

  /** One pass of `loop` on the readings `q`. Whatever the readings and the
      gain, both angles end inside their stops; an angle that started inside
      moves by at most `MaxStep`; the windows stay well formed. */
  function Cycle(t: Tracker, q: Quad, gain: int -> int): (t': Tracker)
    requires Healthy(t.windows) && ReadingOk(q)
    ensures Healthy(t'.windows)
    ensures AnglesInRange(t')
    ensures AnglesInRange(t) ==> Abs(t'.pan - t.pan) <= MaxStep && Abs(t'.tilt - t.tilt) <= MaxStep
  {
    var w := PushQuad(t.windows, q);
    Apply(Tracker(t.pan, t.tilt, w), CycleSteps(w, gain))
  }

  /** Inside the dead-band the tracker holds still: when both raw errors of
      the cycle are smaller than `DeadBand` and the gain maps zero to zero,
      neither angle changes. */
  lemma HoldsInsideDeadBand(t: Tracker, q: Quad, gain: int -> int)
    requires Healthy(t.windows) && ReadingOk(q) && AnglesInRange(t)
    requires FixesZero(gain)
    requires Abs(Directional(Smoothed(PushQuad(t.windows, q))).vert) < DeadBand
    requires Abs(Directional(Smoothed(PushQuad(t.windows, q))).horz) < DeadBand
    ensures Cycle(t, q, gain).pan == t.pan && Cycle(t, q, gain).tilt == t.tilt
  {
  }

  /** Four equal smoothed values hold the tracker still. */
  lemma HoldsWhenBalanced(t: Tracker, q: Quad, gain: int -> int)
    requires Healthy(t.windows) && ReadingOk(q) && AnglesInRange(t)
    requires FixesZero(gain)
    requires var s := Smoothed(PushQuad(t.windows, q)); s.tl == s.tr == s.bl == s.br
    ensures Cycle(t, q, gain).pan == t.pan && Cycle(t, q, gain).tilt == t.tilt
  {
    BalancedHasNoError(Smoothed(PushQuad(t.windows, q)));
    HoldsInsideDeadBand(t, q, gain);
  }

  /** With a sign-preserving gain each angle moves only toward the side the
      cycle's error points to: never against a positive or a negative
      error, and not at all when the banded error is zero. */
  lemma FollowsError(t: Tracker, q: Quad, gain: int -> int)
    requires Healthy(t.windows) && ReadingOk(q) && AnglesInRange(t)
    requires SignPreserving(gain)
    ensures var e := BandedErrors(Smoothed(PushQuad(t.windows, q)));
            var t' := Cycle(t, q, gain);
            && (e.horz > 0 ==> t'.pan >= t.pan) && (e.horz < 0 ==> t'.pan <= t.pan)
            && (e.vert > 0 ==> t'.tilt >= t.tilt) && (e.vert < 0 ==> t'.tilt <= t.tilt)
            && (e.horz == 0 ==> t'.pan == t.pan) && (e.vert == 0 ==> t'.tilt == t.tilt)
  {
    var w := PushQuad(t.windows, q);
    var st := CycleSteps(w, gain);
    assert gain(0) == 0;
    ClampedMove(t.pan, st.pan, PanMin, PanMax);
    ClampedMove(t.tilt, st.tilt, TiltMin, TiltMax);
  }

  /** Runs one cycle per reading of `qs`, in order. Over the whole run the
      windows stay well formed, and the angles stay inside their stops
      (after at least one cycle, or from the start if they began there). */
  function Run(t: Tracker, qs: seq<Quad>, gain: int -> int): (t': Tracker)
    requires Healthy(t.windows) && AllReadingsOk(qs)
    ensures Healthy(t'.windows)
    ensures |qs| > 0 || AnglesInRange(t) ==> AnglesInRange(t')
  {
    if |qs| == 0 then t
    else
      var init := qs[..|qs| - 1];
      assert AllReadingsOk(init);
      Cycle(Run(t, init, gain), qs[|qs| - 1], gain)
  }

  /** An angle that begins inside its stops drifts by at most `MaxStep`
      per cycle over any run. */
  lemma {:induction false} RunDrift(t: Tracker, qs: seq<Quad>, gain: int -> int)
    requires Healthy(t.windows) && AllReadingsOk(qs) && AnglesInRange(t)
    ensures var t' := Run(t, qs, gain);
            && t.pan - MaxStep * |qs| <= t'.pan <= t.pan + MaxStep * |qs|
            && t.tilt - MaxStep * |qs| <= t'.tilt <= t.tilt + MaxStep * |qs|
  {
    if |qs| > 0 {
      var init := qs[..|qs| - 1];
      assert AllReadingsOk(init);
      RunDrift(t, init, gain);
      var p := Run(t, init, gain);
      var t' := Run(t, qs, gain);
      assert t' == Cycle(p, qs[|qs| - 1], gain);
      assert -MaxStep <= t'.pan - p.pan <= MaxStep;
      assert -MaxStep <= t'.tilt - p.tilt <= MaxStep;
      assert MaxStep * |qs| == MaxStep * |init| + MaxStep;
    }
  }

  /** The steps taken by cycle `i` of a run: those computed from the
      windows after the first `i` cycles with reading `qs[i]` pushed. */
  function StepAt(t: Tracker, qs: seq<Quad>, gain: int -> int, i: nat): (st: Steps)
    requires Healthy(t.windows) && AllReadingsOk(qs) && i < |qs|
    ensures Abs(st.pan) <= MaxStep && Abs(st.tilt) <= MaxStep
  {
    assert AllReadingsOk(qs[..i]);
    CycleSteps(PushQuad(Run(t, qs[..i], gain).windows, qs[i]), gain)
  }

  /** The first `n` cycles of a run take the same steps as the whole run's
      first `n` cycles. */
  lemma StepAtPrefix(t: Tracker, qs: seq<Quad>, gain: int -> int, n: nat, i: nat)
    requires Healthy(t.windows) && AllReadingsOk(qs) && i < n <= |qs|
    ensures AllReadingsOk(qs[..n])
    ensures StepAt(t, qs[..n], gain, i) == StepAt(t, qs, gain, i)
  {
    assert qs[..n][..i] == qs[..i];
  }

  /** When every cycle of a run takes the same pan step `d`, the pan angle
      follows the clamped iteration `Drive`: so by `DriveSaturates` and
      `DriveSaturatesLow` a persistent step drives the pan monotonically
      to a stop and holds it there. */
  lemma {:induction false} RunPanIsDrive(t: Tracker, qs: seq<Quad>, gain: int -> int, d: int)
    requires Healthy(t.windows) && AllReadingsOk(qs)
    requires forall i :: 0 <= i < |qs| ==> StepAt(t, qs, gain, i).pan == d
    ensures Run(t, qs, gain).pan == Drive(t.pan, d, PanMin, PanMax, |qs|)
  {
    if |qs| > 0 {
      var n := |qs| - 1;
      var init := qs[..n];
      forall i | 0 <= i < n
        ensures StepAt(t, init, gain, i).pan == d
      {
        StepAtPrefix(t, qs, gain, n, i);
      }
      RunPanIsDrive(t, init, gain, d);
      assert StepAt(t, qs, gain, n).pan == d;
    }
  }

  /** The tilt counterpart of `RunPanIsDrive`. */
  lemma {:induction false} RunTiltIsDrive(t: Tracker, qs: seq<Quad>, gain: int -> int, d: int)
    requires Healthy(t.windows) && AllReadingsOk(qs)
    requires forall i :: 0 <= i < |qs| ==> StepAt(t, qs, gain, i).tilt == d
    ensures Run(t, qs, gain).tilt == Drive(t.tilt, d, TiltMin, TiltMax, |qs|)
  {
    if |qs| > 0 {
      var n := |qs| - 1;
      var init := qs[..n];
      forall i | 0 <= i < n
        ensures StepAt(t, init, gain, i).tilt == d
      {
        StepAtPrefix(t, qs, gain, n, i);
      }
      RunTiltIsDrive(t, init, gain, d);
      assert StepAt(t, qs, gain, n).tilt == d;
    }
  }

  /** Saturation of the tracker itself: a pan step that stays at `d` for a
      whole run carries the pan to the upper stop (for `d > 0`) or to the
      lower stop (for `d < 0`) once the run is long enough, and the pan
      never leaves its stops on the way. */
  lemma PanSaturates(t: Tracker, qs: seq<Quad>, gain: int -> int, d: int)
    requires Healthy(t.windows) && AllReadingsOk(qs) && AnglesInRange(t)
    requires forall i :: 0 <= i < |qs| ==> StepAt(t, qs, gain, i).pan == d
    ensures d > 0 && |qs| * d >= PanMax - t.pan ==> Run(t, qs, gain).pan == PanMax
    ensures d < 0 && |qs| * d <= PanMin - t.pan ==> Run(t, qs, gain).pan == PanMin
  {
    RunPanIsDrive(t, qs, gain, d);
    if d > 0 {
      DriveSaturates(t.pan, d, PanMin, PanMax, |qs|);
    } else if d < 0 {
      DriveSaturatesLow(t.pan, d, PanMin, PanMax, |qs|);
    }
  }

  /** The tilt counterpart of `PanSaturates`. */
  lemma TiltSaturates(t: Tracker, qs: seq<Quad>, gain: int -> int, d: int)
    requires Healthy(t.windows) && AllReadingsOk(qs) && AnglesInRange(t)
    requires forall i :: 0 <= i < |qs| ==> StepAt(t, qs, gain, i).tilt == d
    ensures d > 0 && |qs| * d >= TiltMax - t.tilt ==> Run(t, qs, gain).tilt == TiltMax
    ensures d < 0 && |qs| * d <= TiltMin - t.tilt ==> Run(t, qs, gain).tilt == TiltMin
  {
    RunTiltIsDrive(t, qs, gain, d);
    if d > 0 {
      DriveSaturates(t.tilt, d, TiltMin, TiltMax, |qs|);
    } else if d < 0 {
      DriveSaturatesLow(t.tilt, d, TiltMin, TiltMax, |qs|);
    }
  }

  /** A tracker that is balanced from the start stays put: seeded with a
      reading whose four quadrants agree and fed that same reading every
      cycle, it never leaves the start position. */
  lemma {:induction false} SteadyLightSteadyTracker(q: Quad, k: nat, gain: int -> int)
    requires ReadingOk(q) && q.tl == q.tr == q.bl == q.br
    requires FixesZero(gain)
    ensures Run(Startup(q), Repeat(q, k), gain).pan == StartAngle
    ensures Run(Startup(q), Repeat(q, k), gain).tilt == StartAngle
    ensures Run(Startup(q), Repeat(q, k), gain).windows == PushQuadAll(Seed(q), Repeat(q, k))
  {
    if k > 0 {
      var init := Repeat(q, k - 1);
      assert Repeat(q, k)[..k - 1] == init;
      SteadyLightSteadyTracker(q, k - 1, gain);
      var t := Run(Startup(q), init, gain);
      SeedFixedPoint(q, k);
      HoldsWhenBalanced(t, q, gain);
    }
  }
}
