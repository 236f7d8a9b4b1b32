/** Configuration of the tracker and the shape of one sensor sample.

    The constants are the deployment values fixed at the top of the sketch:
    the asymmetric mechanical stops of the two axes, the dead-band, the per-cycle
    step cap and the size of the smoothing window. The sketch declares most of
    them as plain `int` globals, but nothing ever assigns them, so they are
    constants here. */
module Config {

  /** Mechanical stops of the pan axis, in degrees. */
  const PanMin: int := 10
  const PanMax: int := 170

  /** Mechanical stops of the tilt axis, in degrees. */
  const TiltMin: int := 20
  const TiltMax: int := 160

  /** Both axes start centred here, away from the stops. */
  const StartAngle: int := 90

  /** Errors whose magnitude is strictly below this are ignored. */
  const DeadBand: int := 30

  /** Largest angular step, in degrees, taken in one cycle. */
  const MaxStep: int := 3

  /** Capacity of each rolling window. */
  const NSamples: nat := 5

  /** Largest value a light sensor channel reports (a 10-bit converter). */
  const ReadingMax: int := 1023

  /** The four light sensors, by quadrant. */
  datatype Corner = TL | TR | BL | BR

  /** One value per quadrant: a raw sample, or the four smoothed values. */
  datatype Quad = Quad(tl: int, tr: int, bl: int, br: int) {

    /** The value of one quadrant. */
    function At(c: Corner): int {
      match c
      case TL => tl
      case TR => tr
      case BL => bl
      case BR => br
    }
  }

  /** A value a sensor channel can produce. */
  predicate InReadingRange(x: int) {
    0 <= x <= ReadingMax
  }

  /** Every quadrant of `q` is a value a sensor channel can produce. */
  predicate ReadingOk(q: Quad) {
    InReadingRange(q.tl) && InReadingRange(q.tr) && InReadingRange(q.bl) && InReadingRange(q.br)
  }

  /** The deployment values, and the relations between them the control
      law relies on: both stop ranges are non-empty and contain the start
      angle, the step cap is positive and smaller than the dead-band, and
      the window holds at least one sample. */
  lemma Settings()
    ensures PanMin == 10 && PanMax == 170 && TiltMin == 20 && TiltMax == 160
    ensures StartAngle == 90 && DeadBand == 30 && MaxStep == 3
    ensures NSamples == 5 && ReadingMax == 1023
    ensures PanMin <= StartAngle <= PanMax && TiltMin <= StartAngle <= TiltMax
    ensures 0 < MaxStep < DeadBand && 0 < NSamples
  {
  }

  /** Headroom for the sketch's integer types, so the model may use
      unbounded integers: the averaging accumulator (a 32-bit `long`) holds
      the sum of a full window, the 16-bit `int` holds every half-sum and
      every angle plus or minus a step, and the window index fits a byte. */
  lemma NoOverflow()
    ensures NSamples * ReadingMax <= 0x7FFF_FFFF
    ensures ReadingMax + ReadingMax <= 0x7FFF
    ensures -0x8000 <= PanMin - MaxStep && PanMax + MaxStep <= 0x7FFF
    ensures -0x8000 <= TiltMin - MaxStep && TiltMax + MaxStep <= 0x7FFF
    ensures NSamples <= 0xFF
  {
  }
}
