/** A worked cycle: the windows are seeded with 500 on every sensor, then
    one cycle reads 900 on the top-left sensor and 500 on the others. */
module Scenarios {
  import opened Config
  import opened Smoothing
  import opened Control
  import opened Tracker

  /** The top-left window averages (4 * 500 + 900) / 5 = 580, which raises
      the top and the left half-sums to 540: the vertical error is +40 and
      the horizontal one -40, both outside the dead-band. Each angle then
      moves from 90 by exactly its capped step. With the sketch's gain of
      0.015 both products are 0.6 in magnitude and truncate to zero, so the
      tracker holds still despite the non-zero errors. */
  lemma OneBrightCorner(gain: int -> int)
    ensures var t := Startup(Quad(500, 500, 500, 500));
            var q := Quad(900, 500, 500, 500);
            var t' := Cycle(t, q, gain);
            && Smoothed(PushQuad(t.windows, q)) == Quad(580, 500, 500, 500)
            && BandedErrors(Smoothed(PushQuad(t.windows, q))) == Errors(40, -40)
            && t'.pan == 90 + CapStep(gain(-40))
            && t'.tilt == 90 + CapStep(gain(40))
            && (gain(40) == 0 && gain(-40) == 0 ==> t'.pan == 90 && t'.tilt == 90)
  {
    var t := Startup(Quad(500, 500, 500, 500));
    var q := Quad(900, 500, 500, 500);
    var w := PushQuad(t.windows, q);
    assert Channel(w, TL) == Push(SeedRing(500), 900);
    assert Channel(w, TR) == Push(SeedRing(500), 500);
    assert Channel(w, BL) == Push(SeedRing(500), 500);
    assert Channel(w, BR) == Push(SeedRing(500), 500);
    SeededThenOne(500, 900);
    SeededThenOne(500, 500);
    assert Smoothed(w) == Quad(580, 500, 500, 500);
  }
}
