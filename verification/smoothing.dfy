/** The rolling-window smoothing filter.

    The sketch keeps four parallel arrays of `NSamples` slots that share one
    write index and one saturation flag. `Ring` is the view of a single
    channel (its slots, the shared index and the shared flag); `Windows` is
    the four channels together, and `Channel` projects one `Ring` out of it.
    `Window` is the abstraction the proofs rest on: the samples the ring
    holds, oldest first. */
module Smoothing {
  import opened Config

  /** Sum of a sequence, accumulated left to right. */
  function Sum(s: seq<int>): int
  {
    if |s| == 0 then 0 else Sum(s[..|s| - 1]) + s[|s| - 1]
  }

  lemma {:induction false} SumAppend(a: seq<int>, b: seq<int>)
    ensures Sum(a + b) == Sum(a) + Sum(b)
  {
    if |b| > 0 {
      assert (a + b)[..|a + b| - 1] == a + b[..|b| - 1];
      SumAppend(a, b[..|b| - 1]);
    } else {
      assert a + b == a;
    }
  }

  /** All entries of `s` lie in `[lo, hi]`. */
  predicate Within(s: seq<int>, lo: int, hi: int) {
    forall j :: 0 <= j < |s| ==> lo <= s[j] <= hi
  }

  predicate Nonneg(s: seq<int>) {
    forall j :: 0 <= j < |s| ==> 0 <= s[j]
  }

  lemma {:induction false} SumWithin(s: seq<int>, lo: int, hi: int)
    requires Within(s, lo, hi)
    ensures |s| * lo <= Sum(s) <= |s| * hi
  {
    if |s| > 0 {
      var init := s[..|s| - 1];
      assert Within(init, lo, hi);
      SumWithin(init, lo, hi);
      assert |s| * lo == |init| * lo + lo;
      assert |s| * hi == |init| * hi + hi;
    }
  }

  lemma {:induction false} SumNonneg(s: seq<int>)
    requires Nonneg(s)
    ensures Sum(s) >= 0
  {
    if |s| > 0 {
      SumNonneg(s[..|s| - 1]);
    }
  }

  lemma MulLe(n: int, a: int, b: int)
    requires n >= 0 && a <= b
    ensures n * a <= n * b
  {
    assert n * b - n * a == n * (b - a);
  }

  /** Integer division by a positive count keeps bounds that hold of the
      count-weighted total. */
  lemma DivWithin(total: int, n: int, lo: int, hi: int)
    requires n > 0
    requires n * lo <= total <= n * hi
    ensures lo <= total / n <= hi
  {
    var q := total / n;
    assert total == n * q + total % n;
    if q < lo {
      MulLe(n, q + 1, lo);
      assert false;
    }
    if q > hi {
      MulLe(n, hi + 1, q);
      assert false;
    }
  }

  /** `k` copies of `v`. */
  function Repeat<T>(v: T, k: nat): (r: seq<T>)
    ensures |r| == k
    ensures forall j :: 0 <= j < k ==> r[j] == v
  {
    seq(k, _ => v)
  }

  /** The truncating mean of a non-empty, non-negative sequence. */
  function Mean(s: seq<int>): (m: int)
    requires |s| > 0
    requires Nonneg(s)
    ensures forall lo, hi :: Within(s, lo, hi) ==> lo <= m <= hi
  {
    assert forall lo, hi :: Within(s, lo, hi) ==> |s| * lo <= Sum(s) <= |s| * hi by {
      forall lo, hi | Within(s, lo, hi) ensures |s| * lo <= Sum(s) <= |s| * hi {
        SumWithin(s, lo, hi);
      }
    }
    assert forall lo, hi :: Within(s, lo, hi) ==> lo <= Sum(s) / |s| <= hi by {
      forall lo, hi | Within(s, lo, hi) ensures lo <= Sum(s) / |s| <= hi {
        SumWithin(s, lo, hi);
        DivWithin(Sum(s), |s|, lo, hi);
      }
    }
    Sum(s) / |s|
  }

  /** The last `NSamples` elements of `s`, or all of `s` when it is shorter. */
  function LastN(s: seq<int>): (r: seq<int>)
    ensures |r| == if |s| <= NSamples then |s| else NSamples
  {
    if |s| <= NSamples then s else s[|s| - NSamples..]
  }

  lemma LastNSnoc(s: seq<int>, x: int)
    ensures LastN(LastN(s) + [x]) == LastN(s + [x])
  {
  }

  /** One channel's rolling window: `NSamples` slots, the index of the slot
      the next sample goes to, and whether every slot has been written. */
  datatype Ring = Ring(buf: seq<int>, index: nat, full: bool)

  predicate Valid(r: Ring) {
    |r.buf| == NSamples && r.index < NSamples
  }

  /** How many slots the average divides by: all of them once the window
      is saturated, otherwise the number written so far, with zero replaced
      by one so that the division is always defined. */
  function Divisor(index: nat, full: bool): (n: nat)
    requires index < NSamples
    ensures 1 <= n <= NSamples
    ensures full ==> n == NSamples
    ensures !full ==> n == if index == 0 then 1 else index
  {
    var n := if full then NSamples else index;
    if n == 0 then 1 else n
  }

  /** The truncating mean of the first `n` non-negative slots is
      non-negative. */
  lemma PrefixMeanNonneg(buf: seq<int>, n: nat)
    requires 0 < n <= |buf| && Nonneg(buf)
    ensures 0 <= Sum(buf[..n]) / n
  {
    assert Nonneg(buf[..n]);
    SumNonneg(buf[..n]);
  }

  /** The truncating mean of the first `n` slots of readings is a reading. */
  lemma PrefixMeanInRange(buf: seq<int>, n: nat)
    requires 0 < n <= |buf|
    ensures Within(buf, 0, ReadingMax) ==> InReadingRange(Sum(buf[..n]) / n)
  {
    if Within(buf, 0, ReadingMax) {
      assert Within(buf[..n], 0, ReadingMax);
      SumWithin(buf[..n], 0, ReadingMax);
      DivWithin(Sum(buf[..n]), n, 0, ReadingMax);
    }
  }

  /** The mean of the first slot alone is that slot. */
  lemma PrefixMeanOne(buf: seq<int>)
    requires 0 < |buf|
    ensures Sum(buf[..1]) / 1 == buf[0]
  {
    assert buf[..1] == buf[..0] + [buf[0]];
  }

  /** The smoothed value of a channel: the truncating mean of its first
      `Divisor` slots. The entries are non-negative, so the division
      truncates toward zero as the sketch's does. */
  function Avg(r: Ring): (a: int)
    requires Valid(r) && Nonneg(r.buf)
    ensures 0 <= a
    ensures Within(r.buf, 0, ReadingMax) ==> InReadingRange(a)
    ensures !r.full && r.index == 0 ==> a == r.buf[0]
  {
    var n := Divisor(r.index, r.full);
    PrefixMeanNonneg(r.buf, n);
    PrefixMeanInRange(r.buf, n);
    PrefixMeanOne(r.buf);
    Sum(r.buf[..n]) / n
  }

  /** The averaging loop of the sketch: accumulates the first `Divisor`
      slots one at a time, then divides. */
  method ComputeAvg(r: Ring) returns (a: int)
    requires Valid(r) && Nonneg(r.buf)
    ensures a == Avg(r)
  {
    var n: nat := if r.full then NSamples else r.index;
    if n == 0 {
      n := 1;
    }
    var sum := 0;
    var i := 0;
    while i < n
      invariant 0 <= i <= n
      invariant sum == Sum(r.buf[..i])
    {
      assert r.buf[..i + 1][..i] == r.buf[..i];
      sum := sum + r.buf[i];
      i := i + 1;
    }
    a := sum / n;
  }

  /** The result lies between any bounds that hold of the entries averaged. */
  lemma AvgWithin(r: Ring, lo: int, hi: int)
    requires Valid(r) && Nonneg(r.buf)
    requires Within(r.buf[..Divisor(r.index, r.full)], lo, hi)
    ensures lo <= Avg(r) <= hi
  {
    var n := Divisor(r.index, r.full);
    SumWithin(r.buf[..n], lo, hi);
    DivWithin(Sum(r.buf[..n]), n, lo, hi);
  }

  /** Writes `x` into the current slot and advances the index, wrapping to
      zero and marking the window saturated at the end. */
  function Push(r: Ring, x: int): (r': Ring)
    requires Valid(r)
    ensures Valid(r')
    ensures r'.buf[r.index] == x
    ensures forall j :: 0 <= j < NSamples && j != r.index ==> r'.buf[j] == r.buf[j]
    ensures r'.index == (r.index + 1) % NSamples
    ensures r'.full <==> r.full || r'.index == 0
    ensures Nonneg(r.buf) && 0 <= x ==> Nonneg(r'.buf)
    ensures Within(r.buf, 0, ReadingMax) && InReadingRange(x) ==> Within(r'.buf, 0, ReadingMax)
  {
    var buf := r.buf[r.index := x];
    var next := r.index + 1;
    if next >= NSamples then Ring(buf, 0, true) else Ring(buf, next, r.full)
  }

  /** The samples the ring holds, oldest first: after a wrap the oldest
      sample is the one about to be overwritten. */
  function Window(r: Ring): (w: seq<int>)
    requires Valid(r)
    ensures |w| == if r.full then NSamples else r.index
  {
    if r.full then
      r.buf[r.index..] + r.buf[..r.index]
    else
      r.buf[..r.index]
  }

  /** Pushing a sample slides the window: the sample is appended and, once
      the window holds `NSamples`, the oldest one drops out. */
  lemma PushSlides(r: Ring, x: int)
    requires Valid(r)
    ensures Window(Push(r, x)) == LastN(Window(r) + [x])
  {
    if !r.full {
      PushSlidesFilling(r, x);
    } else if r.index + 1 < NSamples {
      PushSlidesFull(r, x);
    } else {
      PushSlidesWrapped(r, x);
    }
  }

  lemma PushSlidesFilling(r: Ring, x: int)
    requires Valid(r) && !r.full
    ensures Window(Push(r, x)) == LastN(Window(r) + [x])
  {
    var r' := Push(r, x);
    var i := r.index;
    assert Window(r) == r.buf[..i];
    assert r'.buf[..i + 1] == r.buf[..i] + [x];
    if i + 1 < NSamples {
      assert Window(r') == r'.buf[..i + 1];
    } else {
      assert r'.buf[..i + 1] == r'.buf;
      assert Window(r') == r'.buf[0..] + r'.buf[..0];
    }
  }

  lemma PushSlidesFull(r: Ring, x: int)
    requires Valid(r) && r.full && r.index + 1 < NSamples
    ensures Window(Push(r, x)) == LastN(Window(r) + [x])
  {
    var r' := Push(r, x);
    var i := r.index;
    var w := Window(r);
    assert w == r.buf[i..] + r.buf[..i];
    assert LastN(w + [x]) == (w + [x])[1..];
    assert (w + [x])[1..] == r.buf[i + 1..] + r.buf[..i] + [x];
    assert Window(r') == r'.buf[i + 1..] + r'.buf[..i + 1];
    assert r'.buf[i + 1..] == r.buf[i + 1..];
    assert r'.buf[..i + 1] == r.buf[..i] + [x];
  }

  lemma PushSlidesWrapped(r: Ring, x: int)
    requires Valid(r) && r.full && r.index + 1 == NSamples
    ensures Window(Push(r, x)) == LastN(Window(r) + [x])
  {
    var r' := Push(r, x);
    var i := r.index;
    var w := Window(r);
    assert w == [r.buf[i]] + r.buf[..i];
    assert LastN(w + [x]) == (w + [x])[1..];
    assert (w + [x])[1..] == r.buf[..i] + [x];
    assert Window(r') == r'.buf[0..] + r'.buf[..0];
    assert r'.buf == r.buf[..i] + [x];
  }

  /** Pushes the samples of `xs` in order. */
  function PushAll(r: Ring, xs: seq<int>): (r': Ring)
    requires Valid(r)
    ensures Valid(r')
    ensures Nonneg(r.buf) && Nonneg(xs) ==> Nonneg(r'.buf)
  {
    if |xs| == 0 then r
    else
      var p := PushAll(r, xs[..|xs| - 1]);
      assert Nonneg(xs) ==> Nonneg(xs[..|xs| - 1]);
      Push(p, xs[|xs| - 1])
  }

  lemma SnocSplit(w: seq<int>, xs: seq<int>)
    requires |xs| > 0
    ensures w + xs == (w + xs[..|xs| - 1]) + [xs[|xs| - 1]]
  {
    assert xs == xs[..|xs| - 1] + [xs[|xs| - 1]];
  }

  /** After any run of pushes the window holds the most recent `NSamples`
      samples of everything it ever held, in order. */
  lemma {:induction false} PushAllWindow(r: Ring, xs: seq<int>)
    requires Valid(r)
    ensures Window(PushAll(r, xs)) == LastN(Window(r) + xs)
  {
    if |xs| == 0 {
      assert Window(r) + xs == Window(r);
    } else {
      var init := xs[..|xs| - 1];
      var x := xs[|xs| - 1];
      var p := PushAll(r, init);
      PushAllWindow(r, init);
      PushSlides(p, x);
      LastNSnoc(Window(r) + init, x);
      SnocSplit(Window(r), xs);
    }
  }

  /** The smoothed value is the truncating mean of the window, whenever the
      window is not empty. */
  lemma AvgIsMean(r: Ring)
    requires Valid(r) && Nonneg(r.buf)
    requires |Window(r)| > 0
    ensures Nonneg(Window(r))
    ensures Avg(r) == Mean(Window(r))
  {
    var i := r.index;
    if r.full {
      assert r.buf[..NSamples] == r.buf;
      assert r.buf == r.buf[..i] + r.buf[i..];
      SumAppend(r.buf[..i], r.buf[i..]);
      SumAppend(r.buf[i..], r.buf[..i]);
    }
  }

  /** Smoothing as the sketch promises it: after a run of pushes the smoothed
      value is the truncating mean of the last `NSamples` samples (of fewer,
      before the window first wraps). */
  lemma AvgOfRecent(r: Ring, xs: seq<int>)
    requires Valid(r) && Nonneg(r.buf) && Nonneg(xs)
    requires |Window(r) + xs| > 0
    ensures Nonneg(LastN(Window(r) + xs))
    ensures Avg(PushAll(r, xs)) == Mean(LastN(Window(r) + xs))
  {
    PushAllWindow(r, xs);
    AvgIsMean(PushAll(r, xs));
  }

  lemma MeanRepeat(v: int, k: nat)
    requires k > 0 && v >= 0
    ensures Mean(Repeat(v, k)) == v
  {
    assert Within(Repeat(v, k), v, v);
  }

  /** A window filled by `Seed` with `v` averages exactly `v`, and keeps
      averaging `v` however many further copies of `v` are pushed. */
  lemma SeededStaysPut(v: int, k: nat)
    requires v >= 0
    ensures Avg(PushAll(SeedRing(v), Repeat(v, k))) == v
  {
    var r := SeedRing(v);
    assert Window(r) == Repeat(v, NSamples);
    assert Nonneg(Repeat(v, k));
    AvgOfRecent(r, Repeat(v, k));
    assert LastN(Window(r) + Repeat(v, k)) == Repeat(v, NSamples);
    MeanRepeat(v, NSamples);
  }

  /** The window of a never-written channel: zeroed slots, index zero, not
      saturated (the sketch's globals are zero-initialised). */
  function EmptyRing(): (r: Ring)
    ensures Valid(r) && Nonneg(r.buf) && Window(r) == []
  {
    Ring(Repeat(0, NSamples), 0, false)
  }

  /** One new sample `x` in a window seeded with `v` averages
      `((NSamples - 1) * v + x) / NSamples`: the seed still fills every
      other slot. */
  lemma SeededThenOne(v: int, x: int)
    requires v >= 0 && x >= 0
    ensures Avg(Push(SeedRing(v), x)) == ((NSamples - 1) * v + x) / NSamples
  {
    var r := SeedRing(v);
    PushSlides(r, x);
    var w := Repeat(v, NSamples - 1) + [x];
    assert Window(Push(r, x)) == w;
    assert Nonneg(Push(r, x).buf);
    AvgIsMean(Push(r, x));
    SumAppend(Repeat(v, NSamples - 1), [x]);
    SumWithin(Repeat(v, NSamples - 1), v, v);
    assert Sum([x]) == Sum([]) + x;
  }

  /** One channel of `seedBufs`: every slot holds `v`, index zero, saturated. */
  function SeedRing(v: int): (r: Ring)
    ensures Valid(r)
    ensures Window(r) == Repeat(v, NSamples)
  {
    var r := Ring(Repeat(v, NSamples), 0, true);
    assert r.buf[0..] == r.buf;
    r
  }

  /** Feeding `k` identical samples into an empty window, for any `k` from
      one up, makes the smoothed value exactly that sample. */
  lemma FillFromEmpty(v: int, k: nat)
    requires v >= 0 && k > 0
    ensures Avg(PushAll(EmptyRing(), Repeat(v, k))) == v
  {
    var r := EmptyRing();
    assert Window(r) + Repeat(v, k) == Repeat(v, k);
    AvgOfRecent(r, Repeat(v, k));
    if k <= NSamples {
      MeanRepeat(v, k);
    } else {
      assert LastN(Repeat(v, k)) == Repeat(v, NSamples);
      MeanRepeat(v, NSamples);
    }
  }

  /** The four parallel windows of the sketch, sharing one write index and
      one saturation flag. */
  datatype Windows = Windows(tl: seq<int>, tr: seq<int>, bl: seq<int>, br: seq<int>, index: nat, full: bool)

  /** One sensor's window, with the shared index and flag. */
  function Channel(w: Windows, c: Corner): Ring
  {
    match c
    case TL => Ring(w.tl, w.index, w.full)
    case TR => Ring(w.tr, w.index, w.full)
    case BL => Ring(w.bl, w.index, w.full)
    case BR => Ring(w.br, w.index, w.full)
  }

  /** Every channel is a well-formed ring holding values a sensor can
      produce. */
  predicate Healthy(w: Windows) {
    ChannelOk(Channel(w, TL)) && ChannelOk(Channel(w, TR)) && ChannelOk(Channel(w, BL)) && ChannelOk(Channel(w, BR))
  }

  /** A well-formed ring whose slots all hold values a sensor can produce. */
  predicate ChannelOk(r: Ring) {
    Valid(r) && Within(r.buf, 0, ReadingMax)
  }

  lemma HealthyChannel(w: Windows, c: Corner)
    requires Healthy(w)
    ensures Valid(Channel(w, c)) && Within(Channel(w, c).buf, 0, ReadingMax) && Nonneg(Channel(w, c).buf)
  {
  }

  /** `push`: writes the four readings into the current slot of their own
      windows and advances the shared index. Each channel behaves as a
      `Ring` pushed on its own. */
  function PushQuad(w: Windows, q: Quad): (w': Windows)
    requires Healthy(w) && ReadingOk(q)
    ensures Healthy(w')
    ensures forall c :: Channel(w', c) == Push(Channel(w, c), q.At(c))
  {
    var tl := Push(Channel(w, TL), q.tl);
    var tr := Push(Channel(w, TR), q.tr);
    var bl := Push(Channel(w, BL), q.bl);
    var br := Push(Channel(w, BR), q.br);
    Windows(tl.buf, tr.buf, bl.buf, br.buf, tl.index, tl.full)
  }

  /** `seedBufs`: every slot of each window holds that sensor's reading,
      the index is zero and the windows count as saturated. */
  function Seed(q: Quad): (w: Windows)
    requires ReadingOk(q)
    ensures Healthy(w)
    ensures w.index == 0 && w.full
    ensures forall c :: Channel(w, c) == SeedRing(q.At(c))
  {
    Windows(Repeat(q.tl, NSamples), Repeat(q.tr, NSamples), Repeat(q.bl, NSamples), Repeat(q.br, NSamples), 0, true)
  }

  /** The windows before anything is written: zeroed, index zero, not
      saturated. */
  function Empty(): (w: Windows)
    ensures Healthy(w)
    ensures forall c :: Channel(w, c) == EmptyRing()
  {
    Windows(Repeat(0, NSamples), Repeat(0, NSamples), Repeat(0, NSamples), Repeat(0, NSamples), 0, false)
  }

  /** The four smoothed values. */
  function Smoothed(w: Windows): (s: Quad)
    requires Healthy(w)
    ensures ReadingOk(s)
    ensures forall c :: s.At(c) == Avg(Channel(w, c))
  {
    HealthyChannel(w, TL);
    HealthyChannel(w, TR);
    HealthyChannel(w, BL);
    HealthyChannel(w, BR);
    Quad(Avg(Channel(w, TL)), Avg(Channel(w, TR)), Avg(Channel(w, BL)), Avg(Channel(w, BR)))
  }

  /** Right after seeding, and after pushing the seed reading again any
      number of times, the smoothed values are exactly the seed reading. */
  lemma SeedFixedPoint(q: Quad, k: nat)
    requires ReadingOk(q)
    ensures Smoothed(PushQuadAll(Seed(q), Repeat(q, k))) == q
  {
    SeededChannel(q, k, TL);
    SeededChannel(q, k, TR);
    SeededChannel(q, k, BL);
    SeededChannel(q, k, BR);
  }

  lemma SeededChannel(q: Quad, k: nat, c: Corner)
    requires ReadingOk(q)
    ensures Avg(Channel(PushQuadAll(Seed(q), Repeat(q, k)), c)) == q.At(c)
  {
    PushQuadAllChannel(Seed(q), Repeat(q, k), c);
    assert Project(Repeat(q, k), c) == Repeat(q.At(c), k);
    SeededStaysPut(q.At(c), k);
  }

  predicate AllReadingsOk(qs: seq<Quad>) {
    forall j :: 0 <= j < |qs| ==> ReadingOk(qs[j])
  }

  /** The samples of one sensor in a run of readings. */
  function Project(qs: seq<Quad>, c: Corner): (xs: seq<int>)
    ensures |xs| == |qs|
    ensures forall j :: 0 <= j < |qs| ==> xs[j] == qs[j].At(c)
  {
    seq(|qs|, j requires 0 <= j < |qs| => qs[j].At(c))
  }

  /** Pushes the readings of `qs` in order. */
  function PushQuadAll(w: Windows, qs: seq<Quad>): (w': Windows)
    requires Healthy(w) && AllReadingsOk(qs)
    ensures Healthy(w')
  {
    if |qs| == 0 then w
    else PushQuad(PushQuadAll(w, qs[..|qs| - 1]), qs[|qs| - 1])
  }

  /** Each channel of a run of four-way pushes is a run of pushes of that
      sensor's samples. */
  lemma {:induction false} PushQuadAllChannel(w: Windows, qs: seq<Quad>, c: Corner)
    requires Healthy(w) && AllReadingsOk(qs)
    ensures Channel(PushQuadAll(w, qs), c) == PushAll(Channel(w, c), Project(qs, c))
  {
    HealthyChannel(w, c);
    if |qs| > 0 {
      var init := qs[..|qs| - 1];
      PushQuadAllChannel(w, init, c);
      assert Project(qs, c)[..|qs| - 1] == Project(init, c);
    }
  }

  /** Pushing the same reading into freshly zeroed windows any positive
      number of times makes every smoothed value exactly that reading. */
  lemma FillQuadFromEmpty(q: Quad, k: nat)
    requires ReadingOk(q) && k > 0
    ensures Smoothed(PushQuadAll(Empty(), Repeat(q, k))) == q
  {
    FilledChannel(q, k, TL);
    FilledChannel(q, k, TR);
    FilledChannel(q, k, BL);
    FilledChannel(q, k, BR);
  }

  lemma FilledChannel(q: Quad, k: nat, c: Corner)
    requires ReadingOk(q) && k > 0
    ensures Avg(Channel(PushQuadAll(Empty(), Repeat(q, k)), c)) == q.At(c)
  {
    PushQuadAllChannel(Empty(), Repeat(q, k), c);
    assert Project(Repeat(q, k), c) == Repeat(q.At(c), k);
    FillFromEmpty(q.At(c), k);
  }
}
