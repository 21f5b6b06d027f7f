/** `normalizeSlider` of src/bridge/actors/Forms.cpp over the reals. */
module Sliders {
  datatype Slider = Slider(min: real, max: real, step: real, def: real)

  const TOLERANCE: real := 0.000000001

  function Clamp(v: real, lo: real, hi: real): real {
    if v < lo then lo else if v > hi then hi else v
  }

  /** Rounds a non-negative number half up. */
  function Round(v: real): int {
    (v + 0.5).Floor
  }

  function Steps(span: real, step: real): int
    requires step > 0.0
  {
    (span / step + TOLERANCE).Floor
  }

  /** The last step point of the range, with a tolerance for a span that is nearly a whole number of steps. */
  function LastPoint(min: real, span: real, step: real): real
    requires step > 0.0
  {
    min + Steps(span, step) as real * step
  }

  /** The step point nearest to `def`. */
  function NearestPoint(min: real, def: real, step: real): real
    requires step > 0.0
  {
    min + Round((def - min) / step) as real * step
  }

  /** Ends in order, the range cut to a whole number of steps, a step wider than the range shrunk to it. */
  function Ranged(s: Slider): Slider {
    var lo, hi := if s.min <= s.max then s.min else s.max, if s.min <= s.max then s.max else s.min;
    if s.step <= 0.0 then Slider(lo, hi, 0.0, s.def)
    else if hi - lo < s.step then Slider(lo, hi, hi - lo, s.def)
    else Slider(lo, LastPoint(lo, hi - lo, s.step), s.step, s.def)
  }

  /** The default moved into the range and onto the nearest step point. */
  function Snapped(s: Slider): Slider {
    var d := Clamp(s.def, s.min, s.max);
    s.(def := if s.step > 0.0 then Clamp(NearestPoint(s.min, d, s.step), s.min, s.max) else d)
  }

  function Normalized(s: Slider): Slider {
    Snapped(Ranged(s))
  }

  method NormalizeSlider(s: Slider) returns (r: Slider)
    ensures r == Normalized(s)
  {
    var mn, mx, step, def := s.min, s.max, s.step, s.def;
    if !(mn <= mx) {
      mn, mx := mx, mn;
    }
    if !(step > 0.0) {
      step := 0.0;
    }
    if step > 0.0 {
      var span := mx - mn;
      if span < step {
        step := if span > 0.0 then span else 0.0;
      } else {
        mx := LastPoint(mn, span, step);
      }
    }
    assert Slider(mn, mx, step, def) == Ranged(s);
    def := Clamp(def, mn, mx);
    if step > 0.0 {
      def := Clamp(NearestPoint(mn, def, step), mn, mx);
    }
    r := Slider(mn, mx, step, def);
  }

  /** What the client accepts: the range is `n` whole steps and the default lies on the `k`-th of them. */
  ghost predicate OnSteps(s: Slider, n: int, k: int) {
    && s.step > 0.0 && 1 <= n && 0 <= k <= n
    && s.max == s.min + n as real * s.step && s.def == s.min + k as real * s.step
  }

  ghost predicate Accepted(s: Slider) {
    && s.min <= s.def <= s.max
    && (s.step == 0.0 || exists n, k :: OnSteps(s, n, k))
  }

  lemma ProductOverFactor(n: real, step: real)
    requires step > 0.0
    ensures n * step / step == n
  {}

  lemma QuotientTimes(x: real, step: real)
    requires step > 0.0
    ensures x / step * step == x
  {}

  lemma TimesMono(a: real, b: real, step: real)
    requires step > 0.0
    ensures a <= b <==> a * step <= b * step
    ensures a < b <==> a * step < b * step
  {}

  /** The number of steps that fit, and by how little their total may exceed the span. */
  lemma StepsFit(span: real, step: real)
    requires 0.0 < step <= span
    ensures var n := Steps(span, step);
            1 <= n && span - step < n as real * step <= span + TOLERANCE * step
  {
    var q, n := span / step, Steps(span, step);
    QuotientTimes(span, step);
    assert n as real <= q + TOLERANCE < n as real + 1.0;
    FloorFits(span, step, q, n);
  }

  lemma FloorFits(span: real, step: real, q: real, n: int)
    requires 0.0 < step <= span && q * step == span && n as real <= q + TOLERANCE < n as real + 1.0
    ensures 1 <= n && span - step < n as real * step <= span + TOLERANCE * step
  {
    AtLeastOne(span, step, q);
    BelowMore(span, q, n as real, step);
    AboveLittle(span, q, n as real, step);
  }

  lemma AtLeastOne(span: real, step: real, q: real)
    requires 0.0 < step <= span && q * step == span
    ensures 1.0 <= q
  {
    TimesMono(1.0, q, step);
  }

  lemma BelowMore(span: real, q: real, n: real, step: real)
    requires step > 0.0 && q * step == span && q - 1.0 < n
    ensures span - step < n * step
  {
    TimesMono(q - 1.0, n, step);
    assert (q - 1.0) * step == q * step - step;
  }

  lemma AboveLittle(span: real, q: real, n: real, step: real)
    requires step > 0.0 && q * step == span && n <= q + TOLERANCE
    ensures n * step <= span + TOLERANCE * step
  {
    TimesMono(n, q + TOLERANCE, step);
    assert (q + TOLERANCE) * step == q * step + TOLERANCE * step;
  }

  lemma RoundStaysBelow(q: real, n: int)
    requires 0.0 <= q <= n as real
    ensures 0 <= Round(q) <= n && Round(n as real) == n
  {}

  /** Ordering and cutting the range: whole steps, and the upper end moves by less than a step. */
  lemma RangedFits(s: Slider) returns (n: int)
    ensures var r := Ranged(s);
            && r.def == s.def && r.min <= r.max && 0.0 <= r.step
            && r.min == (if s.min <= s.max then s.min else s.max)
            && (r.step > 0.0 ==> 1 <= n && r.max == r.min + n as real * r.step)
            && var hi := if s.min <= s.max then s.max else s.min;
               r.max <= hi + TOLERANCE * r.step && (r.max == hi || hi - r.step < r.max)
  {
    var lo, hi := if s.min <= s.max then s.min else s.max, if s.min <= s.max then s.max else s.min;
    n := 1;
    if s.step > 0.0 && hi - lo >= s.step {
      n := Steps(hi - lo, s.step);
      StepsFit(hi - lo, s.step);
      TimesMono(0.0, n as real, s.step);
    }
  }

  lemma SnapsOntoStep(s: Slider, n: int) returns (k: int)
    requires s.step > 0.0 && 1 <= n && s.max == s.min + n as real * s.step
    ensures OnSteps(Snapped(s), n, k)
  {
    var d := Clamp(s.def, s.min, s.max);
    TimesMono(0.0, n as real, s.step);
    k := NearestWithin(s.min, d, s.step, n);
  }

  function Abs(v: real): real {
    if v < 0.0 then -v else v
  }

  lemma RoundIsNearest(v: real, k: int)
    ensures Abs(Round(v) as real - v) <= Abs(k as real - v)
  {
    var n := Round(v);
    assert n as real <= v + 0.5 < n as real + 1.0;
    if k > n {
      assert k as real >= n as real + 1.0;
    } else if k < n {
      assert k as real <= n as real - 1.0;
    }
  }

  lemma TimesKeepsNearer(a: real, b: real, step: real)
    requires step > 0.0 && Abs(a) <= Abs(b)
    ensures Abs(a * step) <= Abs(b * step)
  {
    AbsTimes(a, step);
    AbsTimes(b, step);
    TimesMono(Abs(a), Abs(b), step);
  }

  lemma AbsTimes(a: real, step: real)
    requires step > 0.0
    ensures Abs(a) * step == Abs(a * step)
  {
    TimesMono(a, 0.0, step);
    TimesMono(0.0, a, step);
  }

  lemma TimesDifference(a: real, b: real, step: real)
    ensures (a - b) * step == a * step - b * step
  {}

  /** No step point is nearer to the default than the one it is moved to. */
  lemma SnapsToNearest(s: Slider, n: int, j: int)
    requires s.step > 0.0 && 1 <= n && s.max == s.min + n as real * s.step
    ensures var d := if s.def < s.min then s.min else if s.def > s.max then s.max else s.def;
            Abs(Snapped(s).def - d) <= Abs(s.min + j as real * s.step - d)
  {
    var d := Clamp(s.def, s.min, s.max);
    TimesMono(0.0, n as real, s.step);
    SnapsWithin(s, d, n);
    NearestIsNearest(s.min, d, s.step, j);
  }

  lemma SnapsWithin(s: Slider, d: real, n: int)
    requires s.step > 0.0 && s.max == s.min + n as real * s.step && d == Clamp(s.def, s.min, s.max) && s.min <= s.max
    ensures Snapped(s).def == NearestPoint(s.min, d, s.step)
  {
    var k := NearestWithin(s.min, d, s.step, n);
  }

  lemma NearestIsNearest(min: real, d: real, step: real, j: int)
    requires step > 0.0
    ensures Abs(NearestPoint(min, d, step) - d) <= Abs(min + j as real * step - d)
  {
    var q := (d - min) / step;
    QuotientTimes(d - min, step);
    RoundIsNearest(q, j);
    TimesKeepsNearer(Round(q) as real - q, j as real - q, step);
    TimesDifference(Round(q) as real, q, step);
    TimesDifference(j as real, q, step);
  }

  /** The nearest step point to a place inside the range is inside the range. */
  lemma NearestWithin(min: real, d: real, step: real, n: int) returns (k: int)
    requires step > 0.0 && 0.0 <= d - min <= n as real * step
    ensures 0 <= k <= n && NearestPoint(min, d, step) == min + k as real * step
    ensures 0.0 <= k as real * step <= n as real * step
  {
    var x := d - min;
    QuotientTimes(x, step);
    RatioBetween(x, step, x / step, n);
    RoundStaysBelow(x / step, n);
    k := Round(x / step);
    TimesMono(0.0, k as real, step);
    TimesMono(k as real, n as real, step);
  }

  lemma RatioBetween(x: real, step: real, q: real, n: int)
    requires step > 0.0 && q * step == x && 0.0 <= x <= n as real * step
    ensures 0.0 <= q <= n as real
  {
    TimesMono(0.0, q, step);
    TimesMono(q, n as real, step);
  }

  /** Any slider becomes one the client accepts; its upper end rises by at most a billionth of a step. */
  lemma NormalizedIsAccepted(s: Slider)
    ensures var r := Normalized(s);
            && Accepted(r)
            && r.min == (if s.min <= s.max then s.min else s.max)
            && var hi := if s.min <= s.max then s.max else s.min;
               r.max <= hi + TOLERANCE * r.step && (r.max == hi || hi - r.step < r.max)
  {
    var n := RangedFits(s);
    if Ranged(s).step > 0.0 {
      var k := SnapsOntoStep(Ranged(s), n);
      TimesMono(0.0, k as real, Ranged(s).step);
      TimesMono(k as real, n as real, Ranged(s).step);
    }
  }

  lemma OnStepsIsFixed(s: Slider, n: int, k: int)
    requires OnSteps(s, n, k) && s.min <= s.def <= s.max
    ensures Ranged(s) == s && Snapped(s) == s
  {
    TimesMono(1.0, n as real, s.step);
    LastPointFixed(s.min, s.max, s.step, n);
    NearestPointFixed(s.min, s.def, s.step, k);
  }

  /** An accepted slider is left exactly as it is. */
  lemma AcceptedIsFixed(s: Slider)
    requires Accepted(s)
    ensures Normalized(s) == s
  {
    if s.step != 0.0 {
      var n, k :| OnSteps(s, n, k);
      OnStepsIsFixed(s, n, k);
    }
  }

  lemma LastPointFixed(min: real, max: real, step: real, n: int)
    requires step > 0.0 && max == min + n as real * step
    ensures LastPoint(min, max - min, step) == max
  {
    ProductOverFactor(n as real, step);
    assert (max - min) / step == n as real;
    assert Steps(max - min, step) == n;
  }

  lemma NearestPointFixed(min: real, def: real, step: real, k: int)
    requires step > 0.0 && def == min + k as real * step
    ensures NearestPoint(min, def, step) == def
  {
    ProductOverFactor(k as real, step);
    assert (def - min) / step == k as real;
    assert Round((def - min) / step) == k;
  }

  /** Normalising twice changes nothing more, and only accepted sliders are left alone. */
  lemma NormalizeIdempotent(s: Slider)
    ensures Normalized(Normalized(s)) == Normalized(s)
    ensures Accepted(s) <==> Normalized(s) == s
  {
    NormalizedIsAccepted(s);
    AcceptedIsFixed(Normalized(s));
    if Accepted(s) {
      AcceptedIsFixed(s);
    }
  }
}
