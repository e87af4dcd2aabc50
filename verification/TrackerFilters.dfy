/** Position filters of the live object tracker (client RiskObjectTracker): per-axis median of the
    last three samples, then a speed limit, then a linear transition on the screen.
    World coordinates are reals. The square root behind `hypot` is a parameter. */
module TrackerFilters {
  import opened Domain

  const POSITION_FILTER_RESET_GAP := 500
  const MINIMUM_POSITION_FILTER_STEP := 16
  const MAXIMUM_POSITION_FILTER_STEP := POSITION_FILTER_RESET_GAP
  const MAXIMUM_WORLD_SPEED := 8.0
  const MEDIAN_SAMPLE_COUNT := 3
  const MAXIMUM_POSITION_TRANSITION := 400

  datatype Point = Point(x: real, y: real)

  datatype Rect = Rect(left: real, top: real, right: real, bottom: real) {
    predicate HasSize() { left < right && top < bottom }
    predicate Contains(p: Point) { left <= p.x <= right && top <= p.y <= bottom }
    predicate Covers(inner: Rect) {
      left <= inner.left && inner.right <= right && top <= inner.top && inner.bottom <= bottom
    }
  }

  // ---------- percentile and median ----------

  ghost predicate Sorted(values: seq<real>) {
    forall i, j :: 0 <= i < j < |values| ==> values[i] <= values[j]
  }

  function Insert(sorted: seq<real>, x: real): (r: seq<real>)
    ensures |r| == |sorted| + 1 && forall y :: y in r <==> y in sorted || y == x
  {
    if sorted == [] || x <= sorted[0] then [x] + sorted else [sorted[0]] + Insert(sorted[1..], x)
  }

  /** `std::sort`. */
  function Sort(values: seq<real>): (r: seq<real>)
    ensures |r| == |values| && forall y :: y in r <==> y in values
  {
    if values == [] then [] else Insert(Sort(values[1..]), values[0])
  }

  lemma {:induction false} InsertSorts(sorted: seq<real>, x: real)
    requires Sorted(sorted)
    ensures Sorted(Insert(sorted, x))
  {
    if sorted != [] && x > sorted[0] {
      InsertSorts(sorted[1..], x);
      var rest := Insert(sorted[1..], x);
      forall i | 0 <= i < |rest| ensures sorted[0] <= rest[i] { assert rest[i] in rest; }
    }
  }

  lemma {:induction false} SortSorts(values: seq<real>)
    ensures Sorted(Sort(values))
  {
    if values != [] {
      SortSorts(values[1..]);
      InsertSorts(Sort(values[1..]), values[0]);
    }
  }

  function Bounded(lo: real, x: real, hi: real): real { Max(lo, Min(x, hi)) }

  /** The cast to an index truncates. */
  function PercentileIndex(n: nat, fraction: real): (i: nat)
    requires n > 0
    ensures i < n
  {
    IndexInRange(Bounded(0.0, fraction, 1.0), (n - 1) as real);
    IndexAt(Bounded(0.0, fraction, 1.0), (n - 1) as real)
  }

  function IndexAt(f: real, last: real): int { (f * last).Floor }

  lemma IndexInRange(f: real, last: real)
    requires 0.0 <= f <= 1.0 && last >= 0.0
    ensures 0 <= IndexAt(f, last) && IndexAt(f, last) as real <= last
  {
    Nonneg(f, last);
    ProductOrder(f, 1.0, last);
  }

  function Percentile(values: seq<real>, fraction: real): (p: real)
    ensures values != [] ==> p in values
  {
    if values == [] then 0.0
    else
      var sorted := Sort(values);
      assert sorted[PercentileIndex(|values|, fraction)] in sorted;
      sorted[PercentileIndex(|values|, fraction)]
  }

  lemma ProductOrder(f: real, g: real, last: real)
    requires f <= g && last >= 0.0
    ensures f * last <= g * last
  {
    Nonneg(g - f, last);
    assert g * last - f * last == (g - f) * last;
  }

  lemma FloorOrder(x: real, y: real)
    requires x <= y
    ensures x.Floor <= y.Floor
  {}

  lemma BoundedOrder(f: real, g: real)
    requires f <= g
    ensures Bounded(0.0, f, 1.0) <= Bounded(0.0, g, 1.0)
  {}

  lemma IndexMonotone(n: nat, f: real, g: real)
    requires n > 0 && f <= g
    ensures PercentileIndex(n, f) <= PercentileIndex(n, g)
  {
    BoundedOrder(f, g);
    IndexOrder(Bounded(0.0, f, 1.0), Bounded(0.0, g, 1.0), (n - 1) as real);
  }

  lemma IndexOrder(f: real, g: real, last: real)
    requires f <= g && last >= 0.0
    ensures IndexAt(f, last) <= IndexAt(g, last)
  {
    ProductOrder(f, g, last);
    FloorOrder(f * last, g * last);
  }

  lemma PercentileMonotone(values: seq<real>, f: real, g: real)
    requires f <= g && values != []
    ensures Percentile(values, f) <= Percentile(values, g)
  {
    SortSorts(values);
    IndexMonotone(|values|, f, g);
    SortedAt(Sort(values), PercentileIndex(|values|, f), PercentileIndex(|values|, g));
  }

  lemma SortedAt(values: seq<real>, i: nat, j: nat)
    requires Sorted(values) && i <= j < |values|
    ensures values[i] <= values[j]
  {}

  function Xs(samples: seq<Point>): (r: seq<real>)
    ensures |r| == |samples|
  {
    seq(|samples|, i requires 0 <= i < |samples| => samples[i].x)
  }

  function Ys(samples: seq<Point>): (r: seq<real>)
    ensures |r| == |samples|
  {
    seq(|samples|, i requires 0 <= i < |samples| => samples[i].y)
  }

  /** The history after a new sample. */
  function Sampled(history: seq<Point>, p: Point): (r: seq<Point>)
    ensures |history| <= MEDIAN_SAMPLE_COUNT ==> 0 < |r| <= MEDIAN_SAMPLE_COUNT
    ensures forall q :: q in r ==> q in history || q == p
    ensures |r| > 0 && r[|r| - 1] == p
    decreases |history|
  {
    if |history| >= MEDIAN_SAMPLE_COUNT then Sampled(history[1..], p) else history + [p]
  }

  /** Per-axis median, once there are enough samples. */
  function Median(samples: seq<Point>): Point
    requires samples != []
  {
    if |samples| < MEDIAN_SAMPLE_COUNT then samples[|samples| - 1]
    else Point(Percentile(Xs(samples), 0.5), Percentile(Ys(samples), 0.5))
  }

  /** Each axis is selected from the samples, so a rectangle that holds them holds the median. */
  lemma MedianStaysInside(samples: seq<Point>, r: Rect)
    requires samples != [] && forall p :: p in samples ==> r.Contains(p)
    ensures r.Contains(Median(samples))
  {
    if |samples| >= MEDIAN_SAMPLE_COUNT {
      var x, y := Percentile(Xs(samples), 0.5), Percentile(Ys(samples), 0.5);
      var i :| 0 <= i < |samples| && Xs(samples)[i] == x;
      var j :| 0 <= j < |samples| && Ys(samples)[j] == y;
      assert samples[i] in samples && samples[j] in samples;
    }
  }

  lemma InsertIntoOne(c: real, b: real)
    ensures Insert([c], b) == if b <= c then [b, c] else [c, b]
  {
    assert [c][1..] == [] && Insert([], b) == [b];
    assert [b] + [c] == [b, c] && [c] + [b] == [c, b];
  }

  lemma InsertIntoTwo(lo: real, hi: real, a: real)
    requires lo <= hi
    ensures Insert([lo, hi], a)[1] == Max(lo, Min(a, hi))
  {
    assert [lo, hi][1..] == [hi];
    InsertIntoOne(hi, a);
  }

  lemma MiddleOfThree(a: real, b: real, c: real)
    ensures Percentile([a, b, c], 0.5) == Max(Min(b, c), Min(a, Max(b, c)))
  {
    assert [a, b, c][1..] == [b, c] && [b, c][1..] == [c] && [c][1..] == [];
    assert Sort([]) == [] && Sort([c]) == [c];
    InsertIntoOne(c, b);
    assert Sort([b, c]) == Insert([c], b);
    InsertIntoTwo(Min(b, c), Max(b, c), a);
    assert Sort([b, c]) == [Min(b, c), Max(b, c)];
    assert PercentileIndex(3, 0.5) == 1;
  }

  /** A single outlier among three samples has no effect: two equal samples decide. */
  lemma OutlierIsRejected(p: Point, outlier: Point, samples: seq<Point>)
    requires samples == [outlier, p, p] || samples == [p, outlier, p] || samples == [p, p, outlier]
    ensures Median(samples) == p
  {
    var xs, ys := Xs(samples), Ys(samples);
    assert xs == [xs[0], xs[1], xs[2]] && ys == [ys[0], ys[1], ys[2]];
    MiddleOfThree(xs[0], xs[1], xs[2]);
    MiddleOfThree(ys[0], ys[1], ys[2]);
  }

  // ---------- distance ----------

  type Hypot = (real, real) -> real

  /** `std::hypot` over the reals. */
  ghost predicate IsHypot(h: Hypot) {
    forall x: real, y: real :: h(x, y) >= 0.0 && h(x, y) * h(x, y) == x * x + y * y
  }

  function Distance(h: Hypot, p: Point, q: Point): real { h(q.x - p.x, q.y - p.y) }

  lemma SquareLess(a: real, b: real)
    requires 0.0 <= b < a
    ensures b * b < a * a
  {
    assert a * a - b * b == (a - b) * a + (a - b) * b;
    assert (a - b) * a > 0.0 && (a - b) * b >= 0.0;
  }

  lemma SquareOrder(a: real, b: real)
    requires a >= 0.0 && b >= 0.0 && a * a <= b * b
    ensures a <= b
  {
    if a > b { SquareLess(a, b); }
  }

  /** Cauchy-Schwarz: |u . v| <= |u| |v|. */
  lemma DotBound(a: real, b: real, c: real, d: real, u: real, v: real)
    requires u >= 0.0 && v >= 0.0 && u * u == a * a + b * b && v * v == c * c + d * d
    ensures a * c + b * d <= u * v
  {
    var dot, uv := a * c + b * d, u * v;
    Nonneg(u, v);
    if dot > 0.0 {
      var cross := a * d - b * c;
      assert cross * cross >= 0.0;
      SquaresOfProducts(a, b, c, d);
      assert uv * uv == (u * u) * (v * v);
      SquareOrder(dot, uv);
    }
  }

  lemma SquaresOfProducts(a: real, b: real, c: real, d: real)
    ensures (a * a + b * b) * (c * c + d * d) == (a * c + b * d) * (a * c + b * d) + (a * d - b * c) * (a * d - b * c)
  {}

  lemma SumBound(a: real, b: real, c: real, d: real, u: real, v: real, w: real)
    requires u >= 0.0 && v >= 0.0 && w >= 0.0
    requires u * u == a * a + b * b && v * v == c * c + d * d && w * w == (a + c) * (a + c) + (b + d) * (b + d)
    ensures w <= u + v
  {
    DotBound(a, b, c, d, u, v);
    SumSquared(a, b, c, d);
    assert (u + v) * (u + v) == u * u + 2.0 * (u * v) + v * v;
    SquareOrder(w, u + v);
  }

  lemma SumSquared(a: real, b: real, c: real, d: real)
    ensures (a + c) * (a + c) + (b + d) * (b + d) == a * a + b * b + 2.0 * (a * c + b * d) + (c * c + d * d)
  {}

  lemma TriangleInequality(h: Hypot, p: Point, q: Point, r: Point)
    requires IsHypot(h)
    ensures Distance(h, p, r) <= Distance(h, p, q) + Distance(h, q, r)
  {
    var a, b, c, d := q.x - p.x, q.y - p.y, r.x - q.x, r.y - q.y;
    assert a + c == r.x - p.x && b + d == r.y - p.y;
    SumBound(a, b, c, d, h(a, b), h(c, d), h(a + c, b + d));
  }

  lemma ZeroDistance(h: Hypot, p: Point)
    requires IsHypot(h)
    ensures Distance(h, p, p) == 0.0
  {
    var z := h(0.0, 0.0);
    assert z * z == 0.0 * 0.0 + 0.0 * 0.0;
    ZeroSquare(z);
  }

  lemma ZeroSquare(z: real)
    requires z * z == 0.0 && z >= 0.0
    ensures z == 0.0
  {
    if z > 0.0 { SquareLess(z, 0.0); }
  }

  lemma EqualSquares(a: real, b: real)
    requires a >= 0.0 && b >= 0.0 && a * a == b * b
    ensures a == b
  {
    SquareOrder(a, b);
    SquareOrder(b, a);
  }

  lemma ScaledLength(h: Hypot, x: real, y: real, s: real, sx: real, sy: real)
    requires IsHypot(h) && s >= 0.0 && sx == s * x && sy == s * y
    ensures h(sx, sy) == s * h(x, y)
  {
    var u := h(x, y);
    Nonneg(s, u);
    SquareOfProduct(s, u);
    SquareOfProduct(s, x);
    SquareOfProduct(s, y);
    assert (s * s) * (u * u) == (s * s) * (x * x) + (s * s) * (y * y);
    EqualSquares(h(sx, sy), s * u);
  }

  lemma SquareOfProduct(s: real, u: real)
    ensures (s * u) * (s * u) == (s * s) * (u * u)
  {}

  // ---------- speed limit ----------

  function MaximumDistance(gap: int): real {
    var elapsed := if gap < MINIMUM_POSITION_FILTER_STEP then MINIMUM_POSITION_FILTER_STEP
                   else if gap > MAXIMUM_POSITION_FILTER_STEP then MAXIMUM_POSITION_FILTER_STEP else gap;
    MAXIMUM_WORLD_SPEED * elapsed as real / 1000.0
  }

  /** Share of the way to the target that one step takes. */
  function StepRatio(distance: real, maximum: real): (s: real)
    requires maximum >= 0.0
    ensures 0.0 <= s <= 1.0
  {
    if distance > maximum && distance > 0.0 then RatioInRange(maximum, distance); maximum / distance else 1.0
  }

  lemma RatioInRange(part: real, whole: real)
    requires 0.0 <= part <= whole && whole > 0.0
    ensures 0.0 <= part / whole <= 1.0 && part / whole * whole == part
  {
    assert part / whole * whole == part;
  }

  function Along(p: Point, q: Point, s: real): Point {
    Point(p.x + (q.x - p.x) * s, p.y + (q.y - p.y) * s)
  }

  /** One limited step from `p` towards `q`. */
  function Limited(h: Hypot, p: Point, q: Point, gap: int): Point {
    Along(p, q, StepRatio(Distance(h, p, q), MaximumDistance(gap)))
  }

  lemma BetweenStays(a: real, b: real, s: real, lo: real, hi: real)
    requires 0.0 <= s <= 1.0 && lo <= a <= hi && lo <= b <= hi
    ensures lo <= a + (b - a) * s <= hi
  {
    Nonneg(1.0 - s, a - lo);
    Nonneg(s, b - lo);
    Nonneg(1.0 - s, hi - a);
    Nonneg(s, hi - b);
    assert a + (b - a) * s - lo == (1.0 - s) * (a - lo) + s * (b - lo);
    assert hi - (a + (b - a) * s) == (1.0 - s) * (hi - a) + s * (hi - b);
  }

  /** Points on a segment inside a rectangle are inside it. */
  lemma AlongStaysInside(p: Point, q: Point, s: real, r: Rect)
    requires 0.0 <= s <= 1.0 && r.Contains(p) && r.Contains(q)
    ensures r.Contains(Along(p, q, s))
  {
    BetweenStays(p.x, q.x, s, r.left, r.right);
    BetweenStays(p.y, q.y, s, r.top, r.bottom);
  }

  lemma AlongDistances(h: Hypot, p: Point, q: Point, s: real)
    requires IsHypot(h) && 0.0 <= s <= 1.0
    ensures Distance(h, p, Along(p, q, s)) == s * Distance(h, p, q)
    ensures Distance(h, Along(p, q, s), q) == (1.0 - s) * Distance(h, p, q)
  {
    var m := Along(p, q, s);
    ScaledLength(h, q.x - p.x, q.y - p.y, s, m.x - p.x, m.y - p.y);
    Remainder(p.x, q.x, s);
    Remainder(p.y, q.y, s);
    ScaledLength(h, q.x - p.x, q.y - p.y, 1.0 - s, q.x - m.x, q.y - m.y);
  }

  lemma Remainder(a: real, b: real, s: real)
    ensures b - (a + (b - a) * s) == (1.0 - s) * (b - a)
  {}

  /** A step covers the allowed distance and no more, and never overshoots: it either reaches
      the target or comes nearer by exactly the allowed distance. */
  lemma StepTowardsTarget(h: Hypot, p: Point, q: Point, gap: int)
    requires IsHypot(h)
    ensures var d, m, n := Distance(h, p, q), MaximumDistance(gap), Limited(h, p, q, gap);
            && Distance(h, p, n) <= m
            && (if d <= m then n == q else Distance(h, n, q) == d - m)
  {
    var d, m := Distance(h, p, q), MaximumDistance(gap);
    var s := StepRatio(d, m);
    AlongDistances(h, p, q, s);
    if d > m {
      RatioInRange(m, d);
      assert (1.0 - s) * d == d - s * d;
    }
  }

  datatype Update = Update(gap: int, target: Point)

  /** Only a sample that comes later than the last one, and no more than 500 ms, is limited. */
  function Stepped(h: Hypot, p: Point, u: Update): Point {
    if 0 < u.gap <= POSITION_FILTER_RESET_GAP then Limited(h, p, u.target, u.gap) else u.target
  }

  /** The condition under which a sample keeps the speed limit. */
  ghost predicate Tame(h: Hypot, p: Point, u: Update) {
    0 < u.gap <= POSITION_FILTER_RESET_GAP || Distance(h, p, u.target) <= MaximumDistance(u.gap)
  }

  ghost predicate AllTame(h: Hypot, p: Point, updates: seq<Update>) {
    forall i :: 0 <= i < |updates| ==> Tame(h, Follow(h, p, updates[..i]), updates[i])
  }

  lemma LimitIsKeptExactly(h: Hypot, p: Point, u: Update)
    requires IsHypot(h)
    ensures Distance(h, p, Stepped(h, p, u)) <= MaximumDistance(u.gap) <==> Tame(h, p, u)
  {
    StepTowardsTarget(h, p, u.target, u.gap);
  }

  ghost function Follow(h: Hypot, p: Point, updates: seq<Update>): Point {
    if updates == [] then p
    else Stepped(h, Follow(h, p, updates[..|updates| - 1]), updates[|updates| - 1])
  }

  /** 8 m/s over each gap, a gap counting for at least 16 ms. */
  ghost function Allowance(updates: seq<Update>): real {
    if updates == [] then 0.0
    else
      var gap := updates[|updates| - 1].gap;
      Allowance(updates[..|updates| - 1]) + MAXIMUM_WORLD_SPEED * (if gap < 16 then 16 else gap) as real / 1000.0
  }

  /** However the samples jump, the filtered position moves no faster than the speed limit, as long as
      each of them keeps it. */
  lemma {:induction false} SpeedIsLimited(h: Hypot, p: Point, updates: seq<Update>)
    requires IsHypot(h) && AllTame(h, p, updates)
    ensures Distance(h, p, Follow(h, p, updates)) <= Allowance(updates)
  {
    if updates == [] {
      ZeroDistance(h, p);
    } else {
      var n := |updates| - 1;
      var rest, last := updates[..n], updates[n];
      forall i | 0 <= i < n ensures Tame(h, Follow(h, p, rest[..i]), rest[i]) {
        assert rest[..i] == updates[..i];
      }
      SpeedIsLimited(h, p, rest);
      LimitIsKeptExactly(h, Follow(h, p, rest), last);
      TriangleInequality(h, p, Follow(h, p, rest), Follow(h, p, updates));
    }
  }

  lemma StepIsAtLeast(gap: int)
    ensures MaximumDistance(gap) >= 0.128
  {}

  /** The filter catches up: a target that stays put is reached exactly, at the latest after one
      frame for every 0.128 m. */
  lemma {:induction false} ReachesConstantTarget(h: Hypot, p: Point, q: Point, updates: seq<Update>)
    requires IsHypot(h) && forall i :: 0 <= i < |updates| ==> updates[i].target == q
    ensures var d := Distance(h, Follow(h, p, updates), q);
            d == 0.0 || d <= Distance(h, p, q) - 0.128 * |updates| as real
    ensures updates != [] && Distance(h, p, q) <= 0.128 * |updates| as real ==> Follow(h, p, updates) == q
  {
    if updates != [] {
      var rest, last := updates[..|updates| - 1], updates[|updates| - 1];
      ReachesConstantTarget(h, p, q, rest);
      StepTowardsTarget(h, Follow(h, p, rest), q, last.gap);
      StepIsAtLeast(last.gap);
      ZeroDistance(h, q);
    }
  }

  // ---------- transition on the screen ----------

  datatype Transition = Transition(start: Point, target: Point, startMsec: int, targetFrame: int)

  function TransitionRatio(duration: int, elapsed: int): (s: real)
    requires duration > 0 && elapsed >= 0
    ensures 0.0 <= s <= 1.0
  {
    Bounded(0.0, elapsed as real / duration as real, 1.0)
  }

  function Rendered(t: Transition, duration: int, now: int): Point {
    if duration <= 0 || t.startMsec <= 0 then t.target
    else Along(t.start, t.target, TransitionRatio(duration, if now < t.startMsec then 0 else now - t.startMsec))
  }

  /** The transition after a render with this target; `None` is an object new to the screen. */
  function Retargeted(t: Option<Transition>, target: Point, frame: int, duration: int, now: int): Transition {
    match t
    case None => Transition(target, target, now, frame)
    case Some(before) =>
      if frame > before.targetFrame then Transition(Rendered(before, duration, now), target, now, frame) else before
  }

  predicate TransitionInside(t: Transition, r: Rect) { r.Contains(t.start) && r.Contains(t.target) }

  lemma RenderedStaysInside(t: Transition, duration: int, now: int, r: Rect)
    requires TransitionInside(t, r)
    ensures r.Contains(Rendered(t, duration, now))
  {
    if duration > 0 && t.startMsec > 0 {
      AlongStaysInside(t.start, t.target, TransitionRatio(duration, if now < t.startMsec then 0 else now - t.startMsec),
                       r);
    }
  }

  lemma RetargetedStaysInside(t: Option<Transition>, target: Point, frame: int, duration: int, now: int, r: Rect)
    requires r.Contains(target) && (t.Some? ==> TransitionInside(t.value, r))
    ensures TransitionInside(Retargeted(t, target, frame, duration, now), r)
  {
    if t.Some? { RenderedStaysInside(t.value, duration, now, r); }
  }

  /** A new target never makes the marker jump: at that instant it is where it was. */
  lemma RetargetingDoesNotJump(before: Transition, target: Point, frame: int, duration: int, now: int)
    requires now > 0 && duration > 0 && frame > before.targetFrame
    ensures Rendered(Retargeted(Some(before), target, frame, duration, now), duration, now)
      == Rendered(before, duration, now)
  {
    assert TransitionRatio(duration, 0) == 0.0;
  }

  /** The transition ends at its target when the duration has passed. */
  lemma TransitionArrives(t: Transition, duration: int, now: int)
    requires now - t.startMsec >= duration
    ensures Rendered(t, duration, now) == t.target
  {
    if duration > 0 && t.startMsec > 0 {
      AtLeastOne((now - t.startMsec) as real, duration as real);
    }
  }

  lemma AtLeastOne(n: real, d: real)
    requires n >= d > 0.0
    ensures n / d >= 1.0
  {
    assert n / d * d == n;
  }
}
