/** World bounds of the live object tracker: configured, or estimated from the first samples and
    then only ever widened. */
module TrackerBounds {
  import opened Domain
  import opened TrackerFilters

  const AUTOMATIC_BOUNDS_EXPANSION_FRAME_COUNT := 3
  const WORLD_BOUNDS_ACCEPTANCE_MARGIN := 2.0

  /** The ranges are those the configuration loader enforces. */
  datatype WorldConfig = WorldConfig(
    warmupMsec: int, minimumSamples: int, maximumSamples: int, paddingRatio: real, outlierFraction: real)
  {
    predicate Valid() {
      warmupMsec >= 0 && 2 <= minimumSamples <= maximumSamples && 0.0 <= paddingRatio <= 1.0
        && 0.0 <= outlierFraction <= 0.25
    }
  }

  datatype Bounds = Bounds(
    configured: Option<Rect>, automatic: Option<Rect>, samples: seq<Point>, start: int,
    pending: Rect, pendingCount: nat)

  const NO_RECT := Rect(0.0, 0.0, 0.0, 0.0)

  function Initial(configured: Option<Rect>): Bounds {
    Bounds(configured, None, [], 0, NO_RECT, 0)
  }

  predicate Ready(b: Bounds) { b.configured.Some? || b.automatic.Some? }

  function Reference(b: Bounds): Rect
    requires Ready(b)
  {
    if b.configured.Some? then b.configured.value else b.automatic.value
  }

  function Padded(r: Rect, ratio: real): Rect {
    var dx, dy := (r.right - r.left) * ratio, (r.bottom - r.top) * ratio;
    Rect(r.left - dx, r.top - dy, r.right + dx, r.bottom + dy)
  }

  function AcceptedArea(r: Rect): Rect { Padded(r, WORLD_BOUNDS_ACCEPTANCE_MARGIN) }

  predicate Acceptable(b: Bounds, p: Point) {
    Ready(b) ==> AcceptedArea(Reference(b)).Contains(p)
  }

  // ---------- estimate ----------

  function Collected(samples: seq<Point>, positions: seq<Point>, maximum: int): seq<Point>
    decreases |positions|
  {
    if positions == [] || |samples| >= maximum then samples
    else Collected(samples + [positions[0]], positions[1..], maximum)
  }

  /** At least 1 m in each direction around the centre, plus padding. */
  function Box(minX: real, maxX: real, minY: real, maxY: real, ratio: real): Rect {
    var width, height := Max(1.0, maxX - minX), Max(1.0, maxY - minY);
    var centerX, centerY := (minX + maxX) * 0.5, (minY + maxY) * 0.5;
    Padded(Rect(centerX - width * 0.5, centerY - height * 0.5, centerX + width * 0.5, centerY + height * 0.5), ratio)
  }

  function Estimated(samples: seq<Point>, c: WorldConfig): Rect {
    Box(Percentile(Xs(samples), c.outlierFraction), Percentile(Xs(samples), 1.0 - c.outlierFraction),
        Percentile(Ys(samples), c.outlierFraction), Percentile(Ys(samples), 1.0 - c.outlierFraction), c.paddingRatio)
  }

  // ---------- expansion ----------

  function Stretched(r: Rect, p: Point): Rect {
    Rect(Min(r.left, p.x), Min(r.top, p.y), Max(r.right, p.x), Max(r.bottom, p.y))
  }

  function Grown(r: Rect, positions: seq<Point>): Rect {
    if positions == [] then r else Stretched(Grown(r, positions[..|positions| - 1]), positions[|positions| - 1])
  }

  function United(r: Rect, s: Rect): Rect {
    Rect(Min(r.left, s.left), Min(r.top, s.top), Max(r.right, s.right), Max(r.bottom, s.bottom))
  }

  function Expanded(b: Bounds, positions: seq<Point>, c: WorldConfig): Bounds
    requires b.automatic.Some?
  {
    var candidate := Grown(b.automatic.value, positions);
    if candidate == b.automatic.value then b.(pendingCount := 0)
    else
      var pending := if b.pendingCount > 0 then United(b.pending, candidate) else candidate;
      if b.pendingCount + 1 < AUTOMATIC_BOUNDS_EXPANSION_FRAME_COUNT
        then b.(pending := pending, pendingCount := b.pendingCount + 1)
      else b.(automatic := Some(Padded(pending, c.paddingRatio)), pending := NO_RECT, pendingCount := 0)
  }

  /** The bounds after an accepted frame whose objects have these filtered positions. */
  function Updated(b: Bounds, sourceTimestamp: int, positions: seq<Point>, c: WorldConfig): Bounds {
    if b.configured.Some? || positions == [] then b
    else if b.automatic.Some? then Expanded(b, positions, c)
    else
      var start := if b.start <= 0 then sourceTimestamp else b.start;
      var samples := Collected(b.samples, positions, c.maximumSamples);
      if sourceTimestamp - start < c.warmupMsec || |samples| < c.minimumSamples
        then b.(start := start, samples := samples)
      else b.(start := start, samples := [], automatic := Some(Estimated(samples, c)))
  }

  /** `reset` forgets everything but bounds that exist. */
  function Forgotten(b: Bounds): Bounds {
    var kept := b.(pending := NO_RECT, pendingCount := 0);
    if b.automatic.Some? then kept else kept.(samples := [], start := 0)
  }

  // ---------- the loops ----------

  method Grow(r: Rect, positions: seq<Point>) returns (grown: Rect)
    ensures grown == Grown(r, positions)
  {
    var left, top, right, bottom := r.left, r.top, r.right, r.bottom;
    for i := 0 to |positions|
      invariant Rect(left, top, right, bottom) == Grown(r, positions[..i])
    {
      assert positions[..i + 1][..i] == positions[..i];
      left, top := Min(left, positions[i].x), Min(top, positions[i].y);
      right, bottom := Max(right, positions[i].x), Max(bottom, positions[i].y);
    }
    assert positions[..|positions|] == positions;
    grown := Rect(left, top, right, bottom);
  }

  method Collect(samples: seq<Point>, positions: seq<Point>, maximum: int) returns (collected: seq<Point>)
    ensures collected == Collected(samples, positions, maximum)
  {
    collected := samples;
    for i := 0 to |positions|
      invariant Collected(collected, positions[i..], maximum) == Collected(samples, positions, maximum)
    {
      if |collected| >= maximum {
        return;
      }
      assert positions[i..][1..] == positions[i + 1..];
      collected := collected + [positions[i]];
    }
  }

  // ---------- what the estimate is ----------

  lemma PaddedCovers(r: Rect, ratio: real)
    requires r.left <= r.right && r.top <= r.bottom && ratio >= 0.0
    ensures Padded(r, ratio).Covers(r) && (r.HasSize() ==> Padded(r, ratio).HasSize())
  {
    Nonneg(r.right - r.left, ratio);
    Nonneg(r.bottom - r.top, ratio);
  }

  lemma CoreCovers(lo: real, hi: real)
    requires lo <= hi
    ensures var size, center := Max(1.0, hi - lo), (lo + hi) * 0.5;
            center - size * 0.5 <= lo && hi <= center + size * 0.5 && center - size * 0.5 < center + size * 0.5
  {}

  /** The estimate has positive size and covers everything between the two percentiles, on both axes. */
  lemma EstimateHasSize(samples: seq<Point>, c: WorldConfig, minX: real, maxX: real, minY: real, maxY: real)
    requires c.Valid() && samples != []
    requires minX == Percentile(Xs(samples), c.outlierFraction)
    requires maxX == Percentile(Xs(samples), 1.0 - c.outlierFraction)
    requires minY == Percentile(Ys(samples), c.outlierFraction)
    requires maxY == Percentile(Ys(samples), 1.0 - c.outlierFraction)
    ensures Estimated(samples, c).HasSize() && Estimated(samples, c).Covers(Rect(minX, minY, maxX, maxY))
  {
    PercentilesOrdered(Xs(samples), c.outlierFraction, minX, maxX);
    PercentilesOrdered(Ys(samples), c.outlierFraction, minY, maxY);
    BoxHasSize(minX, maxX, minY, maxY, c.paddingRatio);
  }

  lemma PercentilesOrdered(values: seq<real>, fraction: real, low: real, high: real)
    requires values != [] && 0.0 <= fraction <= 0.25 && low == Percentile(values, fraction)
    requires high == Percentile(values, 1.0 - fraction)
    ensures low <= high
  {
    PercentileMonotone(values, fraction, 1.0 - fraction);
  }

  lemma BoxHasSize(minX: real, maxX: real, minY: real, maxY: real, ratio: real)
    requires minX <= maxX && minY <= maxY && ratio >= 0.0
    ensures Box(minX, maxX, minY, maxY, ratio).HasSize()
    ensures Box(minX, maxX, minY, maxY, ratio).Covers(Rect(minX, minY, maxX, maxY))
  {
    CoreCovers(minX, maxX);
    CoreCovers(minY, maxY);
    var width, height := Max(1.0, maxX - minX), Max(1.0, maxY - minY);
    var centerX, centerY := (minX + maxX) * 0.5, (minY + maxY) * 0.5;
    PaddedCovers(Rect(centerX - width * 0.5, centerY - height * 0.5, centerX + width * 0.5, centerY + height * 0.5),
                 ratio);
  }

  // ---------- growth ----------

  /** Growing covers the old rectangle and all positions, and changes nothing exactly when all
      positions are inside already. */
  lemma {:induction false} GrownCovers(r: Rect, positions: seq<Point>)
    ensures Grown(r, positions).Covers(r)
    ensures forall i :: 0 <= i < |positions| ==> Grown(r, positions).Contains(positions[i])
    ensures Grown(r, positions) == r <==> forall i :: 0 <= i < |positions| ==> r.Contains(positions[i])
  {
    if positions != [] {
      var n := |positions| - 1;
      GrownCovers(r, positions[..n]);
      assert forall i :: 0 <= i < n ==> positions[..n][i] == positions[i];
    }
  }

  predicate BoundsSound(b: Bounds) {
    && (b.automatic.Some? ==> b.automatic.value.HasSize())
    && b.pendingCount < AUTOMATIC_BOUNDS_EXPANSION_FRAME_COUNT
    && (b.pendingCount > 0 ==> b.automatic.Some? && b.pending.Covers(b.automatic.value))
  }

  lemma ExpandedCovers(b: Bounds, positions: seq<Point>, c: WorldConfig)
    requires c.Valid() && BoundsSound(b) && b.automatic.Some?
    ensures BoundsSound(Expanded(b, positions, c))
    ensures Expanded(b, positions, c).automatic.Some?
    ensures Expanded(b, positions, c).automatic.value.Covers(b.automatic.value)
  {
    GrownCovers(b.automatic.value, positions);
    var candidate := Grown(b.automatic.value, positions);
    var pending := if b.pendingCount > 0 then United(b.pending, candidate) else candidate;
    PaddedCovers(pending, c.paddingRatio);
  }

  /** Once automatic bounds exist they stay and only grow, whatever frame is accepted. */
  lemma UpdateOnlyGrows(b: Bounds, sourceTimestamp: int, positions: seq<Point>, c: WorldConfig)
    requires c.Valid() && BoundsSound(b)
    ensures var after := Updated(b, sourceTimestamp, positions, c);
            && BoundsSound(after) && after.configured == b.configured
            && (b.automatic.Some? ==> after.automatic.Some? && after.automatic.value.Covers(b.automatic.value))
  {
    if b.configured.None? && positions != [] {
      if b.automatic.Some? {
        ExpandedCovers(b, positions, c);
      } else {
        var samples := Collected(b.samples, positions, c.maximumSamples);
        if |samples| >= c.minimumSamples {
          EstimateHasSize(samples, c,
            Percentile(Xs(samples), c.outlierFraction), Percentile(Xs(samples), 1.0 - c.outlierFraction),
            Percentile(Ys(samples), c.outlierFraction), Percentile(Ys(samples), 1.0 - c.outlierFraction));
        }
      }
    }
  }

  // ---------- when the bounds change ----------

  datatype Event = Accepted(sourceTimestamp: int, positions: seq<Point>) | Reset

  ghost function After(b: Bounds, events: seq<Event>, c: WorldConfig): Bounds {
    if events == [] then b
    else
      var before := After(b, events[..|events| - 1], c);
      match events[|events| - 1]
      case Accepted(sourceTimestamp, positions) => Updated(before, sourceTimestamp, positions, c)
      case Reset => Forgotten(before)
  }

  predicate AllInside(r: Rect, positions: seq<Point>) {
    forall i :: 0 <= i < |positions| ==> r.Contains(positions[i])
  }

  /** Non-empty accepted frames with somebody outside `r`, counted back to the last non-empty
      frame with everybody inside or the last reset. */
  function OutsideStreak(r: Rect, events: seq<Event>): nat {
    if events == [] then 0
    else
      var before := OutsideStreak(r, events[..|events| - 1]);
      match events[|events| - 1]
      case Accepted(_, positions) => if positions == [] then before else if AllInside(r, positions) then 0
        else before + 1
      case Reset => 0
  }

  /** The bounds stay exactly as they are until the third frame of such a streak. */
  lemma {:induction false} UnchangedBelowThree(b: Bounds, events: seq<Event>, c: WorldConfig)
    requires b.configured.None? && b.automatic.Some? && b.pendingCount == 0
    requires forall k :: 0 <= k <= |events| ==> OutsideStreak(b.automatic.value, events[..k]) < 3
    ensures After(b, events, c).automatic == b.automatic && After(b, events, c).configured.None?
    ensures After(b, events, c).pendingCount == OutsideStreak(b.automatic.value, events)
  {
    assert events[..|events|] == events;
    if events != [] {
      var n := |events| - 1;
      forall k | 0 <= k <= n ensures OutsideStreak(b.automatic.value, events[..n][..k]) < 3 {
        assert events[..n][..k] == events[..k];
      }
      UnchangedBelowThree(b, events[..n], c);
      match events[n]
      case Accepted(_, positions) => GrownCovers(b.automatic.value, positions);
      case Reset =>
    }
  }

  /** The positions of the frames of the streak, in order. */
  function StreakPositions(r: Rect, events: seq<Event>): seq<Point> {
    if events == [] then []
    else
      var before := StreakPositions(r, events[..|events| - 1]);
      match events[|events| - 1]
      case Accepted(_, positions) =>
        if positions == [] then before else if AllInside(r, positions) then [] else before + positions
      case Reset => []
  }

  lemma {:induction false} GrownMore(r: Rect, positions: seq<Point>, more: seq<Point>)
    ensures Grown(r, positions + more) == United(Grown(r, positions), Grown(r, more))
  {
    GrownCovers(r, positions);
    if more == [] {
      assert positions + more == positions;
    } else {
      var n := |more| - 1;
      GrownMore(r, positions, more[..n]);
      assert (positions + more)[..|positions + more| - 1] == positions + more[..n];
    }
  }

  /** After `count` frames of a streak the pending rectangle surrounds the old one and their positions. */
  predicate IsHull(pending: Rect, r: Rect, count: nat, streak: seq<Point>) {
    if count == 0 then streak == [] else pending == Grown(r, streak)
  }

  lemma {:induction false} PendingIsHull(b: Bounds, events: seq<Event>, c: WorldConfig)
    requires b.configured.None? && b.automatic.Some? && b.pendingCount == 0
    requires forall k :: 0 <= k <= |events| ==> OutsideStreak(b.automatic.value, events[..k]) < 3
    ensures var r := b.automatic.value;
            IsHull(After(b, events, c).pending, r, OutsideStreak(r, events), StreakPositions(r, events))
  {
    if events != [] {
      var n, r := |events| - 1, b.automatic.value;
      forall k | 0 <= k <= n ensures OutsideStreak(r, events[..n][..k]) < 3 { assert events[..n][..k] == events[..k]; }
      assert events[..|events|] == events;
      PendingIsHull(b, events[..n], c);
      UnchangedBelowThree(b, events[..n], c);
      var before := After(b, events[..n], c);
      match events[n]
      case Accepted(ts, positions) =>
        FrameHull(before, ts, positions, c, StreakPositions(r, events[..n]));
      case Reset =>
    }
  }

  lemma FrameHull(b: Bounds, ts: int, positions: seq<Point>, c: WorldConfig, streak: seq<Point>)
    requires b.configured.None? && b.automatic.Some? && IsHull(b.pending, b.automatic.value, b.pendingCount, streak)
    ensures var r, after := b.automatic.value, Updated(b, ts, positions, c);
            if positions == [] then after == b
            else AllInside(r, positions) || b.pendingCount >= 2 || after.pending == Grown(r, streak + positions)
  {
    GrownCovers(b.automatic.value, positions);
    GrownMore(b.automatic.value, streak, positions);
    if streak == [] { assert streak + positions == positions; }
  }

  /** At the third frame they become the smallest rectangle around the old one and the positions of all
      three, padded. */
  lemma WidenedExactly(b: Bounds, events: seq<Event>, c: WorldConfig)
    requires b.configured.None? && b.automatic.Some? && b.pendingCount == 0
    requires OutsideStreak(b.automatic.value, events) == 3
    requires forall k :: 0 <= k < |events| ==> OutsideStreak(b.automatic.value, events[..k]) < 3
    ensures After(b, events, c).automatic
         == Some(Padded(Grown(b.automatic.value, StreakPositions(b.automatic.value, events)), c.paddingRatio))
  {
    var n, r := |events| - 1, b.automatic.value;
    var prefix := events[..n];
    assert forall k :: 0 <= k <= n ==> prefix[..k] == events[..k];
    assert prefix[..n] == prefix;
    UnchangedBelowThree(b, prefix, c);
    PendingIsHull(b, prefix, c);
    ThirdHull(After(b, prefix, c), events[n].sourceTimestamp, events[n].positions, c, StreakPositions(r, prefix));
  }

  lemma ThirdHull(b: Bounds, ts: int, positions: seq<Point>, c: WorldConfig, streak: seq<Point>)
    requires b.configured.None? && b.automatic.Some? && b.pendingCount == 2
    requires b.pending == Grown(b.automatic.value, streak)
    requires positions != [] && !AllInside(b.automatic.value, positions)
    ensures Updated(b, ts, positions, c).automatic
         == Some(Padded(Grown(b.automatic.value, streak + positions), c.paddingRatio))
  {
    GrownCovers(b.automatic.value, positions);
    GrownMore(b.automatic.value, streak, positions);
  }

  /** `Grown` is the smallest rectangle that covers `r` and the positions. */
  lemma {:induction false} GrownIsSmallest(r: Rect, positions: seq<Point>, other: Rect)
    requires other.Covers(r) && forall i :: 0 <= i < |positions| ==> other.Contains(positions[i])
    ensures other.Covers(Grown(r, positions))
  {
    if positions != [] {
      var n := |positions| - 1;
      assert forall i :: 0 <= i < n ==> positions[..n][i] == positions[i];
      GrownIsSmallest(r, positions[..n], other);
    }
  }

  /** And at the third frame they do change, to strictly larger bounds that hold it. */
  lemma ChangedAtThree(b: Bounds, events: seq<Event>, c: WorldConfig)
    requires c.Valid() && BoundsSound(b) && b.configured.None? && b.automatic.Some? && b.pendingCount == 0
    requires OutsideStreak(b.automatic.value, events) == 3
    requires forall k :: 0 <= k < |events| ==> OutsideStreak(b.automatic.value, events[..k]) < 3
    ensures events != [] && (events[|events| - 1].Accepted? ==> events[|events| - 1].positions != [])
    ensures var after, last := After(b, events, c).automatic, events[|events| - 1];
            && after.Some? && after.value.Covers(b.automatic.value) && after != b.automatic
            && last.Accepted? && forall i :: 0 <= i < |last.positions| ==> after.value.Contains(last.positions[i])
  {
    var n := |events| - 1;
    var prefix := events[..n];
    assert forall k :: 0 <= k <= n ==> prefix[..k] == events[..k];
    assert prefix[..n] == prefix;
    UnchangedBelowThree(b, prefix, c);
    SoundAfter(b, prefix, c);
    ThirdFrameWidens(After(b, prefix, c), events[n], c);
  }

  lemma ThirdFrameWidens(b: Bounds, event: Event, c: WorldConfig)
    requires c.Valid() && BoundsSound(b) && b.configured.None? && b.automatic.Some? && b.pendingCount == 2
    requires event.Accepted? && event.positions != [] && !AllInside(b.automatic.value, event.positions)
    ensures var after := Updated(b, event.sourceTimestamp, event.positions, c).automatic;
            && after.Some? && after.value.Covers(b.automatic.value) && after != b.automatic
            && forall i :: 0 <= i < |event.positions| ==> after.value.Contains(event.positions[i])
  {
    GrownCovers(b.automatic.value, event.positions);
    var pending := United(b.pending, Grown(b.automatic.value, event.positions));
    PaddedCovers(pending, c.paddingRatio);
    var i :| 0 <= i < |event.positions| && !b.automatic.value.Contains(event.positions[i]);
    assert pending.Contains(event.positions[i]);
  }

  lemma {:induction false} SoundAfter(b: Bounds, events: seq<Event>, c: WorldConfig)
    requires c.Valid() && BoundsSound(b)
    ensures BoundsSound(After(b, events, c)) && After(b, events, c).configured == b.configured
    ensures b.automatic.Some?
        ==> After(b, events, c).automatic.Some? && After(b, events, c).automatic.value.Covers(b.automatic.value)
  {
    if events != [] {
      var n := |events| - 1;
      SoundAfter(b, events[..n], c);
      match events[n]
      case Accepted(sourceTimestamp, positions) => UpdateOnlyGrows(After(b, events[..n], c), sourceTimestamp, positions,
                                                                   c);
      case Reset =>
    }
  }
}
