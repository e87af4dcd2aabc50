/** When automatic world bounds come into being, and which rectangle they are. */
module TrackerWarmup {
  import opened Domain
  import opened TrackerFilters
  import opened TrackerBounds
  import opened TrackerState
  import opened TrackerRuns

  // ---------- what the frames say ----------

  /** The accepted frames that hold somebody, since the last reset. */
  ghost function Gathered(events: seq<Event>): (r: seq<Event>)
    ensures forall i :: 0 <= i < |r| ==> r[i].Accepted? && r[i].positions != [] && r[i] in events
  {
    if events == [] then []
    else
      var before, last := Gathered(events[..|events| - 1]), events[|events| - 1];
      match last
      case Reset => []
      case Accepted(_, positions) => if positions == [] then before else before + [last]
  }

  /** Their positions, in order. */
  ghost function Positions(frames: seq<Event>): seq<Point>
    requires forall i :: 0 <= i < |frames| ==> frames[i].Accepted?
  {
    if frames == [] then [] else Positions(frames[..|frames| - 1]) + frames[|frames| - 1].positions
  }

  /** The last event is a frame with somebody in it, by which the frames since the last reset span the
      warm-up time and hold enough positions. */
  ghost predicate WarmedUp(events: seq<Event>, c: WorldConfig) {
    && events != [] && events[|events| - 1].Accepted? && events[|events| - 1].positions != []
    && var frames := Gathered(events);
       && events[|events| - 1].sourceTimestamp - frames[0].sourceTimestamp >= c.warmupMsec
       && |Positions(frames)| >= c.minimumSamples
  }

  ghost predicate ColdBelow(events: seq<Event>, c: WorldConfig, n: nat)
    requires n <= |events|
  {
    forall k :: 0 <= k < n ==> !WarmedUp(events[..k], c)
  }

  /** The first `n` events are the first that are enough. */
  ghost predicate WarmsUpAt(events: seq<Event>, c: WorldConfig, n: nat) {
    n <= |events| && WarmedUp(events[..n], c) && ColdBelow(events, c, n)
  }

  lemma ColdPrefix(events: seq<Event>, c: WorldConfig, n: nat, m: nat)
    requires n <= m <= |events| && ColdBelow(events, c, n)
    ensures ColdBelow(events[..m], c, n)
  {
    forall k | 0 <= k < n ensures !WarmedUp(events[..m][..k], c) { assert events[..m][..k] == events[..k]; }
  }

  ghost predicate Stamped(events: seq<Event>) {
    forall i :: 0 <= i < |events| ==> events[i].Accepted? ==> events[i].sourceTimestamp > 0
  }

  // ---------- before there are bounds ----------

  function Front(points: seq<Point>, n: int): seq<Point> {
    if n <= 0 then [] else if |points| <= n then points else points[..n]
  }

  lemma {:induction false} CollectedIsFront(samples: seq<Point>, positions: seq<Point>, maximum: int)
    requires |samples| <= maximum
    ensures Collected(samples, positions, maximum) == Front(samples + positions, maximum)
    decreases |positions|
  {
    if positions == [] {
      assert samples + positions == samples;
    } else if |samples| >= maximum {
      assert (samples + positions)[..|samples|] == samples;
    } else {
      CollectedIsFront(samples + [positions[0]], positions[1..], maximum);
      assert samples + [positions[0]] + positions[1..] == samples + positions;
    }
  }

  lemma FrontOfFront(points: seq<Point>, more: seq<Point>, n: int)
    requires n >= 0
    ensures Front(Front(points, n) + more, n) == Front(points + more, n)
  {}

  /** Until then the samples are the first positions since the last reset, and the start is the time of
      the first of their frames. */
  ghost predicate Collecting(b: Bounds, events: seq<Event>, c: WorldConfig) {
    var frames := Gathered(events);
    && b.configured.None? && b.automatic.None? && b.samples == Front(Positions(frames), c.maximumSamples)
    && b.start == if frames == [] then 0 else frames[0].sourceTimestamp
  }

  lemma GatheredMore(events: seq<Event>, event: Event)
    requires event.Accepted? && event.positions != []
    ensures Gathered(events + [event]) == Gathered(events) + [event]
    ensures Positions(Gathered(events + [event])) == Positions(Gathered(events)) + event.positions
  {
    var all, frames := events + [event], Gathered(events);
    assert all[..|all| - 1] == events;
    assert (frames + [event])[..|frames|] == frames;
  }

  lemma SamplesMore(samples: seq<Point>, before: seq<Point>, more: seq<Point>, maximum: int)
    requires samples == Front(before, maximum) && maximum >= 0
    ensures Collected(samples, more, maximum) == Front(before + more, maximum)
  {
    CollectedIsFront(samples, more, maximum);
    FrontOfFront(before, more, maximum);
  }

  /** The bounds after a frame with these samples, of the frames since `start`. */
  lemma FrameCollects(b: Bounds, ts: int, positions: seq<Point>, c: WorldConfig)
    requires b.configured.None? && b.automatic.None? && positions != []
    ensures var after, start := Updated(b, ts, positions, c), if b.start <= 0 then ts else b.start;
            var samples := Collected(b.samples, positions, c.maximumSamples);
            if ts - start >= c.warmupMsec && |samples| >= c.minimumSamples
              then after.automatic == Some(Estimated(samples, c))
            else after.automatic.None? && after.configured.None? && after.samples == samples && after.start == start
  {}

  lemma OneMoreFrame(b: Bounds, events: seq<Event>, event: Event, c: WorldConfig)
    requires c.Valid() && Collecting(b, events, c) && Stamped(events)
    requires event.Accepted? && event.positions != [] && event.sourceTimestamp > 0
    ensures var all, after := events + [event], Updated(b, event.sourceTimestamp, event.positions, c);
            if WarmedUp(all, c)
              then after.automatic == Some(Estimated(Front(Positions(Gathered(all)), c.maximumSamples), c))
            else Collecting(after, all, c)
  {
    GatheredMore(events, event);
    SamplesMore(b.samples, Positions(Gathered(events)), event.positions, c.maximumSamples);
    FrameCollects(b, event.sourceTimestamp, event.positions, c);
    var frames := Gathered(events);
    if frames != [] { assert frames[0] in events; }
    assert |Front(Positions(frames) + event.positions, c.maximumSamples)| >= c.minimumSamples
      <==> |Positions(frames) + event.positions| >= c.minimumSamples;
  }

  lemma OneMoreEvent(b: Bounds, events: seq<Event>, event: Event, c: WorldConfig)
    requires c.Valid() && Collecting(b, events, c)
    requires event.Reset? || event.positions == []
    ensures var all := events + [event];
            !WarmedUp(all, c) && Collecting(After(b, [event], c), all, c)
  {
    var all := events + [event];
    assert all[..|all| - 1] == events;
    AfterOne(b, event, c);
  }

  lemma {:induction false} CollectingUntil(events: seq<Event>, c: WorldConfig)
    requires c.Valid() && Stamped(events) && ColdBelow(events, c, |events|) && !WarmedUp(events, c)
    ensures Collecting(After(Initial(None), events, c), events, c)
  {
    if events != [] {
      var n := |events| - 1;
      ColdPrefix(events, c, n, n);
      assert !WarmedUp(events[..n], c);
      CollectingUntil(events[..n], c);
      CollectsLast(events, c);
    }
  }

  /** What the last event makes of the samples collected before it. */
  lemma CollectsLast(events: seq<Event>, c: WorldConfig)
    requires c.Valid() && Stamped(events) && events != []
    requires var before := events[..|events| - 1]; Collecting(After(Initial(None), before, c), before, c)
    ensures var after := After(Initial(None), events, c);
            if WarmedUp(events, c) then
              after.automatic == Some(Estimated(Front(Positions(Gathered(events)), c.maximumSamples), c))
            else Collecting(after, events, c)
  {
    var n := |events| - 1;
    var before, event := events[..n], events[n];
    assert events == before + [event];
    AfterOne(After(Initial(None), before, c), event, c);
    if event.Accepted? && event.positions != [] {
      OneMoreFrame(After(Initial(None), before, c), before, event, c);
    } else {
      OneMoreEvent(After(Initial(None), before, c), before, event, c);
    }
  }

  // ---------- the estimate ----------

  /** A box that covers the given one from its middle, at least 1 m in each direction, and padded. */
  predicate Surrounds(r: Rect, minX: real, maxX: real, minY: real, maxY: real, ratio: real) {
    && r.HasSize() && r.Covers(Rect(minX, minY, maxX, maxY))
    && r.left + r.right == minX + maxX && r.top + r.bottom == minY + maxY
    && r.right - r.left == Max(1.0, maxX - minX) * (1.0 + 2.0 * ratio)
    && r.bottom - r.top == Max(1.0, maxY - minY) * (1.0 + 2.0 * ratio)
  }

  /** The box of what lies between the two percentiles on each axis. */
  predicate Frames(r: Rect, xs: seq<real>, ys: seq<real>, c: WorldConfig) {
    Surrounds(r, Percentile(xs, c.outlierFraction), Percentile(xs, 1.0 - c.outlierFraction),
              Percentile(ys, c.outlierFraction), Percentile(ys, 1.0 - c.outlierFraction), c.paddingRatio)
  }

  lemma PaddedSize(r: Rect, ratio: real, width: real, height: real)
    requires width == r.right - r.left && height == r.bottom - r.top
    ensures var p := Padded(r, ratio);
            && p.left + p.right == r.left + r.right && p.top + p.bottom == r.top + r.bottom
            && p.right - p.left == width * (1.0 + 2.0 * ratio) && p.bottom - p.top == height * (1.0 + 2.0 * ratio)
  {
    assert width * (1.0 + 2.0 * ratio) == width + 2.0 * (width * ratio);
    assert height * (1.0 + 2.0 * ratio) == height + 2.0 * (height * ratio);
  }

  lemma EstimateFrames(samples: seq<Point>, c: WorldConfig)
    requires c.Valid() && samples != []
    ensures Frames(Estimated(samples, c), Xs(samples), Ys(samples), c)
  {
    var minX, maxX := Percentile(Xs(samples), c.outlierFraction), Percentile(Xs(samples), 1.0 - c.outlierFraction);
    var minY, maxY := Percentile(Ys(samples), c.outlierFraction), Percentile(Ys(samples), 1.0 - c.outlierFraction);
    PercentilesOrdered(Xs(samples), c.outlierFraction, minX, maxX);
    PercentilesOrdered(Ys(samples), c.outlierFraction, minY, maxY);
    BoxSurrounds(minX, maxX, minY, maxY, c.paddingRatio);
    EstimatedIsBox(samples, c, minX, maxX, minY, maxY);
    FramesFrom(Estimated(samples, c), Xs(samples), Ys(samples), c, minX, maxX, minY, maxY);
  }

  lemma FramesFrom(r: Rect, xs: seq<real>, ys: seq<real>, c: WorldConfig, minX: real, maxX: real, minY: real,
                   maxY: real)
    requires minX == Percentile(xs, c.outlierFraction) && maxX == Percentile(xs, 1.0 - c.outlierFraction)
    requires minY == Percentile(ys, c.outlierFraction) && maxY == Percentile(ys, 1.0 - c.outlierFraction)
    requires Surrounds(r, minX, maxX, minY, maxY, c.paddingRatio)
    ensures Frames(r, xs, ys, c)
  {}

  lemma EstimatedIsBox(samples: seq<Point>, c: WorldConfig, minX: real, maxX: real, minY: real, maxY: real)
    requires minX == Percentile(Xs(samples), c.outlierFraction)
    requires maxX == Percentile(Xs(samples), 1.0 - c.outlierFraction)
    requires minY == Percentile(Ys(samples), c.outlierFraction)
    requires maxY == Percentile(Ys(samples), 1.0 - c.outlierFraction)
    ensures Estimated(samples, c) == Box(minX, maxX, minY, maxY, c.paddingRatio)
  {}

  lemma BoxSurrounds(minX: real, maxX: real, minY: real, maxY: real, ratio: real)
    requires minX <= maxX && minY <= maxY && ratio >= 0.0
    ensures Surrounds(Box(minX, maxX, minY, maxY, ratio), minX, maxX, minY, maxY, ratio)
  {
    BoxHasSize(minX, maxX, minY, maxY, ratio);
    var width, height := Max(1.0, maxX - minX), Max(1.0, maxY - minY);
    var centerX, centerY := (minX + maxX) * 0.5, (minY + maxY) * 0.5;
    PaddedSize(Rect(centerX - width * 0.5, centerY - height * 0.5, centerX + width * 0.5, centerY + height * 0.5),
               ratio, width, height);
  }

  // ---------- over runs ----------

  lemma StepIsStamped(h: Hypot, s: Tracker, op: Op)
    ensures Stamped(EventsOf(h, s, op))
  {}

  lemma StampedMore(events: seq<Event>, more: seq<Event>)
    requires Stamped(events) && Stamped(more)
    ensures Stamped(events + more)
  {}

  lemma {:induction false} RunIsStamped(h: Hypot, c: Config, s: Tracker, ops: seq<Op>)
    requires c.Valid()
    ensures Stamped(Events(h, c, s, ops))
  {
    if ops != [] {
      var n := |ops| - 1;
      RunIsStamped(h, c, s, ops[..n]);
      StepIsStamped(h, Run(h, c, s, ops[..n]), ops[n]);
      StampedMore(Events(h, c, s, ops[..n]), EventsOf(h, Run(h, c, s, ops[..n]), ops[n]));
    }
  }

  lemma {:induction false} FirstTrue(holds: seq<bool>, n: nat) returns (k: nat)
    requires n < |holds| && holds[n]
    ensures k <= n && holds[k] && forall j :: 0 <= j < k ==> !holds[j]
  {
    if j :| 0 <= j < n && holds[j] { k := FirstTrue(holds, j); } else { k := n; }
  }

  lemma FirstWarm(events: seq<Event>, c: WorldConfig, n: nat) returns (k: nat)
    requires n <= |events| && WarmedUp(events[..n], c)
    ensures WarmsUpAt(events, c, k)
  {
    var warm := seq(n + 1, i requires 0 <= i <= n => WarmedUp(events[..i], c));
    k := FirstTrue(warm, n);
    forall j | 0 <= j < k ensures !WarmedUp(events[..j], c) { assert !warm[j]; }
  }

  lemma CollectingBefore(events: seq<Event>, c: WorldConfig)
    requires c.Valid() && Stamped(events) && events != [] && ColdBelow(events, c, |events|)
    ensures var before := events[..|events| - 1]; Collecting(After(Initial(None), before, c), before, c)
  {
    var n := |events| - 1;
    ColdPrefix(events, c, n, n);
    assert !WarmedUp(events[..n], c);
    CollectingUntil(events[..n], c);
  }

  lemma WarmUpGives(events: seq<Event>, c: WorldConfig)
    requires c.Valid() && Stamped(events) && WarmedUp(events, c) && ColdBelow(events, c, |events|)
    ensures var samples := Front(Positions(Gathered(events)), c.maximumSamples);
            samples != [] && After(Initial(None), events, c).automatic == Some(Estimated(samples, c))
  {
    CollectingBefore(events, c);
    CollectsLast(events, c);
    EnoughSamples(events, c);
  }

  lemma EnoughSamples(events: seq<Event>, c: WorldConfig)
    requires c.Valid() && WarmedUp(events, c)
    ensures Front(Positions(Gathered(events)), c.maximumSamples) != []
  {}

  lemma StaysSome(events: seq<Event>, c: WorldConfig, n: nat)
    requires c.Valid() && n <= |events| && After(Initial(None), events[..n], c).automatic.Some?
    ensures After(Initial(None), events, c).automatic.Some?
  {
    SoundAfter(Initial(None), events[..n], c);
    AfterMore(Initial(None), events[..n], events[n..], c);
    assert events[..n] + events[n..] == events;
    SoundAfter(After(Initial(None), events[..n], c), events[n..], c);
  }

  /** Some frame of the run is enough. */
  ghost predicate HasWarmedUp(events: seq<Event>, c: WorldConfig) {
    exists n: nat :: n <= |events| && WarmedUp(events[..n], c)
  }

  lemma ExistExactly(events: seq<Event>, c: WorldConfig)
    requires c.Valid() && Stamped(events)
    ensures Ready(After(Initial(None), events, c)) <==> HasWarmedUp(events, c)
  {
    SoundAfter(Initial(None), events, c);
    if HasWarmedUp(events, c) {
      var k: nat :| k <= |events| && WarmedUp(events[..k], c);
      ExistAfter(events, c, k);
    } else {
      NoneBefore(events, c);
    }
  }

  lemma ExistAfter(events: seq<Event>, c: WorldConfig, k: nat)
    requires c.Valid() && Stamped(events) && k <= |events| && WarmedUp(events[..k], c)
    ensures After(Initial(None), events, c).automatic.Some?
  {
    var n := FirstWarm(events, c, k);
    ColdPrefix(events, c, n, n);
    WarmUpGives(events[..n], c);
    StaysSome(events, c, n);
  }

  lemma NoneBefore(events: seq<Event>, c: WorldConfig)
    requires c.Valid() && Stamped(events) && !HasWarmedUp(events, c)
    ensures After(Initial(None), events, c).automatic.None?
  {
    forall k | 0 <= k < |events| ensures !WarmedUp(events[..k], c) {}
    assert events[..|events|] == events;
    CollectingUntil(events, c);
  }

  /** Without configured bounds there are bounds exactly if at some time the accepted frames since the
      last reset have spanned the warm-up with enough positions. */
  lemma BoundsExistExactly(h: Hypot, c: Config, ops: seq<Op>)
    requires c.Valid()
    ensures Ready(Run(h, c, Fresh(None), ops).bounds) <==> HasWarmedUp(Events(h, c, Fresh(None), ops), c.world)
  {
    RunEvents(h, c, Fresh(None), ops);
    RunIsStamped(h, c, Fresh(None), ops);
    ExistExactly(Events(h, c, Fresh(None), ops), c.world);
  }

  /** With the first frame that is enough they become the padded box around the percentiles of the
      positions since the last reset, of which no more than the maximum count. */
  lemma FirstBounds(h: Hypot, c: Config, ops: seq<Op>)
    requires c.Valid()
    requires var events := Events(h, c, Fresh(None), ops);
             WarmedUp(events, c.world) && ColdBelow(events, c.world, |events|)
    ensures var samples := Front(Positions(Gathered(Events(h, c, Fresh(None), ops))), c.world.maximumSamples);
            var r := Run(h, c, Fresh(None), ops).bounds.automatic;
            r.Some? && Frames(r.value, Xs(samples), Ys(samples), c.world)
  {
    RunEvents(h, c, Fresh(None), ops);
    RunIsStamped(h, c, Fresh(None), ops);
    WarmUpGives(Events(h, c, Fresh(None), ops), c.world);
    EstimateFrames(Front(Positions(Gathered(Events(h, c, Fresh(None), ops))), c.world.maximumSamples), c.world);
  }
}
