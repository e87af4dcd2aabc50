/** Invariants of the live object tracker over every run of its operations: where positions can
    be, which objects are missing, when an object is dropped, and how bright it is shown. */
module TrackerRuns {
  import opened Domain
  import opened TrackerFilters
  import opened TrackerBounds
  import opened TrackerState

  datatype Op = Submit(frame: Frame, now: int) | Render(now: int) | Expire(now: int, expiry: int) | Restart

  function Do(h: Hypot, c: Config, s: Tracker, op: Op): Tracker
    requires c.Valid()
  {
    match op
    case Submit(frame, now) => Submitted(h, c, s, frame, now).0
    case Render(now) => Built(c, s, now)
    case Expire(now, expiry) => Expired(s, now, expiry)
    case Restart => Restarted(s)
  }

  ghost function Run(h: Hypot, c: Config, s: Tracker, ops: seq<Op>): Tracker
    requires c.Valid()
  {
    if ops == [] then s else Do(h, c, Run(h, c, s, ops[..|ops| - 1]), ops[|ops| - 1])
  }

  lemma RunOne(h: Hypot, c: Config, s: Tracker, op: Op)
    requires c.Valid()
    ensures Run(h, c, s, [op]) == Do(h, c, s, op)
  {
    assert [op][..0] == [];
    assert Run(h, c, s, []) == s;
  }

  lemma RunMore(h: Hypot, c: Config, s: Tracker, ops: seq<Op>, op: Op)
    requires c.Valid()
    ensures Run(h, c, s, ops + [op]) == Do(h, c, Run(h, c, s, ops), op)
  {
    assert (ops + [op])[..|ops|] == ops;
  }

  lemma RunTwo(h: Hypot, c: Config, s: Tracker, a: Op, b: Op)
    requires c.Valid()
    ensures Run(h, c, s, [a, b]) == Do(h, c, Do(h, c, s, a), b)
  {
    assert [a, b] == [a] + [b];
    RunOne(h, c, s, a);
    RunMore(h, c, s, [a], b);
  }

  /** The operation clears the state of the run. */
  predicate Resets(s: Tracker, op: Op) {
    match op
    case Submit(frame, now) =>
      frame.sourceTimestamp > 0 && now > 0 && s.lastArrival > 0 && now - s.lastArrival > SOURCE_RESTART_GAP
    case Render(_) => false
    case Expire(now, expiry) => s.history != [] && now - s.lastArrival > expiry
    case Restart => true
  }

  // ---------- positions ----------

  ghost predicate FiltersInside(f: Filters, r: Rect) {
    && (forall id :: id in f.histories ==> |f.histories[id]| <= MEDIAN_SAMPLE_COUNT
                                           && forall i :: 0 <= i < |f.histories[id]| ==> r.Contains(f.histories[id][i]))
    && (forall id :: id in f.positions ==> r.Contains(f.positions[id]))
  }

  ghost predicate ObjectsInside(objects: seq<RiskObject>, r: Rect) {
    forall i :: 0 <= i < |objects| ==> r.Contains(objects[i].worldPosition)
  }

  ghost predicate PointsInside(m: map<int, Point>, r: Rect) {
    forall id :: id in m ==> r.Contains(m[id])
  }

  ghost predicate TransitionsInside(m: map<int, Transition>, r: Rect) {
    forall id :: id in m ==> TransitionInside(m[id], r)
  }

  ghost predicate RetainedInside(m: map<int, RiskObject>, r: Rect) {
    forall id :: id in m ==> r.Contains(m[id].worldPosition)
  }

  ghost predicate EventsInside(events: seq<RiskEvent>, r: Rect) {
    forall i :: 0 <= i < |events| ==> r.Contains(events[i].position)
  }

  ghost predicate ShownInside(shown: seq<Shown>, r: Rect) {
    forall i :: 0 <= i < |shown| ==> r.Contains(shown[i].position)
  }

  /** Every position the tracker holds. */
  ghost predicate Inside(s: Tracker, r: Rect) {
    && FiltersInside(s.filters, r)
    && (forall i :: 0 <= i < |s.history| ==> ObjectsInside(s.history[i].objects, r))
    && RetainedInside(s.life.retained, r)
    && TransitionsInside(s.display.transitions, r)
    && PointsInside(s.previous, r)
    && EventsInside(s.pulses.events, r)
  }

  lemma SampledInside(history: seq<Point>, p: Point, r: Rect)
    requires |history| <= MEDIAN_SAMPLE_COUNT && r.Contains(p)
    requires forall i :: 0 <= i < |history| ==> r.Contains(history[i])
    ensures forall i :: 0 <= i < |Sampled(history, p)| ==> r.Contains(Sampled(history, p)[i])
    ensures r.Contains(Median(Sampled(history, p)))
  {
    var after := Sampled(history, p);
    forall q | q in after ensures r.Contains(q) {
      assert q in history || q == p;
    }
    MedianStaysInside(after, r);
  }

  lemma LimitedInside(h: Hypot, p: Point, q: Point, gap: int, r: Rect)
    requires r.Contains(p) && r.Contains(q)
    ensures r.Contains(Limited(h, p, q, gap))
  {
    AlongStaysInside(p, q, StepRatio(Distance(h, p, q), MaximumDistance(gap)), r);
  }

  lemma ObservedInside(h: Hypot, f: Filters, id: int, p: Point, now: int, r: Rect)
    requires FiltersInside(f, r) && r.Contains(p)
    ensures FiltersInside(Observed(h, f, id, p, now), r)
  {
    var history := Get(f.histories, id, []);
    SampledInside(history, p, r);
    var median, before := Median(Sampled(history, p)), Get(f.times, id, 0);
    if id in f.positions { LimitedInside(h, f.positions[id], median, now - before, r); }
  }

  lemma {:induction false} ObservedAllInside(h: Hypot, f: Filters, objects: seq<RiskObject>, now: int, r: Rect)
    requires FiltersInside(f, r) && ObjectsInside(objects, r)
    ensures FiltersInside(ObservedAll(h, f, objects, now), r)
  {
    if objects != [] {
      var n := |objects| - 1;
      ObservedAllInside(h, f, objects[..n], now, r);
      ObservedInside(h, ObservedAll(h, f, objects[..n], now), objects[n].globalId, objects[n].worldPosition, now, r);
    }
  }

  /** What the acceptance test lets through is inside the accepted area. */
  lemma KeptInside(b: Bounds, objects: seq<RiskObject>)
    requires b.configured.Some?
    ensures ObjectsInside(Kept(b, objects), AcceptedArea(b.configured.value))
  {}

  /** Without bounds every position is admitted; with bounds those up to twice their size away on each side. */
  predicate Admits(b: Bounds, p: Point) {
    var r := if b.configured.Some? then b.configured else b.automatic;
    r.Some? ==>
      var width, height := r.value.right - r.value.left, r.value.bottom - r.value.top;
      && r.value.left - p.x <= 2.0 * width && p.x - r.value.right <= 2.0 * width
      && r.value.top - p.y <= 2.0 * height && p.y - r.value.bottom <= 2.0 * height
  }

  lemma {:induction false} KeptExactly(b: Bounds, objects: seq<RiskObject>)
    ensures Kept(b, objects) == Filter(objects, (o: RiskObject) => Admits(b, o.worldPosition))
  {
    if objects != [] { KeptExactly(b, objects[..|objects| - 1]); }
  }

  lemma {:induction false} SeenInside(life: Lifecycle, objects: seq<RiskObject>, r: Rect)
    requires RetainedInside(life.retained, r) && ObjectsInside(objects, r)
    ensures RetainedInside(Seen(life, objects).retained, r)
  {
    if objects != [] {
      SeenInside(life, objects[..|objects| - 1], r);
    }
  }

  lemma LifeInside(life: Lifecycle, objects: seq<RiskObject>, now: int, retention: int, r: Rect)
    requires RetainedInside(life.retained, r) && ObjectsInside(objects, r)
    ensures RetainedInside(LifeAfter(life, objects, now, retention).retained, r)
  {
    SeenInside(life, objects, r);
  }

  lemma AcceptInside(h: Hypot, c: Config, s: Tracker, frame: Frame, now: int, delta: int, r: Rect)
    requires c.Valid() && Inside(s, r) && s.bounds.configured.Some? && r == AcceptedArea(s.bounds.configured.value)
    ensures Inside(Accept(h, c, s, frame, now, delta), r)
  {
    var objects := Kept(s.bounds, frame.objects);
    KeptInside(s.bounds, frame.objects);
    ObservedAllInside(h, s.filters, objects, now, r);
    LifeInside(s.life, objects, now, Retention(c), r);
    HistoryInside(s.history, frame.(objects := objects), c.maximumHistorySize, r);
    var after := Accept(h, c, s, frame, now, delta);
    assert after.life.retained == LifeAfter(s.life, objects, now, Retention(c)).retained;
    assert after.history == Trimmed(s.history + [frame.(objects := objects)], c.maximumHistorySize);
  }

  /** The frames remembered are the newest ones. */
  lemma {:induction false} TrimmedExactly(history: seq<Frame>, maximum: int)
    requires maximum >= 1
    ensures Trimmed(history, maximum) == if |history| > maximum then history[|history| - maximum..] else history
    decreases |history|
  {
    if |history| > maximum { TrimmedExactly(history[1..], maximum); }
  }

  lemma HistoryInside(history: seq<Frame>, frame: Frame, maximum: int, r: Rect)
    requires maximum >= 1 && ObjectsInside(frame.objects, r)
    requires forall i :: 0 <= i < |history| ==> ObjectsInside(history[i].objects, r)
    ensures var after := Trimmed(history + [frame], maximum);
      forall i :: 0 <= i < |after| ==> ObjectsInside(after[i].objects, r)
  {
    var after := Trimmed(history + [frame], maximum);
    forall i | 0 <= i < |after| ensures ObjectsInside(after[i].objects, r) {
      assert after[i] in history + [frame];
    }
  }

  /** The bounds' configuration is never changed by a frame. */
  lemma ConfiguredStays(b: Bounds, sourceTimestamp: int, positions: seq<Point>, c: WorldConfig)
    ensures Updated(b, sourceTimestamp, positions, c).configured == b.configured
  {}

  ghost predicate DrawingInside(d: Drawing, r: Rect) {
    TransitionsInside(d.display.transitions, r) && PointsInside(d.current, r) && ShownInside(d.objects, r)
  }

  lemma DrawnInside(c: Config, s: Tracker, objects: seq<RiskObject>, d: Drawing, o: RiskObject, now: int, r: Rect)
    requires DrawingInside(d, r) && FiltersInside(s.filters, r) && r.Contains(o.worldPosition)
    ensures DrawingInside(DrawnObserved(c, s.filters, s.previous, s.frameSequence, s.measuredInterval, objects, d, o,
                                        now), r)
  {
    var duration := TransitionDuration(c, s.measuredInterval);
    var t :=
      Retargeted(Lookup(d.display.transitions, o.globalId), TargetOf(s.filters, o), s.frameSequence, duration, now);
    RetargetedStaysInside(Lookup(d.display.transitions, o.globalId), TargetOf(s.filters, o), s.frameSequence, duration,
                          now, r);
    RenderedStaysInside(t, duration, now, r);
  }

  lemma {:induction false} DrawnAllInside(c: Config, s: Tracker, objects: seq<RiskObject>, n: nat, now: int, r: Rect)
    requires n <= |objects| && ObjectsInside(objects, r) && Inside(s, r)
    ensures DrawingInside(DrawnAll(c, s, objects, n, now), r)
  {
    if n > 0 {
      DrawnAllInside(c, s, objects, n - 1, now, r);
      DrawnInside(c, s, objects, DrawnAll(c, s, objects, n - 1, now), objects[n - 1], now, r);
    }
  }

  lemma MidpointInside(p: Point, q: Point, r: Rect)
    requires r.Contains(p) && r.Contains(q)
    ensures r.Contains(Midpoint(p, q))
  {}

  lemma {:induction false} PulsedInside(p: Pulses, pairs: seq<PairRisk>, current: map<int, Point>, now: int, r: Rect)
    requires EventsInside(p.events, r) && PointsInside(current, r)
    ensures EventsInside(PulsedAll(p, pairs, current, now).events, r)
  {
    if pairs != [] {
      var n := |pairs| - 1;
      PulsedInside(p, pairs[..n], current, now, r);
      if pairs[n].first in current && pairs[n].second in current {
        MidpointInside(current[pairs[n].first], current[pairs[n].second], r);
      }
    }
  }

  ghost predicate GhostsInside(ghosts: map<int, Shown>, r: Rect) {
    forall id :: id in ghosts ==> r.Contains(ghosts[id].position)
  }

  lemma FinishedInside(c: Config, s: Tracker, d: Drawing, ghosts: map<int, Shown>, now: int, r: Rect)
    requires Inside(s, r) && DrawingInside(d, r) && GhostsInside(ghosts, r)
    ensures Inside(Finished(c, s, d, ghosts, now), r)
  {
    PulsedInside(s.pulses, d.pairs, d.current + Positions(ghosts), now, r);
  }

  /** Displayed positions, missing objects and risk events included. */
  lemma RenderInside(c: Config, s: Tracker, now: int, r: Rect)
    requires Inside(s, r)
    ensures Inside(Built(c, s, now), r)
    ensures ShownInside(Picture(c, s, now).observed, r) && GhostsInside(Picture(c, s, now).missing, r)
  {
    var q := Quiet(s);
    if Drawable(q) {
      DrawnAllInside(c, q, Latest(q), |Latest(q)|, now, r);
      var d := DrawnAll(c, q, Latest(q), |Latest(q)|, now);
      FinishedInside(c, q, d, Ghosts(c, q.life, q.filters, d.display, Undrawn(q, d), now), now, r);
    }
  }

  lemma SubmitInside(h: Hypot, c: Config, s: Tracker, frame: Frame, now: int, r: Rect)
    requires c.Valid() && Inside(s, r) && s.bounds.configured.Some? && r == AcceptedArea(s.bounds.configured.value)
    ensures Inside(Submitted(h, c, s, frame, now).0, r)
    ensures Submitted(h, c, s, frame, now).0.bounds.configured == s.bounds.configured
  {
    var a := Arrived(s, now);
    assert Inside(a, r) && a.bounds.configured == s.bounds.configured;
    AcceptInside(h, c, a, frame, now, Delta(s, now), r);
    AcceptKeepsConfiguration(h, c, a, frame, now, Delta(s, now));
  }

  lemma AcceptKeepsConfiguration(h: Hypot, c: Config, s: Tracker, frame: Frame, now: int, delta: int)
    requires c.Valid()
    ensures Accept(h, c, s, frame, now, delta).bounds.configured == s.bounds.configured
  {
    var objects := Kept(s.bounds, frame.objects);
    ConfiguredStays(s.bounds, frame.sourceTimestamp, Targets(ObservedAll(h, s.filters, objects, now), objects),
                    c.world);
  }

  lemma StepInside(h: Hypot, c: Config, s: Tracker, op: Op, r: Rect)
    requires c.Valid() && Inside(s, r) && s.bounds.configured.Some? && r == AcceptedArea(s.bounds.configured.value)
    ensures Inside(Do(h, c, s, op), r) && Do(h, c, s, op).bounds.configured == s.bounds.configured
  {
    match op
    case Submit(frame, now) => SubmitInside(h, c, s, frame, now, r);
    case Render(now) => RenderInside(c, s, now, r);
    case Expire(now, expiry) =>
    case Restart =>
  }

  /** With configured bounds, in every run all samples, filtered positions, transition end points,
      displayed positions and risk events stay inside the accepted rectangle. */
  lemma {:induction false} AlwaysInside(h: Hypot, c: Config, configured: Rect, ops: seq<Op>)
    requires c.Valid()
    ensures Inside(Run(h, c, Fresh(Some(configured)), ops), AcceptedArea(configured))
    ensures Run(h, c, Fresh(Some(configured)), ops).bounds.configured == Some(configured)
  {
    if ops != [] {
      var n := |ops| - 1;
      AlwaysInside(h, c, configured, ops[..n]);
      StepInside(h, c, Run(h, c, Fresh(Some(configured)), ops[..n]), ops[n], AcceptedArea(configured));
    }
  }

  // ---------- automatic bounds ----------

  /** Nothing is lost between two states of the bounds. */
  predicate NothingLost(before: Bounds, after: Bounds) {
    BoundsSound(after)
    && (before.automatic.Some? ==> after.automatic.Some? && after.automatic.value.Covers(before.automatic.value))
  }

  /** In every run automatic bounds, once there, only grow, across frames and resets alike. */
  lemma {:induction false} AutomaticBoundsOnlyGrow(h: Hypot, c: Config, s: Tracker, ops: seq<Op>)
    requires c.Valid() && BoundsSound(s.bounds)
    ensures NothingLost(s.bounds, Run(h, c, s, ops).bounds)
  {
    if ops != [] {
      var n := |ops| - 1;
      AutomaticBoundsOnlyGrow(h, c, s, ops[..n]);
      StepBounds(h, c, Run(h, c, s, ops[..n]), ops[n]);
    }
  }

  lemma AcceptBounds(h: Hypot, c: Config, s: Tracker, frame: Frame, now: int, delta: int)
    requires c.Valid() && BoundsSound(s.bounds)
    ensures NothingLost(s.bounds, Accept(h, c, s, frame, now, delta).bounds)
  {
    var objects := Kept(s.bounds, frame.objects);
    UpdateOnlyGrows(s.bounds, frame.sourceTimestamp, Targets(ObservedAll(h, s.filters, objects, now), objects),
                    c.world);
  }

  lemma SubmitBounds(h: Hypot, c: Config, s: Tracker, frame: Frame, now: int)
    requires c.Valid() && BoundsSound(s.bounds)
    ensures NothingLost(s.bounds, Submitted(h, c, s, frame, now).0.bounds)
  {
    AcceptBounds(h, c, Arrived(s, now), frame, now, Delta(s, now));
  }

  lemma StepBounds(h: Hypot, c: Config, s: Tracker, op: Op)
    requires c.Valid() && BoundsSound(s.bounds)
    ensures NothingLost(s.bounds, Do(h, c, s, op).bounds)
  {
    if op.Submit? { SubmitBounds(h, c, s, op.frame, op.now); }
  }

  // ---------- when a run changes automatic bounds ----------

  /** Where the objects of an accepted frame are, as far as the bounds are concerned. */
  function FramePositions(h: Hypot, s: Tracker, frame: Frame, now: int): seq<Point> {
    var objects := Kept(s.bounds, frame.objects);
    Targets(ObservedAll(h, s.filters, objects, now), objects)
  }

  function EventsOf(h: Hypot, s: Tracker, op: Op): seq<Event> {
    match op
    case Submit(frame, now) =>
      if frame.sourceTimestamp <= 0 || now <= 0 then []
      else
        var a := Arrived(s, now);
        (if Resets(s, op) then [Reset] else [])
        + if a.lastInput == Some(frame) then [] else [Accepted(frame.sourceTimestamp, FramePositions(h, a, frame, now))]
    case Render(_) => []
    case Expire(_, _) => if Resets(s, op) then [Reset] else []
    case Restart => [Reset]
  }

  /** The frames that a run accepts and its resets. */
  ghost function Events(h: Hypot, c: Config, s: Tracker, ops: seq<Op>): seq<Event>
    requires c.Valid()
  {
    if ops == [] then []
    else
      var n := |ops| - 1;
      Events(h, c, s, ops[..n]) + EventsOf(h, Run(h, c, s, ops[..n]), ops[n])
  }

  lemma {:induction false} AfterMore(b: Bounds, events: seq<Event>, more: seq<Event>, c: WorldConfig)
    ensures After(b, events + more, c) == After(After(b, events, c), more, c)
  {
    if more == [] {
      assert events + more == events;
    } else {
      var n := |more| - 1;
      AfterMore(b, events, more[..n], c);
      assert (events + more)[..|events + more| - 1] == events + more[..n];
    }
  }

  lemma AfterOne(b: Bounds, event: Event, c: WorldConfig)
    ensures After(b, [event], c) == match event
                                    case Accepted(sourceTimestamp, positions) => Updated(b, sourceTimestamp, positions,
                                                                                         c)
                                    case Reset => Forgotten(b)
  {
    assert [event][..0] == [];
  }

  lemma SubmitEvents(h: Hypot, c: Config, s: Tracker, frame: Frame, now: int)
    requires c.Valid() && frame.sourceTimestamp > 0 && now > 0
    ensures Submitted(h, c, s, frame, now).0.bounds == After(s.bounds, EventsOf(h, s, Submit(frame, now)), c.world)
  {
    var a := Arrived(s, now);
    var reset := if Resets(s, Submit(frame, now)) then [Reset] else [];
    var taken := if a.lastInput == Some(frame) then []
      else [Accepted(frame.sourceTimestamp, FramePositions(h, a, frame, now))];
    AfterMore(s.bounds, reset, taken, c.world);
    if reset != [] { AfterOne(s.bounds, Reset, c.world); }
    if taken != [] { AfterOne(a.bounds, taken[0], c.world); }
  }

  lemma StepEvents(h: Hypot, c: Config, s: Tracker, op: Op)
    requires c.Valid()
    ensures Do(h, c, s, op).bounds == After(s.bounds, EventsOf(h, s, op), c.world)
  {
    AfterOne(s.bounds, Reset, c.world);
    if op.Submit? && op.frame.sourceTimestamp > 0 && op.now > 0 { SubmitEvents(h, c, s, op.frame, op.now); }
  }

  lemma {:induction false} RunEvents(h: Hypot, c: Config, s: Tracker, ops: seq<Op>)
    requires c.Valid()
    ensures Run(h, c, s, ops).bounds == After(s.bounds, Events(h, c, s, ops), c.world)
  {
    if ops != [] {
      var n := |ops| - 1;
      RunEvents(h, c, s, ops[..n]);
      StepEvents(h, c, Run(h, c, s, ops[..n]), ops[n]);
      AfterMore(s.bounds, Events(h, c, s, ops[..n]), EventsOf(h, Run(h, c, s, ops[..n]), ops[n]), c.world);
    }
  }

  /** Automatic bounds that no frame is widening. */
  predicate Settled(b: Bounds) {
    BoundsSound(b) && b.configured.None? && b.automatic.Some? && b.pendingCount == 0
  }

  /** No run changes automatic bounds as long as fewer than three accepted frames in a row leave them. */
  lemma BoundsStayBelowThree(h: Hypot, c: Config, s: Tracker, ops: seq<Op>)
    requires c.Valid() && Settled(s.bounds)
    requires forall k :: 0 <= k <= |Events(h, c, s, ops)| ==>
        OutsideStreak(s.bounds.automatic.value, Events(h, c, s, ops)[..k]) < 3
    ensures Run(h, c, s, ops).bounds.automatic == s.bounds.automatic
  {
    RunEvents(h, c, s, ops);
    UnchangedBelowThree(s.bounds, Events(h, c, s, ops), c.world);
  }

  /** And the third in a row changes them, to strictly larger ones that hold it, whatever else happens
      in between. */
  lemma BoundsWidenAtThree(h: Hypot, c: Config, s: Tracker, ops: seq<Op>)
    requires c.Valid() && Settled(s.bounds) && OutsideStreak(s.bounds.automatic.value, Events(h, c, s, ops)) == 3
    requires forall k :: 0 <= k < |Events(h, c, s, ops)| ==>
        OutsideStreak(s.bounds.automatic.value, Events(h, c, s, ops)[..k]) < 3
    ensures var es, after := Events(h, c, s, ops), Run(h, c, s, ops).bounds.automatic;
            && after.Some? && after != s.bounds.automatic && after.value.Covers(s.bounds.automatic.value)
            && es != [] && es[|es| - 1].Accepted? && AllInside(after.value, es[|es| - 1].positions)
            && var r := s.bounds.automatic.value;
               after.value == Padded(Grown(r, StreakPositions(r, es)), c.world.paddingRatio)
  {
    RunEvents(h, c, s, ops);
    WidenedExactly(s.bounds, Events(h, c, s, ops), c.world);
    ChangedAtThree(s.bounds, Events(h, c, s, ops), c.world);
  }
}
