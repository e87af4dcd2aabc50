/** Where the markers are drawn: at the filtered position once the transition is over, on the way to it
    before, and with the displacement since the last snapshot as velocity. */
module TrackerDisplay {
  import opened Domain
  import opened TrackerFilters
  import opened TrackerBounds
  import opened TrackerState
  import opened TrackerRuns
  import opened TrackerLifecycle
  import opened TrackerMotion

  /** The list shows the object, and everywhere at this position. */
  ghost predicate ShowsPosition(shown: seq<Shown>, id: int, p: Point) {
    && (exists k :: 0 <= k < |shown| && shown[k].id == id)
    && forall k :: 0 <= k < |shown| && shown[k].id == id ==> shown[k].position == p
  }

  // ---------- one object in one snapshot ----------

  /** The target that a snapshot sees, or one that it does not look at because the transition is of
      the latest frame already. */
  predicate IsTarget(s: Tracker, id: int, target: Point) {
    || Lookup(s.filters.positions, id) == Some(target)
    || (id in s.display.transitions && s.frameSequence <= s.display.transitions[id].targetFrame)
  }

  function Duration(c: Config, s: Tracker): int { TransitionDuration(c, s.measuredInterval) }

  function Heading(c: Config, s: Tracker, now: int, id: int, target: Point): Transition {
    Retargeted(Lookup(s.display.transitions, id), target, s.frameSequence, Duration(c, s), now)
  }

  /** Not yet drawn as before; drawn on this transition, at its position. */
  ghost predicate DrawnOn(d: Drawing, s: Tracker, id: int, t: Transition, p: Point) {
    && (id !in d.current ==> Lookup(d.display.transitions, id) == Lookup(s.display.transitions, id))
    && (id in d.current ==> d.current[id] == p && Lookup(d.display.transitions, id) == Some(t))
    && forall k :: 0 <= k < |d.objects| && d.objects[k].id == id ==>
         id in d.current && d.objects[k].position == p && d.objects[k].velocity == Minus(p, Get(s.previous, id, p))
  }

  lemma DrawnOneMore(c: Config, s: Tracker, objects: seq<RiskObject>, d: Drawing, o: RiskObject, now: int,
                     id: int, target: Point)
    requires IsTarget(s, id, target)
    requires var t := Heading(c, s, now, id, target); DrawnOn(d, s, id, t, Rendered(t, Duration(c, s), now))
    ensures var t := Heading(c, s, now, id, target);
            DrawnOn(DrawnObserved(c, s.filters, s.previous, s.frameSequence, s.measuredInterval, objects, d, o, now),
                    s, id, t, Rendered(t, Duration(c, s), now))
  {}

  lemma {:induction false} DrawnAllOn(c: Config, s: Tracker, objects: seq<RiskObject>, n: nat, now: int,
                                      id: int, target: Point)
    requires n <= |objects| && IsTarget(s, id, target)
    ensures var t := Heading(c, s, now, id, target);
            DrawnOn(DrawnAll(c, s, objects, n, now), s, id, t, Rendered(t, Duration(c, s), now))
  {
    if n > 0 {
      DrawnAllOn(c, s, objects, n - 1, now, id, target);
      DrawnOneMore(c, s, objects, DrawnAll(c, s, objects, n - 1, now), objects[n - 1], now, id, target);
    }
  }

  lemma FinishedOn(c: Config, s: Tracker, d: Drawing, ghosts: map<int, Shown>, now: int, id: int, t: Transition,
                   p: Point)
    requires id in d.current && id !in ghosts && DrawnOn(d, s, id, t, p)
    ensures var after := Finished(c, s, d, ghosts, now);
            Lookup(after.display.transitions, id) == Some(t) && Lookup(after.previous, id) == Some(p)
  {}

  /** A snapshot of an object of the latest frame. */
  lemma SnapshotShows(c: Config, s: Tracker, now: int, id: int, target: Point)
    requires Drawable(s) && id in LatestIds(s) && IsTarget(s, id, target)
    ensures var t := Heading(c, s, now, id, target);
            var p := Rendered(t, Duration(c, s), now);
            && ShowsPosition(Picture(c, s, now).observed, id, p)
            && Lookup(Built(c, s, now).display.transitions, id) == Some(t)
            && Lookup(Built(c, s, now).previous, id) == Some(p)
  {
    var q, t := Quiet(s), Heading(c, s, now, id, target);
    var d := LatestDrawing(c, q, now);
    DrawnCurrent(c, q, now);
    DrawnAllOn(c, q, Latest(q), |Latest(q)|, now, id, target);
    assert id in d.current;
    FinishedOn(c, q, d, Ghosts(c, q.life, q.filters, d.display, Undrawn(q, d), now), now, id, t,
               Rendered(t, Duration(c, q), now));
  }

  // ---------- transitions are of frames that have been ----------

  ghost predicate FramesSound(s: Tracker) {
    NotAhead(s.display.transitions, s.frameSequence)
  }

  ghost predicate NotAhead(transitions: map<int, Transition>, frameSequence: int) {
    forall id :: id in transitions ==> transitions[id].targetFrame <= frameSequence
  }

  lemma DrawnNotAhead(c: Config, s: Tracker, objects: seq<RiskObject>, d: Drawing, o: RiskObject, now: int)
    requires NotAhead(d.display.transitions, s.frameSequence)
    ensures var after :=
              DrawnObserved(c, s.filters, s.previous, s.frameSequence, s.measuredInterval, objects, d, o, now);
            NotAhead(after.display.transitions, s.frameSequence)
  {}

  lemma {:induction false} DrawnFrames(c: Config, s: Tracker, objects: seq<RiskObject>, n: nat, now: int)
    requires n <= |objects| && NotAhead(s.display.transitions, s.frameSequence)
    ensures NotAhead(DrawnAll(c, s, objects, n, now).display.transitions, s.frameSequence)
  {
    if n > 0 {
      DrawnFrames(c, s, objects, n - 1, now);
      DrawnNotAhead(c, s, objects, DrawnAll(c, s, objects, n - 1, now), objects[n - 1], now);
    }
  }

  lemma FinishedFrames(c: Config, s: Tracker, d: Drawing, ghosts: map<int, Shown>, now: int)
    requires NotAhead(d.display.transitions, s.frameSequence)
    ensures FramesSound(Finished(c, s, d, ghosts, now))
  {}

  lemma RenderFrames(c: Config, s: Tracker, now: int)
    requires FramesSound(s)
    ensures FramesSound(Built(c, s, now))
  {
    if Drawable(s) {
      var q := Quiet(s);
      var d := LatestDrawing(c, q, now);
      DrawnFrames(c, q, Latest(q), |Latest(q)|, now);
      FinishedFrames(c, q, d, Ghosts(c, q.life, q.filters, d.display, Undrawn(q, d), now), now);
    }
  }

  lemma StepFrames(h: Hypot, c: Config, s: Tracker, op: Op)
    requires c.Valid() && FramesSound(s)
    ensures FramesSound(Do(h, c, s, op))
  {
    if op.Render? { RenderFrames(c, s, op.now); }
  }

  lemma {:induction false} AlwaysFramesSound(h: Hypot, c: Config, configured: Option<Rect>, ops: seq<Op>)
    requires c.Valid()
    ensures FramesSound(Run(h, c, Fresh(configured), ops))
  {
    if ops != [] {
      var n := |ops| - 1;
      AlwaysFramesSound(h, c, configured, ops[..n]);
      StepFrames(h, c, Run(h, c, Fresh(configured), ops[..n]), ops[n]);
    }
  }

  // ---------- after a frame ----------

  lemma {:induction false} ObservedPositions(h: Hypot, f: Filters, objects: seq<RiskObject>, now: int, id: int)
    requires id in Ids(objects)
    ensures id in ObservedAll(h, f, objects, now).positions
  {
    var n := |objects| - 1;
    IdsOneMore(objects);
    if objects[n].globalId != id { ObservedPositions(h, f, objects[..n], now, id); }
  }

  /** The frame `now` puts the object on the map or moves it on. */
  ghost predicate Arrives(s: Tracker, frame: Frame, now: int, id: int) {
    Continued(s, frame, now) && id in Ids(Kept(s.bounds, frame.objects))
  }

  lemma ArrivedState(h: Hypot, c: Config, s: Tracker, frame: Frame, now: int, id: int)
    requires c.Valid() && FramesSound(s) && Arrives(s, frame, now, id)
    ensures var after := Submitted(h, c, s, frame, now).0;
            && after.history != [] && id in LatestIds(after) && id in after.filters.positions
            && after.display == s.display && after.frameSequence == s.frameSequence + 1
            && after.previous == s.previous
            && (id in after.display.transitions ==> after.display.transitions[id].targetFrame < after.frameSequence)
  {
    ContinuedState(h, c, s, frame, now);
    ObservedPositions(h, s.filters, Kept(s.bounds, frame.objects), now, id);
  }

  /** Snapshots leave the frame, its number and the measured interval alone. */
  lemma BuiltFrame(c: Config, s: Tracker, now: int)
    ensures var after := Built(c, s, now);
            && after.frameSequence == s.frameSequence && after.measuredInterval == s.measuredInterval
            && after.history == s.history && after.bounds == s.bounds
  {}

  /** The object is drawn on this transition, which is that of the latest frame. */
  ghost predicate OnTheWay(s: Tracker, id: int, t: Transition, frameSequence: int, measured: int) {
    && Drawable(s) && id in LatestIds(s) && Lookup(s.display.transitions, id) == Some(t)
    && t.targetFrame == s.frameSequence == frameSequence && s.measuredInterval == measured
  }

  lemma StaysOnTheWay(c: Config, s: Tracker, now: int, id: int, t: Transition, frameSequence: int, measured: int)
    requires OnTheWay(s, id, t, frameSequence, measured)
    ensures OnTheWay(Built(c, s, now), id, t, frameSequence, measured)
    ensures ShowsPosition(Picture(c, s, now).observed, id, Rendered(t, TransitionDuration(c, measured), now))
  {
    HeadingStays(c, s, now, id, t);
    SnapshotShows(c, s, now, id, t.target);
    BuiltFrame(c, s, now);
  }

  lemma HeadingStays(c: Config, s: Tracker, now: int, id: int, t: Transition)
    requires Lookup(s.display.transitions, id) == Some(t) && t.targetFrame == s.frameSequence
    ensures Heading(c, s, now, id, t.target) == t && IsTarget(s, id, t.target)
  {}

  lemma {:induction false} RendersOnTheWay(c: Config, s: Tracker, times: seq<int>, id: int, t: Transition,
                                           frameSequence: int, measured: int)
    requires OnTheWay(s, id, t, frameSequence, measured)
    ensures OnTheWay(Renders(c, s, times), id, t, frameSequence, measured)
  {
    if times != [] {
      var n := |times| - 1;
      RendersOnTheWay(c, s, times[..n], id, t, frameSequence, measured);
      StaysOnTheWay(c, Renders(c, s, times[..n]), times[n], id, t, frameSequence, measured);
    }
  }

  /** On the way from `p` to `q` since `start`: the elapsed share of the duration. */
  function Between(p: Point, q: Point, start: int, duration: int, now: int): Point {
    if duration <= 0 || start <= 0 || now - start >= duration then q
    else
      var s := (if now < start then 0 else now - start) as real / duration as real;
      Point(p.x + (q.x - p.x) * s, p.y + (q.y - p.y) * s)
  }

  lemma ShareBelowOne(n: int, d: int)
    requires 0 <= n && 0 < d
    ensures n < d ==> 0.0 <= n as real / d as real < 1.0
    ensures n >= d ==> n as real / d as real >= 1.0
  {
    if n >= d { AtLeastOne(n as real, d as real); }
  }

  lemma AlongWhole(p: Point, q: Point)
    ensures Along(p, q, 1.0) == q
  {}

  lemma RatioIs(duration: int, elapsed: int)
    requires duration > 0 && elapsed >= 0
    ensures TransitionRatio(duration, elapsed) == if elapsed >= duration then 1.0
      else elapsed as real / duration as real
  {
    ShareBelowOne(elapsed, duration);
  }

  lemma RenderedBetween(t: Transition, duration: int, now: int)
    ensures Rendered(t, duration, now) == Between(t.start, t.target, t.startMsec, duration, now)
  {
    if duration > 0 && t.startMsec > 0 {
      RatioIs(duration, if now < t.startMsec then 0 else now - t.startMsec);
      AlongWhole(t.start, t.target);
    }
  }

  lemma SameWay(p: Point, q: Point, start: int, duration: int, now: int)
    ensures Between(Between(p, q, start, duration, start), q, start, duration, now)
      == Between(p, q, start, duration, now)
  {
    if duration > 0 && start > 0 { assert Between(p, q, start, duration, start) == p; }
  }

  /** Over every run: the first snapshot after a frame shows the object at some `p`, all later ones on
      the straight way from there to its filtered position, by the elapsed share of the duration; once
      the duration has passed, exactly there. */
  lemma MarkersMoveSteadily(h: Hypot, c: Config, configured: Option<Rect>, ops: seq<Op>, frame: Frame, now: int,
                            id: int,
                            first: int, times: seq<int>, later: int) returns (p: Point)
    requires c.Valid()
    requires var s := Run(h, c, Fresh(configured), ops);
             Arrives(s, frame, now, id) && Ready(Submitted(h, c, s, frame, now).0.bounds)
    ensures var s := Submitted(h, c, Run(h, c, Fresh(configured), ops), frame, now).0;
            && id in s.filters.positions
            && ShowsPosition(Picture(c, s, first).observed, id, p)
            && ShowsPosition(Picture(c, Renders(c, Built(c, s, first), times), later).observed, id,
                             Between(p, s.filters.positions[id], first, Duration(c, s), later))
  {
    var before := Run(h, c, Fresh(configured), ops);
    AlwaysFramesSound(h, c, configured, ops);
    ArrivedState(h, c, before, frame, now, id);
    p := MovesFrom(c, Submitted(h, c, before, frame, now).0, id, first, times, later);
  }

  lemma MovesFrom(c: Config, s: Tracker, id: int, first: int, times: seq<int>, later: int) returns (p: Point)
    requires Drawable(s) && id in LatestIds(s) && id in s.filters.positions
    requires id in s.display.transitions ==> s.display.transitions[id].targetFrame < s.frameSequence
    ensures ShowsPosition(Picture(c, s, first).observed, id, p)
    ensures ShowsPosition(Picture(c, Renders(c, Built(c, s, first), times), later).observed, id,
                          Between(p, s.filters.positions[id], first, Duration(c, s), later))
  {
    var t, d := Heading(c, s, first, id, s.filters.positions[id]), Duration(c, s);
    HeadingIsNew(c, s, first, id, s.filters.positions[id]);
    SnapshotShows(c, s, first, id, s.filters.positions[id]);
    SnapshotsAfter(c, s, id, first, times, later, t);
    RenderedBetween(t, d, first);
    RenderedBetween(t, d, later);
    SameWay(t.start, t.target, first, d, later);
    p := Rendered(t, d, first);
  }

  lemma HeadingIsNew(c: Config, s: Tracker, now: int, id: int, target: Point)
    requires id in s.display.transitions ==> s.display.transitions[id].targetFrame < s.frameSequence
    ensures var t := Heading(c, s, now, id, target);
            t.target == target && t.startMsec == now && t.targetFrame == s.frameSequence
  {}

  lemma SnapshotsAfter(c: Config, s: Tracker, id: int, first: int, times: seq<int>, later: int, t: Transition)
    requires Drawable(s) && id in LatestIds(s) && t.targetFrame == s.frameSequence
    requires Lookup(Built(c, s, first).display.transitions, id) == Some(t)
    ensures ShowsPosition(Picture(c, Renders(c, Built(c, s, first), times), later).observed, id,
                          Rendered(t, Duration(c, s), later))
  {
    FirstOnTheWay(c, s, id, first, t);
    SnapshotsFrom(c, Built(c, s, first), id, times, later, t, s.frameSequence, s.measuredInterval);
  }

  lemma FirstOnTheWay(c: Config, s: Tracker, id: int, first: int, t: Transition)
    requires Drawable(s) && id in LatestIds(s) && t.targetFrame == s.frameSequence
    requires Lookup(Built(c, s, first).display.transitions, id) == Some(t)
    ensures OnTheWay(Built(c, s, first), id, t, s.frameSequence, s.measuredInterval)
  {
    BuiltFrame(c, s, first);
    SameFrame(s, Built(c, s, first), id, t);
  }

  lemma SameFrame(s: Tracker, after: Tracker, id: int, t: Transition)
    requires Drawable(s) && id in LatestIds(s) && t.targetFrame == s.frameSequence
    requires after.history == s.history && after.bounds == s.bounds && Lookup(after.display.transitions, id) == Some(t)
    requires after.frameSequence == s.frameSequence && after.measuredInterval == s.measuredInterval
    ensures OnTheWay(after, id, t, s.frameSequence, s.measuredInterval)
  {}

  lemma SnapshotsFrom(c: Config, s: Tracker, id: int, times: seq<int>, later: int, t: Transition,
                      frameSequence: int, measured: int)
    requires OnTheWay(s, id, t, frameSequence, measured)
    ensures ShowsPosition(Picture(c, Renders(c, s, times), later).observed, id,
                          Rendered(t, TransitionDuration(c, measured), later))
  {
    RendersOnTheWay(c, s, times, id, t, frameSequence, measured);
    StaysOnTheWay(c, Renders(c, s, times), later, id, t, frameSequence, measured);
  }

  // ---------- a new frame at the same instant ----------

  /** Two durations put an object that has been on the way for `elapsed` at the same place. */
  predicate SamePlace(t: Transition, elapsed: int, d: int, e: int) {
    t.start == t.target || t.startMsec <= 0 || d == e || elapsed <= 0 || (d <= elapsed && e <= elapsed)
  }

  function Share(elapsed: int, duration: int): real
    requires duration > 0
  {
    if elapsed <= 0 then 0.0 else if elapsed >= duration then 1.0 else elapsed as real / duration as real
  }

  lemma NonzeroProduct(a: real, b: real)
    requires a != 0.0 && b != 0.0
    ensures a * b != 0.0
  {}

  lemma QuotientsDiffer(n: real, d: real, e: real)
    requires n > 0.0 && d > 0.0 && e > 0.0 && d != e
    ensures n / d != n / e
  {
    var x := n / d;
    assert x * d == n && n / e * e == n;
    NonzeroProduct(x, d - e);
    assert x * d - x * e == x * (d - e);
  }

  lemma SharesEqual(n: int, d: int, e: int)
    requires d > 0 && e > 0
    ensures Share(n, d) == Share(n, e) <==> d == e || n <= 0 || (d <= n && e <= n)
  {
    if n > 0 {
      ShareBelowOne(n, d);
      ShareBelowOne(n, e);
      if d != e { QuotientsDiffer(n as real, d as real, e as real); }
    }
  }

  lemma WaysDiffer(a: real, b: real, x: real, y: real)
    requires a != b && x != y
    ensures a + (b - a) * x != a + (b - a) * y
  {
    NonzeroProduct(b - a, x - y);
    assert (b - a) * x - (b - a) * y == (b - a) * (x - y);
  }

  lemma PlacesEqual(p: Point, q: Point, x: real, y: real)
    ensures Along(p, q, x) == Along(p, q, y) <==> p == q || x == y
  {
    if x != y {
      if p.x != q.x { WaysDiffer(p.x, q.x, x, y); }
      if p.y != q.y { WaysDiffer(p.y, q.y, x, y); }
    }
  }

  lemma RenderedShare(t: Transition, duration: int, now: int)
    requires duration > 0 && t.startMsec > 0
    ensures Rendered(t, duration, now) == Along(t.start, t.target, Share(now - t.startMsec, duration))
  {
    RatioIs(duration, if now < t.startMsec then 0 else now - t.startMsec);
  }

  lemma SamePlaceExactly(t: Transition, now: int, d: int, e: int)
    requires d > 0 && e > 0
    ensures Rendered(t, d, now) == Rendered(t, e, now) <==> SamePlace(t, now - t.startMsec, d, e)
  {
    if t.startMsec > 0 {
      RenderedShare(t, d, now);
      RenderedShare(t, e, now);
      SharesEqual(now - t.startMsec, d, e);
      PlacesEqual(t.start, t.target, Share(now - t.startMsec, d), Share(now - t.startMsec, e));
    }
  }

  lemma DurationsPositive(c: Config, measured: int, other: int)
    ensures TransitionDuration(c, measured) > 0 <==> c.positionTransitionMsec > 0
    ensures c.positionTransitionMsec <= 0 ==> TransitionDuration(c, measured) == TransitionDuration(c, other)
  {}

  /** A snapshot, a frame, and a snapshot at the same instant, over every run. The frame sets a new
      target but does not move the marker, exactly if the measured interval, from which the duration
      follows, puts the old transition at the same place; without transitions it moves there at once. */
  lemma FrameMovesNothingExactly(h: Hypot, c: Config, configured: Option<Rect>, ops: seq<Op>, shot: int,
                                 frame: Frame, now: int, id: int) returns (p: Point, p': Point, t: Transition)
    requires c.Valid() && shot > 0
    requires var s := Run(h, c, Fresh(configured), ops);
             && Drawable(s) && id in LatestIds(s) && id in s.filters.positions
             && Arrives(Built(c, s, shot), frame, now, id)
    ensures var s := Run(h, c, Fresh(configured), ops);
            var shown := Built(c, s, shot);
            var after := Submitted(h, c, shown, frame, now).0;
            && ShowsPosition(Picture(c, s, shot).observed, id, p)
               && ShowsPosition(Picture(c, after, shot).observed, id, p')
            && Lookup(shown.display.transitions, id) == Some(t) && id in after.filters.positions
            && (p == p' <==> if c.positionTransitionMsec <= 0 then t.target == after.filters.positions[id]
                             else SamePlace(t, shot - t.startMsec, Duration(c, s), Duration(c, after)))
  {
    var s := Run(h, c, Fresh(configured), ops);
    AlwaysFramesSound(h, c, configured, ops);
    t := Heading(c, s, shot, id, s.filters.positions[id]);
    p := Rendered(t, Duration(c, s), shot);
    SnapshotShows(c, s, shot, id, s.filters.positions[id]);
    RenderFrames(c, s, shot);
    BuiltFrame(c, s, shot);
    p' := ShownAfter(h, c, Built(c, s, shot), frame, now, id, shot, t);
    DurationsPositive(c, s.measuredInterval, s.measuredInterval);
    DurationsPositive(c, Submitted(h, c, Built(c, s, shot), frame, now).0.measuredInterval, 0);
    if c.positionTransitionMsec > 0 {
      SamePlaces(c, t, shot, s.measuredInterval, Submitted(h, c, Built(c, s, shot), frame, now).0.measuredInterval);
    }
  }

  lemma SamePlaces(c: Config, t: Transition, now: int, measured: int, other: int)
    requires c.positionTransitionMsec > 0
    ensures var d, e := TransitionDuration(c, measured), TransitionDuration(c, other);
            Rendered(t, d, now) == Rendered(t, e, now) <==> SamePlace(t, now - t.startMsec, d, e)
  {
    DurationsPositive(c, measured, other);
    DurationsPositive(c, other, measured);
    SamePlaceExactly(t, now, TransitionDuration(c, measured), TransitionDuration(c, other));
  }

  /** The snapshot at `shot` after the frame at `now`, of an object that had transition `t` then. */
  lemma ShownAfter(h: Hypot, c: Config, s: Tracker, frame: Frame, now: int, id: int, shot: int, t: Transition)
    returns (p: Point)
    requires c.Valid() && FramesSound(s) && Ready(s.bounds) && Arrives(s, frame, now, id) && shot > 0
    requires Lookup(s.display.transitions, id) == Some(t)
    ensures var after := Submitted(h, c, s, frame, now).0;
            && id in after.filters.positions && ShowsPosition(Picture(c, after, shot).observed, id, p)
            && p == if Duration(c, after) > 0 then Rendered(t, Duration(c, after), shot)
              else after.filters.positions[id]
  {
    ArrivedState(h, c, s, frame, now, id);
    ContinuedState(h, c, s, frame, now);
    var after := Submitted(h, c, s, frame, now).0;
    p := RetargetedAt(c, after, shot, id, t);
  }

  lemma RetargetedAt(c: Config, s: Tracker, shot: int, id: int, t: Transition) returns (p: Point)
    requires Drawable(s) && id in LatestIds(s) && id in s.filters.positions && shot > 0
    requires Lookup(s.display.transitions, id) == Some(t) && t.targetFrame < s.frameSequence
    ensures ShowsPosition(Picture(c, s, shot).observed, id, p)
    ensures p == if Duration(c, s) > 0 then Rendered(t, Duration(c, s), shot) else s.filters.positions[id]
  {
    p := Rendered(Heading(c, s, shot, id, s.filters.positions[id]), Duration(c, s), shot);
    SnapshotShows(c, s, shot, id, s.filters.positions[id]);
    HeadingStarts(c, s, shot, id, s.filters.positions[id], t);
  }

  lemma HeadingStarts(c: Config, s: Tracker, shot: int, id: int, q: Point, t: Transition)
    requires Lookup(s.display.transitions, id) == Some(t) && t.targetFrame < s.frameSequence && shot > 0
    ensures var d := Duration(c, s);
            Rendered(Heading(c, s, shot, id, q), d, shot) == if d > 0 then Rendered(t, d, shot) else q
  {
    if Duration(c, s) > 0 { RetargetingDoesNotJump(t, q, s.frameSequence, Duration(c, s), shot); }
  }

  // ---------- velocity ----------

  ghost predicate PlacedAsRemembered(d: Drawing, previous: map<int, Point>) {
    forall k :: 0 <= k < |d.objects| ==>
      var o := d.objects[k];
      && o.id in d.current && d.current[o.id] == o.position
      && o.velocity == Minus(o.position, Get(previous, o.id, o.position))
  }

  lemma PlacedOneMore(c: Config, s: Tracker, objects: seq<RiskObject>, d: Drawing, o: RiskObject, now: int)
    requires PlacedAsRemembered(d, s.previous)
    ensures PlacedAsRemembered(
              DrawnObserved(c, s.filters, s.previous, s.frameSequence, s.measuredInterval, objects, d, o,
                            now), s.previous)
  {}

  lemma {:induction false} AllPlaced(c: Config, s: Tracker, objects: seq<RiskObject>, n: nat, now: int)
    requires n <= |objects|
    ensures PlacedAsRemembered(DrawnAll(c, s, objects, n, now), s.previous)
  {
    if n > 0 {
      AllPlaced(c, s, objects, n - 1, now);
      PlacedOneMore(c, s, objects, DrawnAll(c, s, objects, n - 1, now), objects[n - 1], now);
    }
  }

  /** Where a snapshot shows the object, as observed or as missing. */
  ghost predicate IsShownAt(p: Snapshot, id: int, at: Point) {
    || (exists k :: 0 <= k < |p.observed| && p.observed[k].id == id && p.observed[k].position == at)
    || (id in p.missing && p.missing[id].position == at)
  }

  /** A snapshot remembers exactly what it shows. */
  lemma RemembersShown(c: Config, s: Tracker, now: int, id: int, at: Point)
    requires Drawable(s)
    ensures Lookup(Built(c, s, now).previous, id) == Some(at) <==> IsShownAt(Picture(c, s, now), id, at)
  {
    var q := Quiet(s);
    var d := LatestDrawing(c, q, now);
    DrawnCurrent(c, q, now);
    AllPlaced(c, q, Latest(q), |Latest(q)|, now);
    var ghosts := Ghosts(c, q.life, q.filters, d.display, Undrawn(q, d), now);
    FinishedRemembers(c, q, d, ghosts, now);
    ShownExactly(d, ghosts, q.previous, id, at);
  }

  lemma FinishedRemembers(c: Config, s: Tracker, d: Drawing, ghosts: map<int, Shown>, now: int)
    ensures Finished(c, s, d, ghosts, now).previous == d.current + Positions(ghosts)
  {}

  lemma ShownExactly(d: Drawing, ghosts: map<int, Shown>, previous: map<int, Point>, id: int, at: Point)
    requires Listed(d) && PlacedAsRemembered(d, previous) && (id in d.current ==> id !in ghosts)
    ensures Lookup(d.current + Positions(ghosts), id) == Some(at)
       <==> IsShownAt(Snapshot(d.objects, ghosts, d.pairs), id, at)
  {
    if id in d.current {
      var k :| 0 <= k < |d.objects| && d.objects[k].id == id;
      assert d.objects[k].position == d.current[id];
    }
  }

  lemma FrameKeepsPrevious(h: Hypot, c: Config, s: Tracker, frame: Op)
    requires c.Valid() && frame.Submit? && !Resets(s, frame)
    ensures Do(h, c, s, frame).previous == s.previous
  {}

  lemma {:induction false} FramesKeepPrevious(h: Hypot, c: Config, s: Tracker, frames: seq<Op>)
    requires c.Valid()
    requires forall i :: 0 <= i < |frames| ==> frames[i].Submit? && !Resets(Run(h, c, s, frames[..i]), frames[i])
    ensures Run(h, c, s, frames).previous == s.previous
  {
    if frames != [] {
      var n := |frames| - 1;
      forall i | 0 <= i < n ensures !Resets(Run(h, c, s, frames[..n][..i]), frames[..n][i]) {
        assert frames[..n][..i] == frames[..i];
      }
      FramesKeepPrevious(h, c, s, frames[..n]);
      FrameKeepsPrevious(h, c, Run(h, c, s, frames[..n]), frames[n]);
    }
  }

  lemma VelocityIs(c: Config, s: Tracker, now: int, k: nat)
    requires k < |Picture(c, s, now).observed|
    ensures var o := Picture(c, s, now).observed[k]; o.velocity == Minus(o.position, Get(s.previous, o.id, o.position))
  {
    AllPlaced(c, Quiet(s), Latest(s), |Latest(s)|, now);
  }

  /** Two snapshots with frames in between: the velocity of an observed object is the difference of the
      two positions shown, or nothing if the first did not show it. */
  lemma VelocityIsDisplacement(h: Hypot, c: Config, s: Tracker, first: int, frames: seq<Op>, second: int, k: nat)
    requires c.Valid() && Drawable(s)
    requires forall i :: 0 <= i < |frames| ==>
               frames[i].Submit? && !Resets(Run(h, c, Built(c, s, first), frames[..i]), frames[i])
    requires k < |Picture(c, Run(h, c, Built(c, s, first), frames), second).observed|
    ensures var o := Picture(c, Run(h, c, Built(c, s, first), frames), second).observed[k];
            && (forall at :: IsShownAt(Picture(c, s, first), o.id, at) ==> o.velocity == Minus(o.position, at))
            && ((forall at :: !IsShownAt(Picture(c, s, first), o.id, at)) ==> o.velocity == Point(0.0, 0.0))
  {
    var z := Run(h, c, Built(c, s, first), frames);
    FramesKeepPrevious(h, c, Built(c, s, first), frames);
    VelocityIs(c, z, second, k);
    var id := Picture(c, z, second).observed[k].id;
    forall at ensures Lookup(z.previous, id) == Some(at) <==> IsShownAt(Picture(c, s, first), id, at) {
      RemembersShown(c, s, first, id, at);
    }
    DisplacedFrom(Picture(c, z, second).observed[k], Picture(c, s, first), z.previous);
  }

  lemma DisplacedFrom(o: Shown, p: Snapshot, previous: map<int, Point>)
    requires o.velocity == Minus(o.position, Get(previous, o.id, o.position))
    requires forall at :: Lookup(previous, o.id) == Some(at) <==> IsShownAt(p, o.id, at)
    ensures forall at :: IsShownAt(p, o.id, at) ==> o.velocity == Minus(o.position, at)
    ensures (forall at :: !IsShownAt(p, o.id, at)) ==> o.velocity == Point(0.0, 0.0)
  {
    if o.id in previous { assert IsShownAt(p, o.id, previous[o.id]); }
  }

  // ---------- the duration ----------

  /** Frames that come `gap` apart, and snapshots. */
  predicate IsRegular(s: Tracker, op: Op, gap: int) {
    op.Render? || (op.Submit? && Continued(s, op.frame, op.now) && op.now == s.lastArrival + gap)
  }

  lemma MeasuredStays(measured: int, gap: int)
    requires 0 < gap <= SOURCE_RESTART_GAP
    ensures Measured(0, gap) == gap && Measured(gap, gap) == gap
  {}

  lemma RegularStep(h: Hypot, c: Config, s: Tracker, op: Op, gap: int)
    requires c.Valid() && 0 < gap <= SOURCE_RESTART_GAP && IsRegular(s, op, gap) && s.lastArrival > 0
    requires s.measuredInterval == 0 || s.measuredInterval == gap
    ensures var after := Do(h, c, s, op);
            && after.lastArrival > 0 && (op.Submit? ==> after.measuredInterval == gap)
            && (op.Render? ==> after.measuredInterval == s.measuredInterval && after.lastArrival == s.lastArrival)
  {
    MeasuredStays(s.measuredInterval, gap);
    if op.Render? { BuiltFrame(c, s, op.now); BuiltInput(c, s, op.now); }
  }

  function HoldsFrame(ops: seq<Op>): bool {
    ops != [] && (ops[|ops| - 1].Submit? || HoldsFrame(ops[..|ops| - 1]))
  }

  lemma {:induction false} RegularFramesAreMeasured(h: Hypot, c: Config, s: Tracker, ops: seq<Op>, gap: int)
    requires c.Valid() && 0 < gap <= SOURCE_RESTART_GAP && s.lastArrival > 0 && s.measuredInterval == 0
    requires forall i :: 0 <= i < |ops| ==> IsRegular(Run(h, c, s, ops[..i]), ops[i], gap)
    ensures var z := Run(h, c, s, ops); z.lastArrival > 0 && z.measuredInterval == if HoldsFrame(ops) then gap else 0
  {
    if ops != [] {
      var n := |ops| - 1;
      forall i | 0 <= i < n ensures IsRegular(Run(h, c, s, ops[..n][..i]), ops[..n][i], gap) {
        assert ops[..n][..i] == ops[..i];
      }
      RegularFramesAreMeasured(h, c, s, ops[..n], gap);
      RegularStep(h, c, Run(h, c, s, ops[..n]), ops[n], gap);
    }
  }

  /** With frames at regular distances, snapshots in between, the transition lasts from one frame to the
      next, as far as that is no less than configured and no more than 400 ms. */
  lemma RegularFramesSetDuration(h: Hypot, c: Config, s: Tracker, ops: seq<Op>, gap: int)
    requires c.Valid() && 0 < c.positionTransitionMsec <= gap <= MAXIMUM_POSITION_TRANSITION
    requires s.lastArrival > 0 && s.measuredInterval == 0 && HoldsFrame(ops)
    requires forall i :: 0 <= i < |ops| ==> IsRegular(Run(h, c, s, ops[..i]), ops[i], gap)
    ensures Duration(c, Run(h, c, s, ops)) == gap
  {
    RegularFramesAreMeasured(h, c, s, ops, gap);
  }

  /** And it is never shorter than configured, nor longer than that or 400 ms. */
  lemma DurationIsBounded(c: Config, s: Tracker)
    requires c.Valid()
    ensures c.positionTransitionMsec <= Duration(c, s)
    ensures Duration(c, s) <= MAXIMUM_POSITION_TRANSITION || Duration(c, s) == c.positionTransitionMsec
  {}

  // ---------- a frame that moves a marker ----------

  /** All that matters of the state for the input below. */
  ghost predicate Stage(s: Tracker, r: Rect, frame: Frame, o: RiskObject, at: int, number: int, measured: int) {
    var id := o.globalId;
    && Lookup(s.filters.positions, id) == Some(o.worldPosition) && Lookup(s.filters.times, id) == Some(at)
    && (id in s.filters.histories ==> |s.filters.histories[id]| <= number)
    && s.bounds == Initial(Some(r)) && s.lastInput == Some(frame) && s.lastArrival == at
    && s.history != [] && LatestIds(s) == {id} && s.frameSequence == number && s.measuredInterval == measured
  }

  predicate Sends(r: Rect, frame: Frame, o: RiskObject) {
    frame.sourceTimestamp > 0 && Kept(Initial(Some(r)), frame.objects) == [o]
  }

  lemma FirstStage(h: Hypot, c: Config, r: Rect, frame: Frame, o: RiskObject)
    requires c.Valid() && Sends(r, frame, o)
    ensures var s := Submitted(h, c, Fresh(Some(r)), frame, 1000).0;
            Stage(s, r, frame, o, 1000, 1, 0) && o.globalId !in s.display.transitions
  {
    var s := Fresh(Some(r));
    ContinuedState(h, c, s, frame, 1000);
    SubmitFilters(h, c, s, frame, 1000);
    OneSample(h, o, 1000);
    assert Ids([o]) == {o.globalId};
  }

  lemma RenderedStage(c: Config, s: Tracker, r: Rect, frame: Frame, o: RiskObject, at: int, number: int, measured: int,
                      now: int)
    requires Stage(s, r, frame, o, at, number, measured) && 0 < at && at <= now <= at + 500
    ensures Stage(Built(c, s, now), r, frame, o, at, number, measured)
    ensures Lookup(Built(c, s, now).display.transitions, o.globalId)
         == Some(Heading(c, s, now, o.globalId, o.worldPosition))
  {
    SnapshotShows(c, s, now, o.globalId, o.worldPosition);
    StageKept(c, s, r, frame, o, at, number, measured, now);
  }

  lemma StageKept(c: Config, s: Tracker, r: Rect, frame: Frame, o: RiskObject, at: int, number: int, measured: int,
                  now: int)
    requires Stage(s, r, frame, o, at, number, measured) && 0 < at && at <= now <= at + 500
    ensures Stage(Built(c, s, now), r, frame, o, at, number, measured)
  {
    RenderKeeps(c, s, now, o.globalId);
    RenderedHistories(c, s, now, o.globalId);
    BuiltFrame(c, s, now);
    BuiltInput(c, s, now);
    SameStage(s, Built(c, s, now), r, frame, o, at, number, measured);
  }

  lemma SameStage(s: Tracker, after: Tracker, r: Rect, frame: Frame, o: RiskObject, at: int, number: int, measured: int)
    requires Stage(s, r, frame, o, at, number, measured)
    requires after.frameSequence == s.frameSequence && after.measuredInterval == s.measuredInterval
    requires after.history == s.history && after.bounds == s.bounds
    requires after.lastInput == s.lastInput && after.lastArrival == s.lastArrival
    requires var f, g, id := s.filters, after.filters, o.globalId;
             && Lookup(g.positions, id) == Lookup(f.positions, id) && Lookup(g.times, id) == Lookup(f.times, id)
             && (id in g.histories ==> id in f.histories && g.histories[id] == f.histories[id])
    ensures Stage(after, r, frame, o, at, number, measured)
  {}

  lemma RenderedHistories(c: Config, s: Tracker, now: int, id: int)
    ensures id in Built(c, s, now).filters.histories ==>
              id in s.filters.histories && Built(c, s, now).filters.histories[id] == s.filters.histories[id]
  {}

  lemma SecondPosition(h: Hypot, f: Filters, o: RiskObject, p: Point, at: int, now: int)
    requires IsHypot(h) && Lookup(f.positions, o.globalId) == Some(p) && Lookup(f.times, o.globalId) == Some(at)
    requires 0 < at
    requires o.globalId in f.histories ==> |f.histories[o.globalId]| <= 1
    requires 0 < now - at <= 500 && Distance(h, p, o.worldPosition) <= MaximumDistance(now - at)
    ensures var after, id := ObservedAll(h, f, [o], now), o.globalId;
            && Lookup(after.positions, id) == Some(o.worldPosition) && Lookup(after.times, id) == Some(now)
            && id in after.histories && |after.histories[id]| <= 2
  {
    var history := Get(f.histories, o.globalId, []);
    assert [o][..0] == [];
    assert ObservedAll(h, f, [o], now) == Observed(h, f, o.globalId, o.worldPosition, now);
    assert Sampled(history, o.worldPosition) == history + [o.worldPosition];
    StepTowardsTarget(h, p, o.worldPosition, now - at);
  }

  lemma SecondStage(h: Hypot, c: Config, s: Tracker, r: Rect, first: Frame, p: RiskObject, frame: Frame, o: RiskObject)
    requires c.Valid() && IsHypot(h) && Stage(s, r, first, p, 1000, 1, 0) && Sends(r, frame, o) && frame != first
    requires o.globalId == p.globalId && Distance(h, p.worldPosition, o.worldPosition) <= MaximumDistance(200)
    ensures var after := Submitted(h, c, s, frame, 1200).0;
            Stage(after, r, frame, o, 1200, 2, 200) && after.display == s.display
  {
    ContinuedState(h, c, s, frame, 1200);
    SubmitFilters(h, c, s, frame, 1200);
    SecondPosition(h, s.filters, o, p.worldPosition, 1000, 1200);
    assert Ids([o]) == {o.globalId};
  }

  /** Two frames and a snapshot with each, 200 ms apart. */
  function TwoFrames(first: Frame, second: Frame): seq<Op> {
    [Submit(first, 1000)] + [Render(1000)] + [Submit(second, 1200)] + [Render(1200)]
  }

  lemma TwoFramesState(h: Hypot, c: Config, r: Rect, first: Frame, p: RiskObject, second: Frame, q: RiskObject)
    requires c.Valid() && IsHypot(h) && c.positionTransitionMsec == 100 && Sends(r, first, p) && Sends(r, second, q)
    requires first != second && q.globalId == p.globalId
    requires Distance(h, p.worldPosition, q.worldPosition) <= MaximumDistance(200)
    ensures var s := Run(h, c, Fresh(Some(r)), TwoFrames(first, second));
            && Stage(s, r, second, q, 1200, 2, 200)
            && Lookup(s.display.transitions, p.globalId) == Some(Transition(p.worldPosition, q.worldPosition, 1200, 2))
  {
    var s0, id := Fresh(Some(r)), p.globalId;
    RunOne(h, c, s0, Submit(first, 1000));
    RunMore(h, c, s0, [Submit(first, 1000)], Render(1000));
    RunMore(h, c, s0, [Submit(first, 1000)] + [Render(1000)], Submit(second, 1200));
    RunMore(h, c, s0, [Submit(first, 1000)] + [Render(1000)] + [Submit(second, 1200)], Render(1200));
    FirstStage(h, c, r, first, p);
    var s1 := Submitted(h, c, s0, first, 1000).0;
    RenderedStage(c, s1, r, first, p, 1000, 1, 0, 1000);
    var s2 := Built(c, s1, 1000);
    SecondStage(h, c, s2, r, first, p, second, q);
    var s3 := Submitted(h, c, s2, second, 1200).0;
    RenderedStage(c, s3, r, second, q, 1200, 2, 200, 1200);
  }

  lemma ThirdInterval(h: Hypot, c: Config, s: Tracker, r: Rect, second: Frame, q: RiskObject, third: Frame,
                      o: RiskObject)
    requires c.Valid() && Stage(s, r, second, q, 1200, 2, 200) && Sends(r, third, o) && third != second
    requires o.globalId == q.globalId
    ensures Arrives(s, third, 1300, o.globalId) && Submitted(h, c, s, third, 1300).0.measuredInterval == 175
  {
    assert o in [o];
  }

  lemma NotTheSame(c: Config, t: Transition)
    requires c.positionTransitionMsec == 100 && t.start != t.target && t.startMsec == 1200
    ensures !SamePlace(t, 1300 - t.startMsec, TransitionDuration(c, 200), TransitionDuration(c, 175))
  {}

  /** A third frame that comes early, after 100 ms, shortens the transition to 175 ms. Half way of the
      old one, the marker jumps ahead. */
  lemma EarlyFrameMovesMarker(h: Hypot, c: Config, r: Rect, first: Frame, p: RiskObject, second: Frame, q: RiskObject,
                              third: Frame, o: RiskObject) returns (at: Point, at': Point)
    requires c.Valid() && IsHypot(h) && c.positionTransitionMsec == 100
    requires Sends(r, first, p) && Sends(r, second, q) && Sends(r, third, o) && first != second && second != third
    requires o.globalId == q.globalId == p.globalId && p.worldPosition != q.worldPosition
    requires Distance(h, p.worldPosition, q.worldPosition) <= MaximumDistance(200)
    ensures var s := Run(h, c, Fresh(Some(r)), TwoFrames(first, second));
            var after := Submitted(h, c, Built(c, s, 1300), third, 1300).0;
            && ShowsPosition(Picture(c, s, 1300).observed, p.globalId, at)
            && ShowsPosition(Picture(c, after, 1300).observed, p.globalId, at') && at != at'
  {
    var s, id := Run(h, c, Fresh(Some(r)), TwoFrames(first, second)), p.globalId;
    TwoFramesState(h, c, r, first, p, second, q);
    RenderedStage(c, s, r, second, q, 1200, 2, 200, 1300);
    ThirdInterval(h, c, Built(c, s, 1300), r, second, q, third, o);
    NotTheSame(c, Transition(p.worldPosition, q.worldPosition, 1200, 2));
    var t;
    at, at', t := FrameMovesNothingExactly(h, c, Some(r), TwoFrames(first, second), 1300, third, 1300, id);
  }
}
