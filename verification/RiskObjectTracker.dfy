/** The live object tracker (client RiskObjectTracker) with its state updated in place, against
    the values of TrackerState. */
module RiskObjectTracker {
  import opened Domain
  import opened TrackerFilters
  import opened TrackerBounds
  import opened TrackerState

  class RiskObjectTracker {
    const c: Config
    const h: Hypot
    var history: seq<Frame>
    var lastInput: Option<Frame>
    var filters: Filters
    var bounds: Bounds
    var life: Lifecycle
    var display: Display
    var previous: map<int, Point>
    var pulses: Pulses
    var frameSequence: int
    var measuredInterval: int
    var lastArrival: int

    ghost function View(): Tracker reads this {
      Tracker(history, lastInput, filters, bounds, life, display, previous, pulses, frameSequence, measuredInterval,
              lastArrival)
    }

    /** Configured bounds count only when they have positive size. */
    constructor (c: Config, h: Hypot, configured: Option<Rect>)
      ensures this.c == c && this.h == h
      ensures View() == Fresh(if configured.Some? && configured.value.HasSize() then configured else None)
    {
      this.c, this.h := c, h;
      history, lastInput, filters, life, display, previous, pulses :=
        [], None, NoFilters(), NoLife(), NoDisplay(), map[], NoPulses();
      bounds := Initial(if configured.Some? && configured.value.HasSize() then configured else None);
      frameSequence, measuredInterval, lastArrival := 0, 0, 0;
    }

    method Reset()
      modifies this
      ensures View() == Restarted(old(View()))
    {
      history, lastInput, filters, life, display, previous, pulses :=
        [], None, NoFilters(), NoLife(), NoDisplay(), map[], NoPulses();
      bounds := bounds.(pending := NO_RECT, pendingCount := 0);
      measuredInterval, lastArrival := 0, 0;
      if bounds.automatic.None? {
        bounds := bounds.(samples := [], start := 0);
      }
    }

    method RemoveOutOfRange(objects: seq<RiskObject>) returns (kept: seq<RiskObject>)
      ensures kept == Kept(bounds, objects)
    {
      kept := [];
      for i := 0 to |objects|
        invariant kept == Kept(bounds, objects[..i])
      {
        assert objects[..i + 1][..i] == objects[..i];
        if Acceptable(bounds, objects[i].worldPosition) {
          kept := kept + [objects[i]];
        }
      }
      assert objects[..|objects|] == objects;
    }

    method FilterPositions(objects: seq<RiskObject>, now: int)
      modifies `filters
      ensures filters == ObservedAll(h, old(filters), objects, now)
    {
      for i := 0 to |objects|
        invariant filters == ObservedAll(h, old(filters), objects[..i], now)
      {
        assert objects[..i + 1][..i] == objects[..i];
        filters := Observed(h, filters, objects[i].globalId, objects[i].worldPosition, now);
      }
      assert objects[..|objects|] == objects;
    }

    method UpdateAutomaticWorldBounds(sourceTimestamp: int, positions: seq<Point>)
      modifies `bounds
      ensures bounds == Updated(old(bounds), sourceTimestamp, positions, c.world)
    {
      if bounds.configured.Some? || positions == [] {
        return;
      }
      if bounds.automatic.Some? {
        ExpandAutomaticWorldBounds(positions);
        return;
      }
      if bounds.start <= 0 {
        bounds := bounds.(start := sourceTimestamp);
      }
      var samples := Collect(bounds.samples, positions, c.world.maximumSamples);
      bounds := bounds.(samples := samples);
      if sourceTimestamp - bounds.start < c.world.warmupMsec || |samples| < c.world.minimumSamples {
        return;
      }
      bounds := bounds.(automatic := Some(Estimated(samples, c.world)), samples := []);
    }

    method ExpandAutomaticWorldBounds(positions: seq<Point>)
      requires bounds.automatic.Some?
      modifies `bounds
      ensures bounds == Expanded(old(bounds), positions, c.world)
    {
      var candidate := Grow(bounds.automatic.value, positions);
      if candidate == bounds.automatic.value {
        bounds := bounds.(pendingCount := 0);
        return;
      }
      var pending := if bounds.pendingCount > 0 then United(bounds.pending, candidate) else candidate;
      bounds := bounds.(pending := pending, pendingCount := bounds.pendingCount + 1);
      if bounds.pendingCount < AUTOMATIC_BOUNDS_EXPANSION_FRAME_COUNT {
        return;
      }
      bounds :=
        bounds.(automatic := Some(Padded(pending, c.world.paddingRatio)), pending := NO_RECT, pendingCount := 0);
    }

    method RetainObjects(objects: seq<RiskObject>) returns (frameIds: set<int>)
      modifies `life
      ensures life == Seen(old(life), objects) && frameIds == Ids(objects)
    {
      frameIds := {};
      for i := 0 to |objects|
        invariant life == Seen(old(life), objects[..i]) && frameIds == set k | 0 <= k < i :: objects[k].globalId
      {
        assert objects[..i + 1][..i] == objects[..i];
        var id := objects[i].globalId;
        frameIds := frameIds + {id};
        life := Lifecycle(life.retained[id := objects[i]], life.missingSince - {id}, life.missingIds - {id});
      }
      assert objects[..|objects|] == objects;
    }

    /** The loop over retained objects, in any order. */
    method OmitMissing(frameIds: set<int>, now: int)
      modifies `life
      ensures life == Omitted(old(life), old(life).retained.Keys - frameIds, now, Retention(c))
    {
      var todo := life.retained.Keys - frameIds;
      ghost var before, candidates := life, todo;
      while todo != {}
        invariant todo <= candidates
        invariant life == Omitted(before, candidates - todo, now, Retention(c))
      {
        SomethingLeft(todo);
        var id :| id in todo;
        OmittedOneMore(before, candidates - todo, id, now, Retention(c));
        assert candidates - (todo - {id}) == (candidates - todo) + {id};
        life := OmitOne(life, id, now, Retention(c));
        todo := todo - {id};
      }
      assert candidates - todo == candidates;
    }

    method AppendHistory(frame: Frame)
      requires c.Valid()
      modifies `history
      ensures history == Trimmed(old(history) + [frame], c.maximumHistorySize)
    {
      history := history + [frame];
      while |history| > c.maximumHistorySize
        invariant Trimmed(history, c.maximumHistorySize) == Trimmed(old(history) + [frame], c.maximumHistorySize)
        decreases |history|
      {
        history := history[1..];
      }
    }

    method SubmitFrame(frame: Frame, now: int) returns (accepted: bool)
      requires c.Valid()
      modifies this
      ensures (View(), accepted) == Submitted(h, c, old(View()), frame, now)
    {
      if frame.sourceTimestamp <= 0 || now <= 0 {
        return false;
      }
      var delta := if lastArrival > 0 then now - lastArrival else 0;
      if lastArrival > 0 && now - lastArrival > SOURCE_RESTART_GAP {
        Reset();
      }
      lastArrival := now;
      if lastInput == Some(frame) {
        return false;
      }
      AcceptFrame(frame, now, delta);
      return true;
    }

    method AcceptFrame(frame: Frame, now: int, delta: int)
      requires c.Valid()
      modifies this
      ensures View() == Accept(h, c, old(View()), frame, now, delta)
    {
      var objects := RemoveOutOfRange(frame.objects);
      CountFrame(frame, delta);
      LocateObjects(frame.sourceTimestamp, objects, now);
      RecordFrame(frame.(objects := objects), now);
    }

    method CountFrame(frame: Frame, delta: int)
      modifies `lastInput, `frameSequence, `measuredInterval
      ensures View() == Counted(old(View()), frame, delta)
    {
      lastInput := Some(frame);
      frameSequence := frameSequence + 1;
      MeasureInterval(delta);
    }

    method LocateObjects(sourceTimestamp: int, objects: seq<RiskObject>, now: int)
      modifies `filters, `bounds
      ensures View() == Located(h, c, old(View()), sourceTimestamp, objects, now)
    {
      FilterPositions(objects, now);
      UpdateAutomaticWorldBounds(sourceTimestamp, Targets(filters, objects));
    }

    method RecordFrame(frame: Frame, now: int)
      requires c.Valid()
      modifies `life, `history
      ensures View() == Recorded(c, old(View()), frame, now)
    {
      UpdateLifecycle(frame.objects, now);
      AppendHistory(frame);
    }

    method MeasureInterval(delta: int)
      modifies `measuredInterval
      ensures measuredInterval == Measured(old(measuredInterval), delta)
    {
      if 0 < delta <= SOURCE_RESTART_GAP {
        measuredInterval := if measuredInterval <= 0 then delta else (measuredInterval * 3 + delta) / 4;
      }
    }

    method UpdateLifecycle(objects: seq<RiskObject>, now: int)
      modifies `life
      ensures life == LifeAfter(old(life), objects, now, Retention(c))
    {
      var frameIds := RetainObjects(objects);
      OmitMissing(frameIds, now);
    }

    method ExpireStaleFrame(now: int, expiry: int) returns (expired: bool)
      modifies this
      ensures View() == Expired(old(View()), now, expiry)
      ensures expired <==> old(history) != [] && now - old(lastArrival) > expiry
    {
      if history == [] || now - lastArrival <= expiry {
        return false;
      }
      Reset();
      return true;
    }

    // ---------- snapshots ----------

    /** The loop over the latest frame. */
    method DrawObserved(objects: seq<RiskObject>, now: int) returns (d: Drawing)
      ensures d == DrawnAll(c, View(), objects, |objects|, now)
    {
      d := Drawing(display, map[], [], []);
      for i := 0 to |objects|
        invariant d == DrawnAll(c, View(), objects, i, now)
      {
        d := DrawnObserved(c, filters, previous, frameSequence, measuredInterval, objects, d, objects[i], now);
      }
    }

    /** The loop over retained objects that the latest frame does not hold, in any order. */
    method DrawMissing(candidates: set<int>, d: Drawing, now: int) returns (ghosts: map<int, Shown>)
      requires candidates <= life.retained.Keys
      ensures ghosts == Ghosts(c, life, filters, d.display, candidates, now)
    {
      ghosts := map[];
      var todo := candidates;
      while todo != {}
        invariant todo <= candidates
        invariant ghosts == Ghosts(c, life, filters, d.display, candidates - todo, now)
      {
        SomethingLeft(todo);
        var id :| id in todo;
        var age := MissingAge(life, id, now);
        var o := life.retained[id];
        if age <= Retention(c) {
          ghosts := ghosts[id := Shown(id, TargetOf(filters, o), Point(0.0, 0.0), o.zoneId, o.riskLevel,
                                       Bounded(0.0, MissingOpacity(c, d.display, id, age), 1.0), false)];
        }
        assert candidates - (todo - {id}) == (candidates - todo) + {id};
        todo := todo - {id};
      }
      assert candidates - todo == candidates;
    }

    method EmitPulses(pairs: seq<PairRisk>, current: map<int, Point>, now: int)
      modifies `pulses
      ensures pulses == Remembered(PulsedAll(old(pulses), pairs, current, now), now)
    {
      for i := 0 to |pairs|
        invariant pulses == PulsedAll(old(pulses), pairs[..i], current, now)
      {
        assert pairs[..i + 1][..i] == pairs[..i];
        pulses := Pulsed(pulses, pairs[i], current, now);
      }
      assert pairs[..|pairs|] == pairs;
      pulses := Remembered(pulses, now);
    }

    method BuildSnapshot(now: int) returns (snapshot: Snapshot)
      modifies this
      ensures snapshot == Picture(c, old(View()), now)
      ensures View() == Built(c, old(View()), now)
    {
      pulses := pulses.(events := []);
      snapshot := Render(now);
    }

    method Render(now: int) returns (snapshot: Snapshot)
      modifies `display, `life, `pulses, `filters, `previous
      ensures snapshot == PictureOf(c, old(View()), now) && View() == RenderedState(c, old(View()), now)
    {
      if history == [] || !Ready(bounds) {
        return NO_SNAPSHOT;
      }
      snapshot := Draw(history[|history| - 1].objects, now);
    }

    /** Both drawing loops and the cleanup. */
    method Draw(objects: seq<RiskObject>, now: int) returns (snapshot: Snapshot)
      requires Drawable(View()) && objects == Latest(View())
      modifies `display, `life, `pulses, `filters, `previous
      ensures var s := old(View());
              var d := DrawnAll(c, s, objects, |objects|, now);
              var ghosts := Ghosts(c, s.life, s.filters, d.display, Undrawn(s, d), now);
              && snapshot == Snapshot(d.objects, ghosts, d.pairs)
              && View() == Finished(c, s, d, ghosts, now)
    {
      var d := DrawObserved(objects, now);
      var ghosts := DrawMissing(life.retained.Keys - d.current.Keys, d, now);
      snapshot := Snapshot(d.objects, ghosts, d.pairs);
      Finish(d, ghosts, now);
    }

    method Finish(d: Drawing, ghosts: map<int, Shown>, now: int)
      modifies `display, `life, `pulses, `filters, `previous
      ensures View() == Finished(c, old(View()), d, ghosts, now)
    {
      var current := d.current + Positions(ghosts);
      display := Faded(c, life, d.display, ghosts.Keys, now);
      life := LifeWithout(life, life.retained.Keys - d.current.Keys - ghosts.Keys, ghosts.Keys);
      EmitPulses(d.pairs, current, now);
      EraseTransitions(current.Keys);
      EraseStale(now);
      previous := current;
    }

    method EraseTransitions(current: set<int>)
      modifies `display
      ensures display == DisplayOf(old(display), current)
    {
      var todo := display.transitions.Keys;
      ghost var before := display;
      while todo != {}
        invariant todo <= before.transitions.Keys
        invariant var gone := before.transitions.Keys - todo - current;
                  display == Display(before.transitions - gone, before.opacities - gone, before.opacityTimes - gone)
      {
        SomethingLeft(todo);
        var id :| id in todo;
        ghost var gone := before.transitions.Keys - todo - current;
        if id !in current {
          assert before.transitions.Keys - (todo - {id}) - current == gone + {id};
          display := Display(display.transitions - {id}, display.opacities - {id}, display.opacityTimes - {id});
        } else {
          assert before.transitions.Keys - (todo - {id}) - current == gone;
        }
        todo := todo - {id};
      }
      assert before.transitions.Keys - todo - current == before.transitions.Keys - current;
    }

    method EraseStale(now: int)
      modifies `filters
      ensures filters == FiltersAt(old(filters), old(filters).times.Keys, now)
    {
      var todo := filters.times.Keys;
      ghost var before := filters;
      while todo != {}
        invariant todo <= before.times.Keys && todo <= filters.times.Keys
        invariant filters == FiltersAt(before, before.times.Keys - todo, now)
      {
        SomethingLeft(todo);
        var id :| id in todo;
        EraseOneMore(before, before.times.Keys - todo, id, now);
        assert before.times.Keys - (todo - {id}) == (before.times.Keys - todo) + {id};
        if now - filters.times[id] > POSITION_FILTER_RESET_GAP {
          filters := Filters(filters.histories - {id}, filters.positions - {id}, filters.times - {id});
        }
        todo := todo - {id};
      }
      assert before.times.Keys - todo == before.times.Keys;
    }

    method TakeRiskEvents() returns (events: seq<RiskEvent>)
      modifies `pulses
      ensures events == old(pulses).events && pulses == old(pulses).(events := [])
    {
      events := pulses.events;
      pulses := pulses.(events := []);
    }
  }

  /** One turn of the loop over omitted objects. */
  function OmitOne(life: Lifecycle, id: int, now: int, retention: int): Lifecycle {
    if Get(life.missingSince, id, 0) <= 0 then life.(missingSince := life.missingSince[id := now])
    else if now - life.missingSince[id] <= retention then life
    else Lifecycle(life.retained - {id}, life.missingSince - {id}, life.missingIds - {id})
  }

  lemma OmittedOneMore(life: Lifecycle, done: set<int>, id: int, now: int, retention: int)
    requires id !in done
    ensures OmitOne(Omitted(life, done, now, retention), id, now, retention)
      == Omitted(life, done + {id}, now, retention)
  {
    OneMoreGone(life, done, id, now, retention);
    OneMoreStarting(life, done, id, now);
    OneTurn(life, Gone(life, done, now, retention), Starting(life, done, now), id, now, retention);
    SameSets(Gone(life, done, now, retention), Starting(life, done, now));
  }

  lemma OneTurn(life: Lifecycle, gone: set<int>, starting: map<int, int>, id: int, now: int, retention: int)
    requires id !in gone && id !in starting
    requires forall k :: k in starting ==> k !in gone
    ensures OmitOne(Without(life, gone, starting), id, now, retention)
         == if Overdue(life, id, now, retention) then Without(life, gone + {id}, starting)
            else if Get(life.missingSince, id, 0) <= 0 then Without(life, gone, starting + map[id := now])
            else Without(life, gone, starting)
  {
    var since := (life.missingSince - gone) + starting;
    assert Get(since, id, 0) == Get(life.missingSince, id, 0);
    if Overdue(life, id, now, retention) {
      assert since - {id} == (life.missingSince - (gone + {id})) + starting;
      assert (life.retained - gone) - {id} == life.retained - (gone + {id});
    } else if Get(life.missingSince, id, 0) <= 0 {
      assert since[id := now] == (life.missingSince - gone) + (starting + map[id := now]);
    }
  }

  lemma SameSets(gone: set<int>, starting: map<int, int>)
    ensures gone + {} == gone && starting + map[] == starting
  {}

  lemma OneMoreGone(life: Lifecycle, done: set<int>, id: int, now: int, retention: int)
    ensures Gone(life, done + {id}, now, retention)
         == Gone(life, done, now, retention) + if Overdue(life, id, now, retention) then {id} else {}
  {}

  lemma OneMoreStarting(life: Lifecycle, done: set<int>, id: int, now: int)
    ensures Starting(life, done + {id}, now)
         == Starting(life, done, now) + if Get(life.missingSince, id, 0) <= 0 then map[id := now] else map[]
  {}

  lemma EraseOneMore(f: Filters, done: set<int>, id: int, now: int)
    requires id !in done && id in f.times
    ensures var mid, after := FiltersAt(f, done, now), FiltersAt(f, done + {id}, now);
            && id in mid.times && mid.times[id] == f.times[id]
            && after == if Stale(f, id, now) then Filters(mid.histories - {id}, mid.positions - {id}, mid.times - {id})
              else mid
  {
    var gone := set k | k in done && Stale(f, k, now);
    var gone' := set k | k in done + {id} && Stale(f, k, now);
    assert gone' == if Stale(f, id, now) then gone + {id} else gone;
  }
}
